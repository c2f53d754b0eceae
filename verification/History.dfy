// The offline checker: it walks every event in sequence order and accepts a database only
// if each event reads back and every object its data names had been admitted by then.
module History {
  import opened Base
  import opened Json
  import opened Domain
  import opened Tables
  import opened Transactions
  import opened Storage
  import opened Snapshots
  import opened HostStorage
  import opened Descriptors
  import opened ContinuityRecords
  import C = Checkpoints
  import Text

  const CAS_DIGEST_KEYS := {
    "planDigest", "effectDigest", "bindingDigest", "authorityDecisionDigest", "dispatchDigest", "requestObjectDigest",
    "observationDigest", "readObservationDigest", "verificationDigest", "diffObjectDigest", "outcomeDigest",
    "childOutcomeDigest", "contextObjectDigest", "decisionObjectDigest", "admissionObjectDigest", "intentObjectDigest",
    "observationObjectDigest", "invocationReceiptDigest", "proposalObjectDigest", "resolutionObjectDigest",
    "outputObservationDigest"}

  predicate EndsWith(s: string, suffix: string) {
    |s| >= |suffix| && s[|s| - |suffix|..] == suffix
  }

  datatype Named = Named(key: string, value: Value)

  // The list items that are strings.
  function StringItems(key: string, items: seq<Value>): seq<Named> {
    if |items| == 0 then []
    else (if IsString(items[0]) then [Named(key, items[0])] else []) + StringItems(key, items[1..])
  }

  // What one field names by itself.
  function FieldNames(key: string, v: Value): seq<Named> {
    (if (key in CAS_DIGEST_KEYS || EndsWith(key, "ObjectDigest")) && IsString(v) then [Named(key, v)] else [])
    + (if EndsWith(key, "ObjectDigests") && v.Arr? then StringItems(key, v.items) else [])
  }

  // _known_references: every stored object the data names, at any depth.
  function KnownReferences(v: Value): seq<Named>
    decreases v, 1, 0
  {
    match v
    case Obj(fields) => FieldReferences(v, fields)
    case Arr(items) => ItemReferences(v, items)
    case _ => []
  }

  function FieldReferences(whole: Value, fields: map<string, Value>): seq<Named>
    requires forall k :: k in fields ==> fields[k] < whole
    decreases whole, 0, |fields|
  {
    if fields == map[] then []
    else
      var k := Text.Least(fields.Keys);
      FieldNames(k, fields[k]) + KnownReferences(fields[k]) + FieldReferences(whole, fields - {k})
  }

  function ItemReferences(whole: Value, items: seq<Value>): seq<Named>
    requires forall i :: 0 <= i < |items| ==> items[i] < whole
    decreases whole, 0, |items|
  {
    if |items| == 0 then [] else KnownReferences(items[0]) + ItemReferences(whole, items[1..])
  }

  // A field names an object itself, or lists the objects it names.
  ghost predicate NamesHere(key: string, v: Value, n: Named) {
    && n.key == key && (n.value.Str? || n.value.Hash?)
    && (|| ((key in CAS_DIGEST_KEYS || EndsWith(key, "ObjectDigest")) && n.value == v)
        || (EndsWith(key, "ObjectDigests") && v.Arr? && n.value in v.items))
  }

  // At some depth of objects and lists, a field of the value names the object.
  ghost predicate Mentions(v: Value, n: Named)
    decreases v
  {
    match v
    case Obj(fields) => exists k :: k in fields && (NamesHere(k, fields[k], n) || Mentions(fields[k], n))
    case Arr(items) => exists i :: 0 <= i < |items| && Mentions(items[i], n)
    case _ => false
  }

  lemma {:induction false} StringItemsExactly(key: string, items: seq<Value>, n: Named)
    ensures n in StringItems(key, items) <==> n.key == key && n.value in items && (n.value.Str? || n.value.Hash?)
  {
    if |items| > 0 {
      StringItemsExactly(key, items[1..], n);
      assert items == [items[0]] + items[1..];
    }
  }

  lemma FieldNamesExactly(key: string, v: Value, n: Named)
    ensures n in FieldNames(key, v) <==> NamesHere(key, v, n)
  {
    hide EndsWith;
    if v.Arr? {
      StringItemsExactly(key, v.items, n);
    }
  }

  // Theorem: the references the checker collects are exactly those mentioned at any depth.
  lemma {:induction false} ReferencesExactly(v: Value, n: Named)
    ensures n in KnownReferences(v) <==> Mentions(v, n)
    decreases v, 1, 0
  {
    match v
    case Obj(fields) => FieldsExactly(v, fields, n);
    case Arr(items) => ItemsExactly(v, items, n);
    case _ =>
  }

  lemma {:induction false} FieldsExactly(whole: Value, fields: map<string, Value>, n: Named)
    requires forall k :: k in fields ==> fields[k] < whole
    ensures n in FieldReferences(whole, fields) <==>
            exists k :: k in fields && (NamesHere(k, fields[k], n) || Mentions(fields[k], n))
    decreases whole, 0, |fields|
  {
    hide NamesHere, Mentions, KnownReferences, FieldNames;
    if fields != map[] {
      var k := Text.Least(fields.Keys);
      FieldNamesExactly(k, fields[k], n);
      ReferencesExactly(fields[k], n);
      FieldsExactly(whole, fields - {k}, n);
      assert forall j :: j in fields && j != k ==> j in fields - {k} && (fields - {k})[j] == fields[j];
    }
  }

  lemma {:induction false} ItemsExactly(whole: Value, items: seq<Value>, n: Named)
    requires forall i :: 0 <= i < |items| ==> items[i] < whole
    ensures n in ItemReferences(whole, items) <==> exists i :: 0 <= i < |items| && Mentions(items[i], n)
    decreases whole, 0, |items|
  {
    hide Mentions, KnownReferences;
    if |items| > 0 {
      ReferencesExactly(items[0], n);
      ItemsExactly(whole, items[1..], n);
      if i :| 0 <= i < |items| && Mentions(items[i], n) {
        assert i > 0 ==> items[1..][i - 1] == items[i];
      }
      if i :| 0 <= i < |items| - 1 && Mentions(items[1..][i], n) {
        assert items[i + 1] == items[1..][i];
      }
    }
  }

  predicate AllAdmitted(references: seq<Named>, available: set<Digest>) {
    forall i :: 0 <= i < |references| ==> references[i].value.Hash? && references[i].value.digest in available
  }

  // ---- One event ----

  const CORE_TEXTS := {
    "task.created", "task.state-changed", "task.frontier-changed", "task.context-checkpointed", "cognition.requested",
    "cognition.selection-admitted", "cognition.proposal-resolved", "effect.dispatch-prepared", "effect.outcome-unknown",
    "effect.dispatch-observed", "verification.recorded", "task.outcome-recorded", "task.result-applied",
    "runtime.linked", "runtime.dispatch-prepared", "runtime.outcome-unknown", "runtime.dispatch-observed",
    "verification.accepted"}

  const RESERVED := {"task", "cognition", "effect", "verification", "runtime", "wakeup"}

  function Namespace(s: string): string {
    if |s| == 0 || s[0] == '.' then "" else [s[0]] + Namespace(s[1..])
  }

  predicate IsReserved(ns: string) {
    ns in RESERVED
  }

  predicate IsCoreText(s: string) {
    s in CORE_TEXTS
  }

  predicate PlainText(s: string) {
    forall c :: c in s ==> 'a' <= c <= 'z' || '0' <= c <= '9' || c in "._-"
  }

  // The text is one that some event kind may have.
  predicate IsKindText(s: string) {
    && Text.IsLabel(s)
    && '.' in s
    && Text.Utf8Length(s) <= 200
    && PlainText(s)
    && (IsReserved(Namespace(s)) ==> IsCoreText(s))
  }

  lemma PlainTextExactly(s: string)
    ensures PlainText(s) <==>
              forall j :: 0 <= j < |s| ==> 'a' <= s[j] <= 'z' || '0' <= s[j] <= '9' || s[j] == '.' || s[j] == '_' || s[j] == '-'
  {
    assert forall j :: 0 <= j < |s| ==> s[j] in s;
  }

  // The text names a namespace before its first point; the reserved ones have their own texts.
  lemma KindTextExactly(s: string, i: nat)
    requires i < |s| && s[i] == '.' && '.' !in s[..i]
    ensures IsKindText(s) <==>
              && Text.Trimmed(s) && Text.Utf8Length(s) < 201 && PlainText(s)
              && (IsReserved(s[..i]) ==> IsCoreText(s))
  {
    hide Text.Utf8Length, Text.Trimmed, Namespace, PlainText, IsReserved, IsCoreText;
    NamespaceIs(s, i);
    assert s[i] in s;
  }

  lemma {:induction false} NamespaceIs(s: string, i: nat)
    requires i < |s| && s[i] == '.' && '.' !in s[..i]
    ensures Namespace(s) == s[..i]
  {
    if i > 0 {
      assert s[0] in s[..i] && s[1..][..i - 1] == s[..i][1..];
      NamespaceIs(s[1..], i - 1);
      assert s[..i] == [s[0]] + s[1..][..i - 1];
    }
  }

  lemma NoPointNoKind(s: string)
    requires '.' !in s
    ensures !IsKindText(s)
  {
  }

  // The payload against its row: stream kind, event kind, identity, revision and time.
  function ReadHistorical(cas: set<Digest>, e: EventRow): Result<TaskEventSnapshot, HostError> {
    if e.streamKind != TaskStream then Err(JournalCorruption)
    else
      match GetObject(cas, e.payloadDigest, EVENT_OBJECT_KIND)
      case Err(error) => Err(error)
      case Ok(v) =>
        if !v.Obj? || v.fields.Keys != EVENT_FIELDS then Err(ObjectCorrupt)
        else if v.fields["schemaVersion"] != Num(1) || v.fields["kind"] != Str(EVENT_WIRE_KIND) then Err(ObjectCorrupt)
        else if !v.fields["eventKind"].Str? || !IsKindText(v.fields["eventKind"].s) then Err(ObjectCorrupt)
        else if v.fields["eventKind"].s != e.kind.Text() then Err(JournalCorruption)
        else
          match ProjectionFromJson(v.fields["projection"])
          case None => Err(ObjectCorrupt)
          case Some(p) =>
            if p.taskId != e.streamId || p.revision != e.streamRevision || p.updatedAtMs != e.recordedAtMs
            then Err(JournalCorruption)
            else Ok(TaskEventSnapshot(e.kind, v.fields["data"], p, e.payloadDigest))
  }

  // Either digest alone makes a creation claim a checkpoint here; a reader asks for both.
  predicate Bearing(s: TaskEventSnapshot) {
    || s.kind == CHECKPOINT_EVENT
    || (s.kind == Core(TaskCreated)
        && (Field(s.data, "checkpointDigest").Some? || Field(s.data, "checkpointObjectDigest").Some?))
  }

  // The checker and a reader take the same events for bearers of a checkpoint, except a
  // creation that holds exactly one of the two digests.
  lemma CheckerAgreesIff(s: TaskEventSnapshot)
    ensures Bearing(s) == Bears(s) <==>
              || s.kind != Core(TaskCreated)
              || (Field(s.data, "checkpointDigest").Some? <==> Field(s.data, "checkpointObjectDigest").Some?)
  {
  }

  // Such a creation: a reader finds no checkpoint in it, and the checker refuses it.
  lemma OneDigestDivides(cas: set<Digest>, p: TaskProjection, payload: Digest, digest: Value)
    ensures var s := TaskEventSnapshot(Core(TaskCreated), Obj(map["checkpointDigest" := digest]), p, payload);
            CheckpointIn(cas, s) == Ok(None) && CheckpointLinks(cas, s) == Err(JournalCorruption)
  {
    var fields := map["checkpointDigest" := digest];
    assert "descriptorDigest" in RECORD_FIELDS && "descriptorDigest" !in fields;
  }

  function DescriptorObjectIn(cas: set<Digest>, named: Value): Result<TaskDescriptor, HostError> {
    match Load(cas, named)
    case Err(e) => Err(e)
    case Ok(o) =>
      if o.kind != DESCRIPTOR_OBJECT_KIND then Err(ObjectCorrupt)
      else
        match FromJson(o.payload)
        case None => Err(ObjectCorrupt)
        case Some(d) => Ok(d)
  }

  // The checkpoint branch of _validate_core_semantic_links: how many links it checked.
  function CheckpointLinks(cas: set<Digest>, s: TaskEventSnapshot): Result<nat, HostError> {
    if !s.data.Obj? || !Bearing(s) then Ok(0)
    else if s.data.fields.Keys != RECORD_FIELDS && s.data.fields.Keys != RECORD_FIELDS + {"writerLabel"}
    then Err(JournalCorruption)
    else if WriterIn(s.data).Err? then Err(JournalCorruption)
    else
      var f := s.data.fields;
      if exists k :: k in RECORD_FIELDS && !IsString(f[k]) then Err(JournalCorruption)
      else
        match CheckpointObjectIn(cas, f["checkpointObjectDigest"])
        case Err(e) => Err(e)
        case Ok(c) =>
          if c.taskId != s.projection.taskId || f["checkpointDigest"] != Hash(c.Digest()) then Err(JournalCorruption)
          else
            match DescriptorObjectIn(cas, f["descriptorObjectDigest"])
            case Err(e) => Err(e)
            case Ok(d) =>
              if f["descriptorDigest"] != Hash(d.Digest()) || d.taskId != s.projection.taskId
                 || d.goalId != s.projection.goalId || d.workloadId != EXTERNAL_WORKLOAD
              then Err(JournalCorruption)
              else Ok(2)
  }

  lemma DescriptorObjectExactly(cas: set<Digest>, named: Value, d: TaskDescriptor)
    ensures DescriptorObjectIn(cas, named) == Ok(d) <==>
              && named.Hash? && named.digest in cas && Open(named.digest).Some?
              && Open(named.digest).value.kind == "task-descriptor" && FromJson(Open(named.digest).value.payload) == Some(d)
  {
    hide Open, FromJson;
  }

  // Theorem: data that bears a checkpoint passes exactly with the four digests as strings and
  // at most a valid writer, when the stored checkpoint is this task's and of that digest, and
  // the stored descriptor is of that digest, of this task and goal, and of external work.
  lemma LinksExactly(cas: set<Digest>, s: TaskEventSnapshot)
    requires s.data.Obj? && Bearing(s)
    ensures CheckpointLinks(cas, s).Ok? <==>
              var f := s.data.fields;
              && f.Keys - {"writerLabel"} == {"descriptorDigest", "descriptorObjectDigest", "checkpointDigest", "checkpointObjectDigest"}
              && ("writerLabel" in f ==> f["writerLabel"].Str? && C.IsWriterLabel(Some(f["writerLabel"].s)))
              && CheckpointObjectIn(cas, f["checkpointObjectDigest"]).Ok?
              && DescriptorObjectIn(cas, f["descriptorObjectDigest"]).Ok?
              && var c := CheckpointObjectIn(cas, f["checkpointObjectDigest"]).value;
              && var d := DescriptorObjectIn(cas, f["descriptorObjectDigest"]).value;
              && c.taskId == s.projection.taskId && f["checkpointDigest"] == Hash(c.Digest())
              && d.taskId == s.projection.taskId && d.goalId == s.projection.goalId
              && d.workloadId == "ordivon.host.external-continuity.v1" && f["descriptorDigest"] == Hash(d.Digest())
    ensures CheckpointLinks(cas, s).Ok? ==> CheckpointLinks(cas, s).value == 2
  {
    hide FromJson, C.FromJson, Open, TaskDescriptor.ToJson, C.WorkingCheckpoint.ToJson, C.IsWriterLabel;
    var f := s.data.fields;
    assert f.Keys - {"writerLabel"} == RECORD_FIELDS <==> f.Keys == RECORD_FIELDS || f.Keys == RECORD_FIELDS + {"writerLabel"};
  }

  // A row is read exactly as the event its payload holds, when kind, identity, revision and
  // time are those of the row.
  lemma HistoricalExactly(cas: set<Digest>, e: EventRow, s: TaskEventSnapshot)
    ensures ReadHistorical(cas, e) == Ok(s) <==>
              && e.streamKind == TaskStream && e.payloadDigest in cas
              && EventAtDigest(e.payloadDigest) == Some(TaskEvent(e.kind.Text(), s.data, s.projection))
              && IsKindText(e.kind.Text())
              && s.kind == e.kind && s.payloadDigest == e.payloadDigest
              && s.projection.taskId == e.streamId && s.projection.revision == e.streamRevision
              && s.projection.updatedAtMs == e.recordedAtMs
  {
    hide ProjectionFromJson, IsKindText, Open;
  }

  // Data that reaches the Effect, Binding and Authority checks.
  predicate NamesEffects(data: Value) {
    || StringField(data, "effectDigest").Some?
    || StringField(data, "bindingDigest").Some?
    || StringField(data, "authorityDecisionDigest").Some?
  }

  // Those checks are a parameter: what they find in the data of one event.
  type EffectLinks = Value -> Result<nat, HostError>

  function SemanticLinks(cas: set<Digest>, s: TaskEventSnapshot, effectLinks: EffectLinks): Result<nat, HostError> {
    match CheckpointLinks(cas, s)
    case Err(e) => Err(e)
    case Ok(n) =>
      if !NamesEffects(s.data) then Ok(n)
      else
        match effectLinks(s.data)
        case Err(e) => Err(e)
        case Ok(m) => Ok(n + m)
  }

  // The links of an event: those of its checkpoint, and those of any of the three digests that
  // name Effects; an error of either is the event's.
  lemma LinksAdd(cas: set<Digest>, s: TaskEventSnapshot, effectLinks: EffectLinks)
    ensures var effects := exists k :: k in {"effectDigest", "bindingDigest", "authorityDecisionDigest"} && StringField(s.data, k).Some?;
            && (SemanticLinks(cas, s, effectLinks).Ok? <==> CheckpointLinks(cas, s).Ok? && (effects ==> effectLinks(s.data).Ok?))
            && (SemanticLinks(cas, s, effectLinks).Ok? ==>
                  SemanticLinks(cas, s, effectLinks).value ==
                  CheckpointLinks(cas, s).value + if effects then effectLinks(s.data).value else 0)
  {
    hide CheckpointLinks, StringField;
    var keys := {"effectDigest", "bindingDigest", "authorityDecisionDigest"};
    assert "effectDigest" in keys && "bindingDigest" in keys && "authorityDecisionDigest" in keys;
  }

  // ---- The whole history ----

  datatype HistoryValidation = HistoryValidation(events: nat, taskStreams: nat, references: nat, links: nat)

  function PayloadEdges(edges: map<Digest, Role>): set<Digest> {
    set d | d in edges && edges[d] == Payload
  }

  // What the first n events had admitted, of those recorded with edges.
  ghost function AdmittedBy(db: Db, n: nat): set<Digest>
    requires n <= |db.events|
  {
    set j, d | 0 <= j < n && j + 1 >= db.boundary && d in EdgesOf(db, db.events[j].eventId) :: d
  }

  lemma AdmittedStep(db: Db, i: nat)
    requires i < |db.events|
    ensures AdmittedBy(db, i + 1) ==
            AdmittedBy(db, i) + (if i + 1 >= db.boundary then EdgesOf(db, db.events[i].eventId).Keys else {})
  {
    hide EdgesOf;
  }

  ghost function AvailableAt(db: Db, legacy: set<Digest>, i: nat): set<Digest>
    requires i < |db.events|
  {
    if i + 1 >= db.boundary then AdmittedBy(db, i + 1) else legacy
  }

  ghost predicate EventAccepted(store: Store, legacy: set<Digest>, effectLinks: EffectLinks, i: nat)
    requires i < |store.db.events|
  {
    var e := store.db.events[i];
    && ReadHistorical(store.cas, e).Ok?
    && var s := ReadHistorical(store.cas, e).value;
    && (i + 1 >= store.db.boundary ==> PayloadEdges(EdgesOf(store.db, e.eventId)) == {e.payloadDigest})
    && AllAdmitted(KnownReferences(s.data), AvailableAt(store.db, legacy, i))
    && SemanticLinks(store.cas, s, effectLinks).Ok?
  }

  ghost predicate HistoryAccepted(store: Store, legacy: set<Digest>, effectLinks: EffectLinks) {
    forall i :: 0 <= i < |store.db.events| ==> EventAccepted(store, legacy, effectLinks, i)
  }

  // Theorem: an event whose data mentions, at any depth, an object that no event up to it had
  // admitted makes the checker refuse the whole history.
  lemma UnadmittedIsRefused(store: Store, legacy: set<Digest>, effectLinks: EffectLinks, i: nat, s: TaskEventSnapshot, n: Named)
    requires i < |store.db.events| && ReadHistorical(store.cas, store.db.events[i]) == Ok(s) && Mentions(s.data, n)
    requires i + 1 >= store.db.boundary
    requires n.value.Hash? ==>
               forall j :: 0 <= j <= i && j + 1 >= store.db.boundary ==> n.value.digest !in EdgesOf(store.db, store.db.events[j].eventId)
    ensures !HistoryAccepted(store, legacy, effectLinks)
  {
    hide ReadHistorical, Mentions, KnownReferences, SemanticLinks, EdgesOf;
    ReferencesExactly(s.data, n);
    var known := KnownReferences(s.data);
    var k :| 0 <= k < |known| && known[k] == n;
    assert !AllAdmitted(known, AvailableAt(store.db, legacy, i));
    assert !EventAccepted(store, legacy, effectLinks, i);
  }

  // Theorem: so does a checkpoint event whose descriptor is of another task, goal or workload.
  lemma ForeignIsRefused(store: Store, legacy: set<Digest>, effectLinks: EffectLinks, i: nat, s: TaskEventSnapshot, d: TaskDescriptor)
    requires i < |store.db.events| && ReadHistorical(store.cas, store.db.events[i]) == Ok(s)
    requires s.data.Obj? && Bearing(s) && "descriptorObjectDigest" in s.data.fields
    requires DescriptorObjectIn(store.cas, s.data.fields["descriptorObjectDigest"]) == Ok(d)
    requires d.taskId != s.projection.taskId || d.goalId != s.projection.goalId
             || d.workloadId != "ordivon.host.external-continuity.v1"
    ensures !HistoryAccepted(store, legacy, effectLinks)
  {
    hide ReadHistorical, CheckpointLinks, KnownReferences, Bearing, DescriptorObjectIn, CheckpointObjectIn, AllAdmitted;
    LinksExactly(store.cas, s);
    assert !EventAccepted(store, legacy, effectLinks, i);
  }

  function StreamIds(events: seq<EventRow>): set<string> {
    set i | 0 <= i < |events| :: events[i].streamId
  }

  function ReferencesIn(cas: set<Digest>, e: EventRow): nat {
    match ReadHistorical(cas, e)
    case Err(_) => 0
    case Ok(s) => |KnownReferences(s.data)|
  }

  function LinksIn(cas: set<Digest>, e: EventRow, effectLinks: EffectLinks): nat {
    match ReadHistorical(cas, e)
    case Err(_) => 0
    case Ok(s) =>
      match SemanticLinks(cas, s, effectLinks)
      case Err(_) => 0
      case Ok(n) => n
  }

  function ReferenceTotal(cas: set<Digest>, events: seq<EventRow>): nat {
    if |events| == 0 then 0
    else ReferenceTotal(cas, events[..|events| - 1]) + ReferencesIn(cas, events[|events| - 1])
  }

  function LinkTotal(cas: set<Digest>, events: seq<EventRow>, effectLinks: EffectLinks): nat {
    if |events| == 0 then 0
    else LinkTotal(cas, events[..|events| - 1], effectLinks) + LinksIn(cas, events[|events| - 1], effectLinks)
  }

  // What the checker answers when it accepts a history.
  ghost function Answer(store: Store, effectLinks: EffectLinks): HistoryValidation {
    HistoryValidation(
      |store.db.events|, |StreamIds(store.db.events)|, ReferenceTotal(store.cas, store.db.events),
      LinkTotal(store.cas, store.db.events, effectLinks))
  }

  lemma TotalsStep(cas: set<Digest>, events: seq<EventRow>, i: nat, effectLinks: EffectLinks)
    requires i < |events|
    ensures StreamIds(events[..i + 1]) == StreamIds(events[..i]) + {events[i].streamId}
    ensures ReferenceTotal(cas, events[..i + 1]) == ReferenceTotal(cas, events[..i]) + ReferencesIn(cas, events[i])
    ensures LinkTotal(cas, events[..i + 1], effectLinks) == LinkTotal(cas, events[..i], effectLinks) + LinksIn(cas, events[i], effectLinks)
  {
    hide ReferencesIn, LinksIn;
    var longer := events[..i + 1];
    assert longer[..i] == events[..i] && longer[i] == events[i];
    assert forall j :: 0 <= j < i ==> longer[j] == events[..i][j];
  }

  lemma NothingChecked(db: Db, cas: set<Digest>, effectLinks: EffectLinks)
    ensures AdmittedBy(db, 0) == {} && StreamIds(db.events[..0]) == {}
    ensures ReferenceTotal(cas, db.events[..0]) == 0 == LinkTotal(cas, db.events[..0], effectLinks)
  {
  }

  // Reads only; the checker does not trust the storage it is given.
  method ValidateHistory(storage: Host, legacy: set<Digest>, effectLinks: EffectLinks)
    returns (r: Result<HistoryValidation, HostError>)
    ensures r.Ok? <==> HistoryAccepted(storage.State(), legacy, effectLinks)
    ensures r.Ok? ==> r.value == Answer(storage.State(), effectLinks)
    ensures r.Ok? ==>
              && r.value.events == |storage.State().db.events|
              && r.value.taskStreams == |StreamIds(storage.State().db.events)|
              && r.value.references == ReferenceTotal(storage.State().cas, storage.State().db.events)
              && r.value.links == LinkTotal(storage.State().cas, storage.State().db.events, effectLinks)
  {
    hide KnownReferences, ReadHistorical, SemanticLinks, AdmittedBy, StreamIds, ReferenceTotal, LinkTotal, PayloadEdges;
    hide AllAdmitted, EdgesOf;
    var db, cas := storage.journal.View(), storage.cas;
    ghost var store := storage.State();
    var admitted: set<Digest>, taskStreams: set<string> := {}, {};
    var references, links := 0, 0;
    var i := 0;
    NothingChecked(db, cas, effectLinks);
    while i < |db.events|
      invariant 0 <= i <= |db.events|
      invariant forall j :: 0 <= j < i ==> EventAccepted(store, legacy, effectLinks, j)
      invariant admitted == AdmittedBy(db, i)
      invariant taskStreams == StreamIds(db.events[..i])
      invariant references == ReferenceTotal(cas, db.events[..i])
      invariant links == LinkTotal(cas, db.events[..i], effectLinks)
    {
      var e := db.events[i];
      AdmittedStep(db, i);
      TotalsStep(cas, db.events, i, effectLinks);
      var read := ReadHistorical(cas, e);
      if read.Err? {
        assert !EventAccepted(store, legacy, effectLinks, i);
        return Err(read.error);
      }
      taskStreams := taskStreams + {e.streamId};
      var available := legacy;
      if i + 1 >= db.boundary {
        var edges := EdgesOf(db, e.eventId);
        if PayloadEdges(edges) != {e.payloadDigest} {
          assert !EventAccepted(store, legacy, effectLinks, i);
          return Err(JournalCorruption);
        }
        admitted := admitted + edges.Keys;
        available := admitted;
      }
      assert available == AvailableAt(db, legacy, i);
      var known := KnownReferences(read.value.data);
      references := references + |known|;
      if !AllAdmitted(known, available) {
        assert !EventAccepted(store, legacy, effectLinks, i);
        return Err(JournalCorruption);
      }
      var checked := SemanticLinks(cas, read.value, effectLinks);
      if checked.Err? {
        assert !EventAccepted(store, legacy, effectLinks, i);
        return Err(checked.error);
      }
      links := links + checked.value;
      i := i + 1;
    }
    assert db.events[..i] == db.events;
    return Ok(HistoryValidation(i, |taskStreams|, references, links));
  }
}
