// The offline checker accepts whatever the online writers of external continuity leave
// behind: any interleaving of adoptions and checkpoints over any number of tasks.
module HistoryRuns {
  import opened Base
  import opened Json
  import opened Domain
  import opened Tables
  import opened Transactions
  import opened JournalInvariants
  import opened Storage
  import opened Evolution
  import opened Workers
  import opened Snapshots
  import opened HostStorage
  import opened Descriptors
  import opened ContinuityRecords
  import opened Admissions
  import opened Continuity
  import opened Adoption
  import opened History
  import C = Checkpoints
  import Text

  // ---- What a continuity record names ----

  function FieldAll(key: string, v: Value): seq<Named> {
    FieldNames(key, v) + KnownReferences(v)
  }

  ghost predicate SameNames(a: seq<Named>, b: seq<Named>) {
    |a| == |b| && forall n :: n in a <==> n in b
  }

  lemma {:induction false} FieldReferencesWhole(whole: Value, whole': Value, fields: map<string, Value>)
    requires forall k :: k in fields ==> fields[k] < whole && fields[k] < whole'
    ensures FieldReferences(whole, fields) == FieldReferences(whole', fields)
    decreases |fields|
  {
    if fields != map[] {
      var k := Text.Least(fields.Keys);
      FieldReferencesWhole(whole, whole', fields - {k});
    }
  }

  lemma LeastKept(keys: set<string>, k: string)
    requires k in keys && Text.Least(keys) != k
    ensures keys - {k} != {} && Text.Least(keys - {k}) == Text.Least(keys)
  {
    assert Text.Least(keys) in keys - {k};
    Text.LeastUnique(keys);
  }

  // Taking one field out takes away what that field names.
  lemma {:induction false} FieldTaken(whole: Value, fields: map<string, Value>, k: string)
    requires forall j :: j in fields ==> fields[j] < whole
    requires k in fields
    ensures SameNames(FieldReferences(whole, fields), FieldAll(k, fields[k]) + FieldReferences(whole, fields - {k}))
    decreases |fields|
  {
    hide FieldReferences, FieldAll, SameNames, Text.Least;
    var j := Text.Least(fields.Keys);
    var rest := fields - {j};
    FirstField(whole, fields);
    if j == k {
      NamesItself(FieldReferences(whole, fields));
    } else {
      LeastKept(fields.Keys, k);
      var others := fields - {k};
      assert others.Keys == fields.Keys - {k};
      FieldTaken(whole, rest, k);
      FirstField(whole, others);
      assert others - {j} == rest - {k};
      SwapNames(FieldAll(j, fields[j]), FieldAll(k, fields[k]), FieldReferences(whole, rest - {k}), FieldReferences(whole, rest));
    }
  }

  lemma NamesItself(a: seq<Named>)
    ensures SameNames(a, a)
  {
  }

  lemma SwapNames(a: seq<Named>, b: seq<Named>, c: seq<Named>, x: seq<Named>)
    requires SameNames(x, b + c)
    ensures SameNames(a + x, b + (a + c))
  {
    forall n
      ensures n in a + x <==> n in b + (a + c)
    {
      assert n in x <==> n in b + c;
    }
  }

  lemma FirstField(whole: Value, fields: map<string, Value>)
    requires forall j :: j in fields ==> fields[j] < whole
    requires fields != map[]
    ensures var k := Text.Least(fields.Keys);
            FieldReferences(whole, fields) == FieldAll(k, fields[k]) + FieldReferences(whole, fields - {k})
  {
    hide FieldNames, KnownReferences, Text.Least;
    var k := Text.Least(fields.Keys);
    assert FieldNames(k, fields[k]) + KnownReferences(fields[k]) + FieldReferences(whole, fields - {k})
           == (FieldNames(k, fields[k]) + KnownReferences(fields[k])) + FieldReferences(whole, fields - {k});
  }

  // A field that holds a string and whose key names no stored object adds nothing.
  lemma PlainField(key: string, v: Value)
    requires IsString(v) && key !in CAS_DIGEST_KEYS && !EndsWith(key, "ObjectDigest")
    ensures FieldAll(key, v) == []
  {
  }

  lemma ObjectField(key: string, v: Value)
    requires IsString(v) && EndsWith(key, "ObjectDigest")
    ensures FieldAll(key, v) == [Named(key, v)]
  {
  }

  lemma CasKeysDiffer(key: string)
    requires |key| == 11 || (|key| == 16 && key[1] != 'i')
    ensures key !in CAS_DIGEST_KEYS
  {
    assert forall k :: k in CAS_DIGEST_KEYS ==> |k| != 11 && (|k| == 16 ==> k[1] == 'i');
  }

  lemma NoObjectSuffix(key: string)
    requires |key| >= 12 ==> key[|key| - 12] != 'O'
    ensures !EndsWith(key, "ObjectDigest")
  {
  }

  // A plain field leaves the references as they are; an object field adds one.
  lemma TakePlain(whole: Value, fields: map<string, Value>, k: string)
    requires forall j :: j in fields ==> fields[j] < whole
    requires k in fields && IsString(fields[k])
    requires |k| == 11 || (|k| == 16 && k[1] != 'i' && k[4] != 'O')
    ensures SameNames(FieldReferences(whole, fields), FieldReferences(whole, fields - {k}))
  {
    hide FieldReferences, FieldAll;
    CasKeysDiffer(k);
    NoObjectSuffix(k);
    PlainField(k, fields[k]);
    FieldTaken(whole, fields, k);
    assert FieldAll(k, fields[k]) + FieldReferences(whole, fields - {k}) == FieldReferences(whole, fields - {k});
  }

  lemma TakeObject(whole: Value, fields: map<string, Value>, k: string)
    requires forall j :: j in fields ==> fields[j] < whole
    requires k in fields && IsString(fields[k]) && EndsWith(k, "ObjectDigest")
    ensures SameNames(FieldReferences(whole, fields), [Named(k, fields[k])] + FieldReferences(whole, fields - {k}))
  {
    hide FieldReferences, FieldAll;
    ObjectField(k, fields[k]);
    FieldTaken(whole, fields, k);
  }

  lemma FourTaken(whole: Value, fields: map<string, Value>)
    requires forall j :: j in fields ==> fields[j] < whole
    requires fields.Keys == RECORD_FIELDS && forall k :: k in fields ==> IsString(fields[k])
    ensures SameNames(FieldReferences(whole, fields),
                      [Named("descriptorObjectDigest", fields["descriptorObjectDigest"]),
                       Named("checkpointObjectDigest", fields["checkpointObjectDigest"])])
  {
    hide FieldReferences;
    assert EndsWith("descriptorObjectDigest", "ObjectDigest") && EndsWith("checkpointObjectDigest", "ObjectDigest");
    var one := fields - {"descriptorDigest"};
    TakePlain(whole, fields, "descriptorDigest");
    var two := one - {"checkpointDigest"};
    TakePlain(whole, one, "checkpointDigest");
    var three := two - {"descriptorObjectDigest"};
    TakeObject(whole, two, "descriptorObjectDigest");
    var four := three - {"checkpointObjectDigest"};
    TakeObject(whole, three, "checkpointObjectDigest");
    assert four.Keys == {};
    NoFields(whole, four);
  }

  lemma NoFields(whole: Value, fields: map<string, Value>)
    requires fields == map[]
    ensures FieldReferences(whole, fields) == []
  {
  }

  function DescriptorDigest(t: string, g: string): Digest {
    Address(DESCRIPTOR_OBJECT_KIND, External(t, g).ToJson())
  }

  // What continuity data names: the descriptor object and the checkpoint object.
  lemma RecordReferences(digest: Value, object': Value, c: C.WorkingCheckpoint, writer: Option<string>)
    requires IsString(digest) && IsString(object')
    ensures SameNames(KnownReferences(RecordData(digest, object', c, writer)),
                      [Named("descriptorObjectDigest", object'),
                       Named("checkpointObjectDigest", Hash(CheckpointObject(c).digest))])
  {
    hide FieldReferences, C.WorkingCheckpoint.ToJson, CheckpointObject;
    RecordDataFields(digest, object', c, writer);
    var data := RecordData(digest, object', c, writer);
    if writer.Some? {
      TakePlain(data, data.fields, "writerLabel");
      assert (data.fields - {"writerLabel"}).Keys == RECORD_FIELDS;
      FourTaken(data, data.fields - {"writerLabel"});
    } else {
      FourTaken(data, data.fields);
    }
  }

  // ---- What every event of such a run is ----

  ghost predicate Names(s: TaskEventSnapshot, c: C.WorkingCheckpoint, writer: Option<string>) {
    var t, g := s.projection.taskId, s.projection.goalId;
    && (s.kind == CHECKPOINT_EVENT || s.kind == Core(TaskCreated))
    && (s.projection.state == Ready || s.projection.state.Terminal())
    && c.Valid() && c.taskId == t && C.IsWriterLabel(writer)
    && s.data == RecordData(Hash(External(t, g).Digest()), Hash(DescriptorDigest(t, g)), c, writer)
  }

  // Event i carries a checkpoint admitted with it, and a descriptor admitted by then.
  ghost predicate EventNames(db: Db, i: nat, s: TaskEventSnapshot, c: C.WorkingCheckpoint, writer: Option<string>) {
    && i < |db.events|
    && SnapshotOf(db.events[i]) == Some(s)
    && Names(s, c, writer)
    && CheckpointObject(c).digest in EdgesOf(db, db.events[i].eventId)
    && DescriptorDigest(s.projection.taskId, s.projection.goalId) in AdmittedBy(db, i + 1)
  }

  // The event is one whose references the checker will find admitted.
  ghost predicate Attested(db: Db, i: nat) {
    exists s, c, writer :: EventNames(db, i, s, c, writer)
  }

  ghost predicate AllNamed(db: Db) {
    forall i :: 0 <= i < |db.events| ==> Attested(db, i)
  }

  // ---- The checker accepts such an event ----

  lemma TextsValid(kind: EventKind)
    requires kind == CHECKPOINT_EVENT || kind == Core(TaskCreated)
    ensures IsKindText(kind.Text())
  {
    var s := kind.Text();
    hide Namespace, EventKind.Text, Text.Utf8Length;
    CoreTexts(kind);
    WidthBound(s);
    assert s[4] == '.';
    if kind == CHECKPOINT_EVENT {
      CheckpointCharacters();
    } else {
      CreatedCharacters();
    }
  }

  predicate KindCharacters(s: string) {
    forall c :: c in s ==> 'a' <= c <= 'z' || '0' <= c <= '9' || c in "._-"
  }

  lemma CheckpointCharacters()
    ensures KindCharacters("task.context-checkpointed")
  {
    var s := "task.context-checkpointed";
    assert forall i :: 0 <= i < |s| ==> 'a' <= s[i] <= 'z' || s[i] == "._-"[0] || s[i] == "._-"[2];
  }

  lemma CreatedCharacters()
    ensures KindCharacters("task.created")
  {
    var s := "task.created";
    assert forall i :: 0 <= i < |s| ==> 'a' <= s[i] <= 'z' || s[i] == "._-"[0];
  }

  lemma CoreTexts(kind: EventKind)
    requires kind == CHECKPOINT_EVENT || kind == Core(TaskCreated)
    ensures kind.Text() in CORE_TEXTS
    ensures kind.Text() == (if kind == CHECKPOINT_EVENT then "task.context-checkpointed" else "task.created")
  {
  }

  lemma {:induction false} WidthBound(s: string)
    ensures Text.Utf8Length(s) <= 4 * |s|
  {
    if |s| > 0 {
      WidthBound(s[1..]);
    }
  }

  // A healthy row of either kind is read by the checker as it is read by the Host.
  lemma HistoricalRead(store: Store, i: nat, s: TaskEventSnapshot)
    requires StoreInv(store) && i < |store.db.events|
    requires SnapshotOf(store.db.events[i]) == Some(s) && (s.kind == CHECKPOINT_EVENT || s.kind == Core(TaskCreated))
    ensures ReadHistorical(store.cas, store.db.events[i]) == Ok(s)
    ensures PayloadEdges(EdgesOf(store.db, store.db.events[i].eventId)) == {store.db.events[i].payloadDigest}
  {
    hide StoreInv, ProjectionFromJson, IsKindText, EventKind.Text, TaskProjection.WellFormed;
    var e := store.db.events[i];
    RowFacts(store, i);
    TextsValid(e.kind);
  }

  lemma RowFacts(store: Store, i: nat)
    requires StoreInv(store) && i < |store.db.events|
    ensures PayloadMatches(store.db.events[i]) && store.db.events[i].payloadDigest in store.cas
    ensures store.db.events[i].streamKind == TaskStream
    ensures PayloadEdges(EdgesOf(store.db, store.db.events[i].eventId)) == {store.db.events[i].payloadDigest}
  {
    hide PayloadMatches, UniqueEvents, ExtensionInv, BoardInv, NewsInv, LeaseInv, TimingInv;
    var e := store.db.events[i];
    assert EdgesOk(e, store.db.edges);
    LogMembers(store.db.events, e.streamId);
    assert StreamOk(Log(store.db.events, e.streamId), store.db.streams[e.streamId]);
  }

  lemma ReferenceStored(store: Store, i: nat, d: Digest)
    requires StoreInv(store) && i < |store.db.events| && d in AdmittedBy(store.db, i + 1)
    ensures d in store.cas
  {
    var j :| 0 <= j <= i && d in EdgesOf(store.db, store.db.events[j].eventId);
    assert d in store.db.objects;
  }

  lemma DescriptorReads(cas: set<Digest>, t: string, g: string)
    requires DescriptorDigest(t, g) in cas
    ensures DescriptorObjectIn(cas, Hash(DescriptorDigest(t, g))) == Ok(External(t, g))
  {
    hide TaskDescriptor.ToJson, FromJson, Open;
    assert Text.IsLabel(DESCRIPTOR_OBJECT_KIND);
    OpenAddress(DESCRIPTOR_OBJECT_KIND, External(t, g).ToJson());
    DescriptorRoundTrip(External(t, g));
  }

  lemma RecordLinks(cas: set<Digest>, s: TaskEventSnapshot, c: C.WorkingCheckpoint, writer: Option<string>, effectLinks: EffectLinks)
    requires Names(s, c, writer)
    requires CheckpointObject(c).digest in cas && DescriptorDigest(s.projection.taskId, s.projection.goalId) in cas
    ensures SemanticLinks(cas, s, effectLinks) == Ok(2)
  {
    hide RecordData, DescriptorObjectIn, CheckpointObjectIn, DescriptorDigest, C.WorkingCheckpoint.ToJson, CheckpointObject;
    hide C.WorkingCheckpoint.Valid, C.IsWriterLabel, TaskDescriptor.ToJson;
    var t, g := s.projection.taskId, s.projection.goalId;
    RecordDataFields(Hash(External(t, g).Digest()), Hash(DescriptorDigest(t, g)), c, writer);
    CheckpointObjectReads(cas, c);
    DescriptorReads(cas, t, g);
    RecordWriter(s.data, c, writer, Hash(External(t, g).Digest()), Hash(DescriptorDigest(t, g)));
  }

  lemma RecordWriter(data: Value, c: C.WorkingCheckpoint, writer: Option<string>, digest: Value, object': Value)
    requires data == RecordData(digest, object', c, writer) && C.IsWriterLabel(writer)
    ensures WriterIn(data).Ok? && !NamesEffects(data)
  {
    hide RecordData, C.IsWriterLabel, C.WorkingCheckpoint.ToJson;
    RecordDataFields(digest, object', c, writer);
  }

  lemma EventIsAccepted(store: Store, legacy: set<Digest>, effectLinks: EffectLinks, i: nat)
    requires StoreInv(store) && i < |store.db.events| && Attested(store.db, i)
    ensures EventAccepted(store, legacy, effectLinks, i)
    ensures ReferencesIn(store.cas, store.db.events[i]) == 2
    ensures LinksIn(store.cas, store.db.events[i], effectLinks) == 2
  {
    hide StoreInv, ReadHistorical, SemanticLinks, KnownReferences, RecordData, CheckpointObject, DescriptorDigest, EdgesOf;
    hide SnapshotOf, C.WorkingCheckpoint.ToJson, C.WorkingCheckpoint.Valid, TaskDescriptor.ToJson, AdmittedBy, PayloadEdges;
    var s, c, writer :| EventNames(store.db, i, s, c, writer);
    var t, g := s.projection.taskId, s.projection.goalId;
    HistoricalRead(store, i, s);
    AdmittedStep(store.db, i);
    BornCurrent(store);
    ReferenceStored(store, i, DescriptorDigest(t, g));
    ReferenceStored(store, i, CheckpointObject(c).digest);
    RecordLinks(store.cas, s, c, writer, effectLinks);
    RecordReferences(Hash(External(t, g).Digest()), Hash(DescriptorDigest(t, g)), c, writer);
    TwoAdmitted(KnownReferences(s.data), "descriptorObjectDigest", DescriptorDigest(t, g),
                "checkpointObjectDigest", CheckpointObject(c).digest, AvailableAt(store.db, legacy, i));
  }

  lemma TwoAdmitted(references: seq<Named>, one: string, a: Digest, two: string, b: Digest, available: set<Digest>)
    requires SameNames(references, [Named(one, Hash(a)), Named(two, Hash(b))])
    requires a in available && b in available
    ensures AllAdmitted(references, available) && |references| == 2
  {
    forall i | 0 <= i < |references|
      ensures references[i].value.Hash? && references[i].value.digest in available
    {
      assert references[i] in references;
    }
  }

  lemma BornCurrent(store: Store)
    requires StoreInv(store)
    ensures store.db.boundary == 1
  {
  }

  lemma {:induction false} TotalsOfTwo(cas: set<Digest>, events: seq<EventRow>, effectLinks: EffectLinks)
    requires forall i :: 0 <= i < |events| ==> ReferencesIn(cas, events[i]) == 2 == LinksIn(cas, events[i], effectLinks)
    ensures ReferenceTotal(cas, events) == 2 * |events| == LinkTotal(cas, events, effectLinks)
  {
    hide ReferencesIn, LinksIn;
    if |events| > 0 {
      TotalsOfTwo(cas, events[..|events| - 1], effectLinks);
    }
  }

  // The streams the checker counts are the rows of the stream table.
  lemma StreamsCounted(store: Store)
    requires StoreInv(store)
    ensures StreamIds(store.db.events) == store.db.streams.Keys
  {
    forall t | t in store.db.streams
      ensures t in StreamIds(store.db.events)
    {
      assert StreamOk(Log(store.db.events, t), store.db.streams[t]);
      LogMembers(store.db.events, t);
      assert Log(store.db.events, t)[0] in store.db.events;
    }
  }

  // ---- Every continuity writer keeps it so ----

  // The append is an adopter's creation, or a checkpoint that hands the descriptor on.
  ghost predicate ContinuityAppend(met: Store, r: Record) {
    || (exists a :: WellAsked(a) && Creates(a, r))
    || (exists q :: CheckpointCommit(q, met, r))
  }

  ghost predicate ContinuityAct(met: Store, act: Action) {
    act.Append? ==> ContinuityAppend(met, act.record)
  }

  // What the two protocols' own contracts say of their actions is enough.
  lemma AdoptersAct(a: AdoptRequest, act: Act)
    requires AdoptAct(a, act)
    ensures ContinuityAct(act.store, act.action)
  {
    hide Creates, CheckpointCommit, SeedAgrees, WellAsked;
  }

  lemma CheckpointsAct(start: Store, mine: seq<Act>, n: nat, q: CheckpointRequest, k: nat)
    requires OnlyCheckpointActs(start, mine, n, q) && n <= k < |mine|
    ensures ContinuityAct(mine[k].store, mine[k].action)
  {
    hide CheckpointCommit, Evolves;
  }

  lemma AdmittedPrefix(before: Db, after: Db, n: nat)
    requires n <= |before.events| && before.events <= after.events && before.boundary == after.boundary
    requires forall i :: 0 <= i < n ==> EdgesOf(before, before.events[i].eventId) == EdgesOf(after, before.events[i].eventId)
    ensures AdmittedBy(after, n) == AdmittedBy(before, n)
  {
    hide EdgesOf;
  }

  lemma AdmittedGrows(db: Db, m: nat, n: nat)
    requires m <= n <= |db.events|
    ensures AdmittedBy(db, m) <= AdmittedBy(db, n)
  {
    hide EdgesOf;
  }

  lemma NamedKept(before: Db, after: Db, i: nat)
    requires i < |before.events| && before.events <= after.events && before.boundary == after.boundary
    requires forall j :: 0 <= j <= i ==> EdgesOf(before, before.events[j].eventId) == EdgesOf(after, before.events[j].eventId)
    requires Attested(before, i)
    ensures Attested(after, i)
  {
    hide EdgesOf, AdmittedBy, Names, SnapshotOf, CheckpointObject, DescriptorDigest;
    AdmittedPrefix(before, after, i + 1);
    var s, c, writer :| EventNames(before, i, s, c, writer);
    assert EventNames(after, i, s, c, writer);
  }

  lemma EdgesStay(before: Store, after: Store, i: nat)
    requires StoreInv(before) && EdgesKept(before.db.edges, after.db.edges) && i < |before.db.events|
    ensures EdgesOf(before.db, before.db.events[i].eventId) == EdgesOf(after.db, before.db.events[i].eventId)
  {
    assert EdgesOk(before.db.events[i], before.db.edges);
  }

  lemma OldNamed(before: Store, after: Store)
    requires StoreInv(before) && StoreInv(after) && AllNamed(before.db)
    requires EdgesKept(before.db.edges, after.db.edges) && before.db.events <= after.db.events
    ensures forall i :: 0 <= i < |before.db.events| ==> Attested(after.db, i)
  {
    hide StoreInv, Attested, EdgesKept, EdgesOf;
    BornCurrent(before);
    BornCurrent(after);
    forall i | 0 <= i < |before.db.events|
      ensures Attested(after.db, i)
    {
      forall j | 0 <= j <= i
        ensures EdgesOf(before.db, before.db.events[j].eventId) == EdgesOf(after.db, before.db.events[j].eventId)
      {
        EdgesStay(before, after, j);
      }
      NamedKept(before.db, after.db, i);
    }
  }

  // The new event of a created append: its edges name every referenced object.
  lemma NewEvent(store: Store, r: Record, o: StoredObject)
    requires StoreInv(store) && AppendTaskEvent(store.db, RecordRequest(r)).result == Ok(Created) && o in r.referenced
    ensures var after := Perform(store, Append(r)).db;
            && after.events == store.db.events + [AdmittedRow(RecordRequest(r))]
            && SnapshotOf(AdmittedRow(RecordRequest(r))) == Some(SnapshotOfRecord(r))
            && o.digest in EdgesOf(after, r.eventId)
  {
    hide StoreInv, AppendTaskEvent, Snapshot, AdmissionRefusal, AdmittedAll, PayloadJson;
    var a := RecordRequest(r);
    CreatedMeansAppended(store.db, a);
    RecordSnapshot(AdmittedRow(a), r);
    assert o.digest in Digests(r.referenced) by {
      var i :| 0 <= i < |r.referenced| && r.referenced[i] == o;
    }
    assert a.referencedObjects == r.referenced;
  }

  lemma CreationNamed(store: Store, r: Record, a: AdoptRequest)
    requires StoreInv(store) && AppendTaskEvent(store.db, RecordRequest(r)).result == Ok(Created)
    requires WellAsked(a) && Creates(a, r)
    ensures Attested(Perform(store, Append(r)).db, |store.db.events|)
  {
    hide StoreInv, AppendTaskEvent, RecordData, SnapshotOf, C.WorkingCheckpoint.ToJson, TaskDescriptor.ToJson, Perform;
    hide AdmittedBy, EdgesOf, CheckpointObject, C.WorkingCheckpoint.Valid, C.IsWriterLabel, External, PayloadJson, Described;
    var after := Perform(store, Append(r)).db;
    NewEvent(store, r, CheckpointObject(a.checkpoint));
    NewEvent(store, r, DescriptorObject(a));
    AdmittedStep(after, |store.db.events|);
    StartOfEdges(store, r);
    DescribedDigest(DESCRIPTOR_OBJECT_KIND, External(a.taskId, a.goalId).ToJson());
    assert EventNames(after, |store.db.events|, SnapshotOfRecord(r), a.checkpoint, a.writer);
  }

  lemma StartOfEdges(store: Store, r: Record)
    requires StoreInv(store) && AppendTaskEvent(store.db, RecordRequest(r)).result == Ok(Created)
    ensures Perform(store, Append(r)).db.boundary == 1
  {
    hide AppendTaskEvent;
    CreatedMeansAppended(store.db, RecordRequest(r));
  }

  // Where an event a reader was told of stands in the table.
  lemma ToldAt(store: Store, t: string, s: TaskEventSnapshot) returns (i: nat)
    requires StoreInv(store) && Told(store, t, s)
    ensures i < |store.db.events| && SnapshotOf(store.db.events[i]) == Some(s)
  {
    hide StoreInv, SnapshotOf;
    SnapshotNeedsEvent(store.db, t, s.projection.revision);
    LogMembers(store.db.events, t);
    var e := EventAt(store.db, t, s.projection.revision).value;
    assert e in store.db.events;
    i :| 0 <= i < |store.db.events| && store.db.events[i] == e;
  }

  // The digests a told event carries, and that its descriptor has been admitted.
  lemma ToldNames(store: Store, t: string, s: TaskEventSnapshot)
    requires StoreInv(store) && Told(store, t, s) && AllNamed(store.db)
    ensures var g := s.projection.goalId;
            && Field(s.data, "descriptorDigest") == Some(Hash(External(t, g).Digest()))
            && Field(s.data, "descriptorObjectDigest") == Some(Hash(DescriptorDigest(t, g)))
            && DescriptorDigest(t, g) in AdmittedBy(store.db, |store.db.events|)
  {
    hide StoreInv, RecordData, SnapshotOf, DescriptorDigest, External, AdmittedBy, C.WorkingCheckpoint.ToJson, EdgesOf;
    hide C.WorkingCheckpoint.Valid, C.IsWriterLabel, CheckpointObject, TaskDescriptor.ToJson;
    var i := ToldAt(store, t, s);
    assert Attested(store.db, i);
    var s', c, writer :| EventNames(store.db, i, s', c, writer);
    RecordDataFields(Hash(External(t, s.projection.goalId).Digest()), Hash(DescriptorDigest(t, s.projection.goalId)), c, writer);
    AdmittedGrows(store.db, i + 1, |store.db.events|);
  }

  // A checkpoint's successor keeps the goal of every event before it.
  lemma GoalHandedOn(store: Store, r: Record, s: TaskEventSnapshot)
    requires StoreInv(store) && Disciplined(store, Append(r))
    requires AppendTaskEvent(store.db, RecordRequest(r)).result == Ok(Created)
    requires Told(store, r.projection.taskId, s)
    ensures r.projection.goalId == s.projection.goalId
  {
    hide StoreInv, AppendTaskEvent, Available, Snapshot, SequentialLog;
    var t := r.projection.taskId;
    CreatedAt(store, r);
    Present(store, t, s);
    SnapshotNeedsEvent(store.db, t, s.projection.revision);
    EventsUpToHead(store, t, s.projection.revision);
    StoreParts(store);
    CurrentEvent(store.db, t);
    HeadSnapshot(store, t);
    GoalOfTask(store, t, s.projection.revision, Revision(store, t));
  }

  lemma CheckpointNamed(store: Store, r: Record, q: CheckpointRequest)
    requires StoreInv(store) && Disciplined(store, Append(r)) && AllNamed(store.db)
    requires AppendTaskEvent(store.db, RecordRequest(r)).result == Ok(Created)
    requires CheckpointCommit(q, store, r)
    ensures Attested(Perform(store, Append(r)).db, |store.db.events|)
  {
    hide StoreInv, AppendTaskEvent, Disciplined, RecordData, SnapshotOf, C.WorkingCheckpoint.ToJson, Perform, AllNamed;
    hide AdmittedBy, EdgesOf, CheckpointObject, C.WorkingCheckpoint.Valid, C.IsWriterLabel, External, DescriptorDigest, Told;
    hide TaskDescriptor.ToJson, Attested;
    var t := r.projection.taskId;
    var one, two :| && Told(store, t, one) && Told(store, t, two)
                    && StringField(one.data, "descriptorDigest").Some?
                    && Field(r.data, "descriptorDigest") == StringField(one.data, "descriptorDigest")
                    && StringField(two.data, "descriptorObjectDigest").Some?
                    && Field(r.data, "descriptorObjectDigest") == StringField(two.data, "descriptorObjectDigest");
    ToldNames(store, t, one);
    ToldNames(store, t, two);
    GoalHandedOn(store, r, one);
    GoalHandedOn(store, r, two);
    var digest, object' :| r.data == RecordData(digest, object', q.checkpoint, q.writer);
    RecordDataFields(digest, object', q.checkpoint, q.writer);
    CheckpointRecorded(store, r, q);
  }

  lemma CheckpointRecorded(store: Store, r: Record, q: CheckpointRequest)
    requires StoreInv(store) && AppendTaskEvent(store.db, RecordRequest(r)).result == Ok(Created)
    requires RequestValid(q) && CheckpointAct(q, r)
    requires var t, g := r.projection.taskId, r.projection.goalId;
             && r.data == RecordData(Hash(External(t, g).Digest()), Hash(DescriptorDigest(t, g)), q.checkpoint, q.writer)
             && DescriptorDigest(t, g) in AdmittedBy(store.db, |store.db.events|)
    ensures Attested(Perform(store, Append(r)).db, |store.db.events|)
  {
    hide StoreInv, AppendTaskEvent, RecordData, SnapshotOf, C.WorkingCheckpoint.ToJson, Perform, TaskDescriptor.ToJson;
    hide AdmittedBy, EdgesOf, CheckpointObject, C.WorkingCheckpoint.Valid, C.IsWriterLabel, External, DescriptorDigest;
    var after := Perform(store, Append(r)).db;
    NewEvent(store, r, CheckpointObject(q.checkpoint));
    AppendedRowsOf(store, r);
    AdmittedPrefix(store.db, after, |store.db.events|);
    AdmittedGrows(after, |store.db.events|, |store.db.events| + 1);
    assert EventNames(after, |store.db.events|, SnapshotOfRecord(r), q.checkpoint, q.writer);
  }

  lemma AppendedRowsOf(store: Store, r: Record)
    requires StoreInv(store) && AppendTaskEvent(store.db, RecordRequest(r)).result == Ok(Created)
    ensures var after := Perform(store, Append(r)).db;
            && after.boundary == store.db.boundary && EdgesKept(store.db.edges, after.edges)
            && store.db.events <= after.events
    ensures forall i :: 0 <= i < |store.db.events| ==>
              EdgesOf(store.db, store.db.events[i].eventId) == EdgesOf(Perform(store, Append(r)).db, store.db.events[i].eventId)
  {
    hide StoreInv, AppendTaskEvent, EdgesOf;
    CreatedMeansAppended(store.db, RecordRequest(r));
    StoreJournal(store);
    AppendedRows(store.db, RecordRequest(r), Perform(store, Append(r)).db);
    forall i | 0 <= i < |store.db.events|
      ensures EdgesOf(store.db, store.db.events[i].eventId) == EdgesOf(Perform(store, Append(r)).db, store.db.events[i].eventId)
    {
      EdgesStay(store, Perform(store, Append(r)), i);
    }
  }

  // Only a created append writes an event, and it writes one.
  lemma EventsAfter(store: Store, act: Action)
    requires StoreInv(store) && Disciplined(store, act)
    ensures store.db.events <= Perform(store, act).db.events
    ensures |Perform(store, act).db.events| ==
            |store.db.events|
            + (if act.Append? && AppendTaskEvent(store.db, RecordRequest(act.record)).result == Ok(Created) then 1 else 0)
    ensures EdgesKept(store.db.edges, Perform(store, act).db.edges)
  {
    hide StoreInv, AppendTaskEvent, AcquireLease, ReleaseLease, AppendBoardMessage, AppendNewsPublication, Disciplined;
    StepEvolves(store, act);
    match act
    case Append(r) =>
      if AppendTaskEvent(store.db, RecordRequest(r)).result == Ok(Created) {
        CreatedMeansAppended(store.db, RecordRequest(r));
      } else {
        NotCreatedMeansKept(store.db, RecordRequest(r));
      }
    case Put(_, _) =>
    case Acquire(u, o, now, ttl) => AcquireEffect(store.db, u, o, now, ttl);
    case Release(l) => ReleaseRows(store.db, l);
    case Post(m) => PostEffect(store.db, m);
    case Publish(n) => PublishEffect(store.db, n);
  }

  lemma ReleaseRows(db: Db, lease: LeaseRecord)
    ensures ReleaseLease(db, lease).db.events == db.events
  {
  }

  lemma NamedStep(store: Store, act: Action)
    requires StoreInv(store) && AllNamed(store.db) && ContinuityAct(store, act)
    ensures AllNamed(Step(store, act).db)
  {
    hide StoreInv, Attested, Disciplined, AppendTaskEvent, Perform, WellAsked, Creates, CheckpointCommit, EdgesKept;
    if Disciplined(store, act) {
      StepKeeps(store, act);
      EventsAfter(store, act);
      OldNamed(store, Perform(store, act));
      if act.Append? && AppendTaskEvent(store.db, RecordRequest(act.record)).result == Ok(Created) {
        var r := act.record;
        if a :| WellAsked(a) && Creates(a, r) {
          CreationNamed(store, r, a);
        } else {
          var q :| CheckpointCommit(q, store, r);
          CheckpointNamed(store, r, q);
        }
      }
    }
  }

  // Adoptions and checkpoints of any tasks, by any writers, in any order; objects, leases,
  // board messages and news may come between.
  ghost predicate ContinuityRun(store: Store, acts: seq<Action>) {
    forall i :: 0 <= i < |acts| ==> ContinuityAct(Run(store, acts[..i]), acts[i])
  }

  lemma {:induction false} RunNamed(store: Store, acts: seq<Action>)
    requires StoreInv(store) && AllNamed(store.db) && ContinuityRun(store, acts)
    ensures AllNamed(Run(store, acts).db)
  {
    hide StoreInv, AllNamed, ContinuityAct;
    if |acts| > 0 {
      var init := acts[..|acts| - 1];
      forall i | 0 <= i < |init|
        ensures ContinuityAct(Run(store, init[..i]), init[i])
      {
        assert init[..i] == acts[..i];
        assert ContinuityAct(Run(store, acts[..i]), acts[i]);
      }
      RunNamed(store, init);
      RunKeeps(store, init);
      NamedStep(Run(store, init), acts[|acts| - 1]);
    }
  }

  // Theorem: the checker accepts the history that any such run leaves in a fresh Host, and
  // its counts are exact: every event, every stream, and two references and two links for
  // each event.
  lemma OfflineAcceptsOnline(acts: seq<Action>, legacy: set<Digest>, effectLinks: EffectLinks)
    requires ContinuityRun(FRESH, acts)
    ensures var store := Run(FRESH, acts);
            var n := |store.db.events|;
            && HistoryAccepted(store, legacy, effectLinks)
            && Answer(store, effectLinks) == HistoryValidation(n, |store.db.streams|, 2 * n, 2 * n)
  {
    hide StoreInv, Attested, EventAccepted, ReferencesIn, LinksIn, ContinuityRun, ReferenceTotal, LinkTotal, StreamIds;
    var store := Run(FRESH, acts);
    FreshStoreInv();
    RunKeeps(FRESH, acts);
    RunNamed(FRESH, acts);
    forall i | 0 <= i < |store.db.events|
      ensures EventAccepted(store, legacy, effectLinks, i)
      ensures ReferencesIn(store.cas, store.db.events[i]) == 2 == LinksIn(store.cas, store.db.events[i], effectLinks)
    {
      EventIsAccepted(store, legacy, effectLinks, i);
    }
    TotalsOfTwo(store.cas, store.db.events, effectLinks);
    StreamsCounted(store);
  }
}
