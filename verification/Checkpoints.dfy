// WorkingCheckpoint: what a writer claims about external work, its limits and its JSON form.
module Checkpoints {
  import opened Base
  import opened Json
  import Text

  const MAX_ITEMS := 64
  const MAX_ITEM_BYTES := 4096
  const MAX_RUNTIME_BYTES := 512
  const MAX_LABEL_BYTES := 128
  const MAX_CHECKPOINT_BYTES := 65536
  const CHECKPOINT_WIRE_KIND := "ordivon.host-working-checkpoint"
  const TRUTH_ROLE := "semantic-working-claim"

  predicate IsText(s: string, maxBytes: int) {
    Text.IsLabel(s) && Text.Utf8Length(s) <= maxBytes
  }

  predicate AreItems(items: seq<string>, maxBytes: int) {
    && |items| <= MAX_ITEMS
    && (forall i :: 0 <= i < |items| ==> IsText(items[i], maxBytes))
    && (forall i, j :: 0 <= i < j < |items| ==> items[i] != items[j])
  }

  predicate IsWriterLabel(writer: Option<string>) {
    writer.Some? ==> IsText(writer.value, MAX_LABEL_BYTES)
  }

  datatype CheckpointRuntime = CheckpointRuntime(
    workspaceId: string, relevantJobIds: seq<string>, observedHeadRevision: Option<string>)
  {
    predicate Valid() {
      && IsText(workspaceId, MAX_RUNTIME_BYTES)
      && AreItems(relevantJobIds, MAX_RUNTIME_BYTES)
      && (observedHeadRevision.Some? ==> IsText(observedHeadRevision.value, MAX_RUNTIME_BYTES))
    }

    function ToJson(): Value {
      Obj(map[
        "workspaceId" := Str(workspaceId),
        "relevantJobIds" := Strings(relevantJobIds),
        "observedHeadRevision" := NullOr(observedHeadRevision)])
    }
  }

  datatype WorkingCheckpoint = WorkingCheckpoint(
    taskId: string,
    objective: string,
    frontier: string,
    established: seq<string>,
    unresolved: seq<string>,
    rejected: seq<string>,
    constraints: seq<string>,
    nextActions: seq<string>,
    runtime: Option<CheckpointRuntime>)
  {
    // The rules a checkpoint is constructed under, apart from its whole size.
    predicate FieldsValid() {
      && "task:" <= taskId && Text.Trimmed(taskId)
      && IsText(objective, MAX_ITEM_BYTES)
      && IsText(frontier, MAX_ITEM_BYTES)
      && AreItems(established, MAX_ITEM_BYTES)
      && AreItems(unresolved, MAX_ITEM_BYTES)
      && AreItems(rejected, MAX_ITEM_BYTES)
      && AreItems(constraints, MAX_ITEM_BYTES)
      && AreItems(nextActions, MAX_ITEM_BYTES)
      && (runtime.Some? ==> runtime.value.Valid())
    }

    predicate Valid() {
      FieldsValid() && EncodedLength(ToJson()) <= MAX_CHECKPOINT_BYTES
    }

    function ToJson(): Value {
      Obj(map[
        "schemaVersion" := Num(1),
        "kind" := Str(CHECKPOINT_WIRE_KIND),
        "truthRole" := Str(TRUTH_ROLE),
        "taskId" := Str(taskId),
        "objective" := Str(objective),
        "frontier" := Str(frontier),
        "established" := Strings(established),
        "unresolved" := Strings(unresolved),
        "rejected" := Strings(rejected),
        "constraints" := Strings(constraints),
        "nextActions" := Strings(nextActions),
        "runtime" := RuntimeToJson(runtime)])
    }

    // The semantic digest.
    function Digest(): Digest {
      Json.Digest(ToJson())
    }
  }

  function RuntimeToJson(runtime: Option<CheckpointRuntime>): Value {
    match runtime
    case None => Null
    case Some(r) => r.ToJson()
  }

  // A list of texts; the element limit here is the general one, a runtime's own limit is
  // checked when the runtime is built.
  function ItemsFromJson(v: Value): Option<seq<string>> {
    if IsStrings(v) && AreItems(AsStrings(v), MAX_ITEM_BYTES) then Some(AsStrings(v)) else None
  }

  const RUNTIME_FIELDS := {"workspaceId", "relevantJobIds", "observedHeadRevision"}

  function RuntimeFromJson(v: Value): Option<CheckpointRuntime> {
    if !v.Obj? || v.fields.Keys != RUNTIME_FIELDS then None
    else
      var f := v.fields;
      if !f["workspaceId"].Str? then None
      else if !f["observedHeadRevision"].Null? && !f["observedHeadRevision"].Str? then None
      else
        match ItemsFromJson(f["relevantJobIds"])
        case None => None
        case Some(jobs) =>
          var r := CheckpointRuntime(
            f["workspaceId"].s, jobs,
            if f["observedHeadRevision"].Null? then None else Some(f["observedHeadRevision"].s));
          if r.Valid() then Some(r) else None
  }

  const CHECKPOINT_FIELDS := {
    "schemaVersion", "kind", "truthRole", "taskId", "objective", "frontier", "established",
    "unresolved", "rejected", "constraints", "nextActions", "runtime"}

  function FromJson(v: Value): Option<WorkingCheckpoint> {
    if !v.Obj? || v.fields.Keys != CHECKPOINT_FIELDS then None
    else
      var f := v.fields;
      if f["schemaVersion"] != Num(1) || f["kind"] != Str(CHECKPOINT_WIRE_KIND) || f["truthRole"] != Str(TRUTH_ROLE)
      then None
      else if !f["taskId"].Str? || !f["objective"].Str? || !f["frontier"].Str? then None
      else if !f["runtime"].Null? && RuntimeFromJson(f["runtime"]).None? then None
      else
        var established, unresolved := ItemsFromJson(f["established"]), ItemsFromJson(f["unresolved"]);
        var rejected, constraints := ItemsFromJson(f["rejected"]), ItemsFromJson(f["constraints"]);
        var nextActions := ItemsFromJson(f["nextActions"]);
        if established.None? || unresolved.None? || rejected.None? || constraints.None? || nextActions.None? then None
        else
          var c := WorkingCheckpoint(
            f["taskId"].s, f["objective"].s, f["frontier"].s, established.value, unresolved.value, rejected.value,
            constraints.value, nextActions.value,
            if f["runtime"].Null? then None else RuntimeFromJson(f["runtime"]));
          if c.Valid() then Some(c) else None
  }

  lemma ItemsRoundTrip(items: seq<string>)
    ensures ItemsFromJson(Strings(items)) == if AreItems(items, MAX_ITEM_BYTES) then Some(items) else None
  {
    StringsRoundTrip(items);
  }

  lemma ShorterItems(items: seq<string>)
    requires AreItems(items, MAX_RUNTIME_BYTES)
    ensures AreItems(items, MAX_ITEM_BYTES)
  {
  }

  lemma RuntimeRoundTrip(r: CheckpointRuntime)
    ensures RuntimeFromJson(r.ToJson()) == if r.Valid() then Some(r) else None
  {
    hide IsText;
    var f := r.ToJson().fields;
    assert f.Keys == RUNTIME_FIELDS;
    assert f["workspaceId"] == Str(r.workspaceId) && f["relevantJobIds"] == Strings(r.relevantJobIds);
    assert f["observedHeadRevision"] == NullOr(r.observedHeadRevision);
    ItemsRoundTrip(r.relevantJobIds);
    if r.Valid() {
      ShorterItems(r.relevantJobIds);
    }
  }

  lemma CheckpointJson(c: WorkingCheckpoint)
    ensures var v := c.ToJson();
            && v.Obj? && v.fields.Keys == CHECKPOINT_FIELDS
            && v.fields["schemaVersion"] == Num(1) && v.fields["kind"] == Str(CHECKPOINT_WIRE_KIND)
            && v.fields["truthRole"] == Str(TRUTH_ROLE)
            && v.fields["taskId"] == Str(c.taskId) && v.fields["objective"] == Str(c.objective)
            && v.fields["frontier"] == Str(c.frontier) && v.fields["established"] == Strings(c.established)
            && v.fields["unresolved"] == Strings(c.unresolved) && v.fields["rejected"] == Strings(c.rejected)
            && v.fields["constraints"] == Strings(c.constraints) && v.fields["nextActions"] == Strings(c.nextActions)
            && v.fields["runtime"] == RuntimeToJson(c.runtime)
  {
    assert c.ToJson().fields.Keys == CHECKPOINT_FIELDS;
  }

  // Theorem: a checkpoint reads back as itself exactly when it is within every limit.
  lemma CheckpointRoundTrip(c: WorkingCheckpoint)
    ensures FromJson(c.ToJson()) == if c.Valid() then Some(c) else None
  {
    hide AreItems, IsText, ItemsFromJson, RuntimeFromJson, EncodedLength, Strings;
    CheckpointJson(c);
    ItemsRoundTrip(c.established);
    ItemsRoundTrip(c.unresolved);
    ItemsRoundTrip(c.rejected);
    ItemsRoundTrip(c.constraints);
    ItemsRoundTrip(c.nextActions);
    if c.runtime.Some? {
      RuntimeRoundTrip(c.runtime.value);
    }
  }

  lemma RuntimeExact(v: Value)
    requires RuntimeFromJson(v).Some?
    ensures RuntimeFromJson(v).value.ToJson() == v
  {
    hide AreItems, IsText;
    StringsExact(v.fields["relevantJobIds"]);
    assert RuntimeFromJson(v).value.ToJson().fields == v.fields;
  }

  lemma ItemsExact(v: Value)
    requires ItemsFromJson(v).Some?
    ensures Strings(ItemsFromJson(v).value) == v
  {
    StringsExact(v);
  }

  // Theorem: what a checkpoint was read from is what it writes: reading loses and adds nothing.
  lemma CheckpointExact(v: Value)
    requires FromJson(v).Some?
    ensures FromJson(v).value.ToJson() == v && FromJson(v).value.Valid()
  {
    hide AreItems, IsText, ItemsFromJson, RuntimeFromJson, EncodedLength, Strings, WorkingCheckpoint.Valid;
    var c := FromJson(v).value;
    CheckpointJson(c);
    ItemsExact(v.fields["established"]);
    ItemsExact(v.fields["unresolved"]);
    ItemsExact(v.fields["rejected"]);
    ItemsExact(v.fields["constraints"]);
    ItemsExact(v.fields["nextActions"]);
    if !v.fields["runtime"].Null? {
      RuntimeExact(v.fields["runtime"]);
    }
    assert c.ToJson().fields == v.fields;
  }

  // Two runtimes within their limits that are written alike are one.
  lemma RuntimeWrittenOnce(a: Option<CheckpointRuntime>, b: Option<CheckpointRuntime>)
    requires (a.Some? ==> a.value.Valid()) && (b.Some? ==> b.value.Valid())
    requires RuntimeToJson(a) == RuntimeToJson(b)
    ensures a == b
  {
    if a.Some? {
      RuntimeRoundTrip(a.value);
    }
    if b.Some? {
      RuntimeRoundTrip(b.value);
    }
  }

  // Semantic digests name checkpoints: equal digests, equal checkpoints.
  lemma DigestNamesCheckpoint(c: WorkingCheckpoint, d: WorkingCheckpoint)
    requires c.Valid() && d.Valid() && c.Digest() == d.Digest()
    ensures c == d
  {
    CheckpointRoundTrip(c);
    CheckpointRoundTrip(d);
  }

  // A list of texts: at most 64, none twice, each trimmed and not empty, within its bytes.
  predicate ListWithin(items: seq<string>, maxBytes: int) {
    && |items| <= 64
    && (forall s :: s in items ==> s != "" && Text.Trimmed(s) && Text.Utf8Length(s) <= maxBytes)
    && (forall i, j :: 0 <= i < |items| && 0 <= j < |items| && items[i] == items[j] ==> i == j)
  }

  // The limits of a checkpoint, in numbers.
  lemma LimitsExactly(c: WorkingCheckpoint)
    ensures c.Valid() <==>
              && "task:" <= c.taskId && Text.Trimmed(c.taskId)
              && ListWithin([c.objective], 4096) && ListWithin([c.frontier], 4096)
              && ListWithin(c.established, 4096) && ListWithin(c.unresolved, 4096) && ListWithin(c.rejected, 4096)
              && ListWithin(c.constraints, 4096) && ListWithin(c.nextActions, 4096)
              && (c.runtime.Some? ==>
                    && ListWithin([c.runtime.value.workspaceId], 512) && ListWithin(c.runtime.value.relevantJobIds, 512)
                    && (c.runtime.value.observedHeadRevision.Some? ==> ListWithin([c.runtime.value.observedHeadRevision.value], 512)))
              && EncodedLength(c.ToJson()) <= 65536
  {
    hide Text.Trimmed, Text.Utf8Length, WorkingCheckpoint.ToJson, EncodedLength, ListWithin, AreItems, IsText;
    OneWithin(c.objective, 4096);
    OneWithin(c.frontier, 4096);
    ListsWithin(c.established, 4096);
    ListsWithin(c.unresolved, 4096);
    ListsWithin(c.rejected, 4096);
    ListsWithin(c.constraints, 4096);
    ListsWithin(c.nextActions, 4096);
    if c.runtime.Some? {
      OneWithin(c.runtime.value.workspaceId, 512);
      ListsWithin(c.runtime.value.relevantJobIds, 512);
      if c.runtime.value.observedHeadRevision.Some? {
        OneWithin(c.runtime.value.observedHeadRevision.value, 512);
      }
    }
  }

  lemma OneWithin(s: string, maxBytes: int)
    ensures IsText(s, maxBytes) <==> ListWithin([s], maxBytes)
  {
    assert s in [s];
  }

  lemma ListsWithin(items: seq<string>, maxBytes: int)
    ensures AreItems(items, maxBytes) <==> ListWithin(items, maxBytes)
  {
    hide Text.Trimmed, Text.Utf8Length;
    assert forall i :: 0 <= i < |items| ==> items[i] in items;
  }
}
