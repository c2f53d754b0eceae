// Task descriptors: the immutable statement of what workload a task is, named by the
// payload of its events.
module Descriptors {
  import opened Base
  import opened Json
  import opened Domain
  import opened Tables
  import opened Storage
  import opened Evolution
  import opened Workers
  import opened Snapshots
  import opened HostStorage

  const DESCRIPTOR_OBJECT_KIND := "task-descriptor"
  const DESCRIPTOR_WIRE_KIND := "ordivon.host-task-descriptor"
  const EXTERNAL_WORKLOAD := "ordivon.host.external-continuity.v1"

  datatype TaskDescriptor = TaskDescriptor(
    taskId: string,
    goalId: string,
    workloadId: string,
    assigneeRef: Option<string>,
    providerPolicyRef: Option<string>,
    domainRef: Option<string>,
    configurationDigests: seq<string>)
  {
    function ToJson(): Value {
      Obj(map[
        "schemaVersion" := Num(1),
        "kind" := Str(DESCRIPTOR_WIRE_KIND),
        "taskId" := Str(taskId),
        "goalId" := Str(goalId),
        "workloadId" := Str(workloadId),
        "assigneeRef" := NullOr(assigneeRef),
        "providerPolicyRef" := NullOr(providerPolicyRef),
        "domainRef" := NullOr(domainRef),
        "configurationDigests" := Strings(configurationDigests)])
    }

    function Digest(): Digest {
      Json.Digest(ToJson())
    }
  }

  function External(t: string, g: string): TaskDescriptor {
    TaskDescriptor(t, g, EXTERNAL_WORKLOAD, None, None, None, [])
  }

  const DESCRIPTOR_FIELDS := {
    "schemaVersion", "kind", "taskId", "goalId", "workloadId", "assigneeRef", "providerPolicyRef", "domainRef",
    "configurationDigests"}

  predicate IsNullOr(v: Value) { v.Null? || v.Str? }

  function OrNull(v: Value): Option<string>
    requires IsNullOr(v)
  {
    if v.Null? then None else Some(v.s)
  }

  function FromJson(v: Value): Option<TaskDescriptor> {
    if !v.Obj? || v.fields.Keys != DESCRIPTOR_FIELDS then None
    else
      var f := v.fields;
      if f["schemaVersion"] != Num(1) || f["kind"] != Str(DESCRIPTOR_WIRE_KIND) then None
      else if !f["taskId"].Str? || !f["goalId"].Str? || !f["workloadId"].Str? then None
      else if !IsNullOr(f["assigneeRef"]) || !IsNullOr(f["providerPolicyRef"]) || !IsNullOr(f["domainRef"]) then None
      else if !IsStrings(f["configurationDigests"]) then None
      else Some(TaskDescriptor(f["taskId"].s, f["goalId"].s, f["workloadId"].s, OrNull(f["assigneeRef"]),
                               OrNull(f["providerPolicyRef"]), OrNull(f["domainRef"]),
                               AsStrings(f["configurationDigests"])))
  }

  lemma DescriptorRoundTrip(d: TaskDescriptor)
    ensures FromJson(d.ToJson()) == Some(d)
  {
    var f := d.ToJson().fields;
    assert f.Keys == DESCRIPTOR_FIELDS;
    StringsRoundTrip(d.configurationDigests);
    assert f["schemaVersion"] == Num(1) && f["kind"] == Str(DESCRIPTOR_WIRE_KIND);
    assert f["taskId"] == Str(d.taskId) && f["goalId"] == Str(d.goalId) && f["workloadId"] == Str(d.workloadId);
    assert f["assigneeRef"] == NullOr(d.assigneeRef) && f["providerPolicyRef"] == NullOr(d.providerPolicyRef);
    assert f["domainRef"] == NullOr(d.domainRef) && f["configurationDigests"] == Strings(d.configurationDigests);
  }

  function Field(data: Value, name: string): Option<Value> {
    if data.Obj? && name in data.fields then Some(data.fields[name]) else None
  }

  // A field that holds a string, if it does.
  function StringField(data: Value, name: string): Option<Value> {
    match Field(data, name)
    case None => None
    case Some(v) => if IsString(v) then Some(v) else None
  }

  // get_with_metadata: the object a JSON string names.
  function Load(cas: set<Digest>, named: Value): Result<Opened, HostError> {
    if !named.Hash? then Err(ValueError)
    else if named.digest !in cas then Err(ObjectMissing)
    else
      match Open(named.digest)
      case None => Err(ObjectCorrupt)
      case Some(o) => Ok(o)
  }

  // The descriptor an event names, before its identity is compared with the projection.
  function DescriptorIn(cas: set<Digest>, s: TaskEventSnapshot): Result<Option<TaskDescriptor>, HostError> {
    if !s.data.Obj? then Err(JournalCorruption)
    else if StringField(s.data, "descriptorDigest").None? || StringField(s.data, "descriptorObjectDigest").None? then Ok(None)
    else
      match Load(cas, StringField(s.data, "descriptorObjectDigest").value)
      case Err(e) => Err(e)
      case Ok(o) =>
        if o.kind != DESCRIPTOR_OBJECT_KIND then Err(JournalCorruption)
        else if !o.payload.Obj? || FromJson(o.payload).None? then Err(ObjectCorrupt)
        else
          var d := FromJson(o.payload).value;
          if StringField(s.data, "descriptorDigest").value != Hash(Json.Digest(d.ToJson())) then Err(JournalCorruption)
          else Ok(Some(d))
  }

  lemma DescriptorStable(before: set<Digest>, after: set<Digest>, s: TaskEventSnapshot)
    requires before <= after && DescriptorIn(before, s).Ok?
    ensures DescriptorIn(after, s) == DescriptorIn(before, s)
  {
  }

  // The head event names the external-continuity descriptor of its own task and goal.
  ghost predicate ExternalHead(store: Store, t: string) {
    && t in store.db.projections
    && SnapshotAt(store.db, t, Revision(store, t)).Some?
    && NamesExternal(store.cas, SnapshotAt(store.db, t, Revision(store, t)).value)
  }

  predicate NamesExternal(cas: set<Digest>, s: TaskEventSnapshot) {
    DescriptorIn(cas, s) == Ok(Some(External(s.projection.taskId, s.projection.goalId)))
  }

  lemma GoalInLog(log: seq<EventRow>, i: int, j: int)
    requires SequentialLog(log) && 0 <= i <= j < |log|
    ensures ProjectionOf(log[i]).goalId == ProjectionOf(log[j]).goalId
  {
    if i < j {
      SequentialOrder(log, i, j);
    }
  }

  // The event names no descriptor, or one of its own task and goal.
  predicate NamesOwn(cas: set<Digest>, s: TaskEventSnapshot) {
    && DescriptorIn(cas, s).Ok?
    && match DescriptorIn(cas, s).value
       case None => true
       case Some(d) => d.taskId == s.projection.taskId && d.goalId == s.projection.goalId
  }

  // All events of a task name one goal.
  lemma GoalOfTask(store: Store, t: string, i: int, j: int)
    requires StoreInv(store) && SnapshotAt(store.db, t, i).Some? && SnapshotAt(store.db, t, j).Some? && i <= j
    ensures SnapshotAt(store.db, t, i).value.projection.goalId == SnapshotAt(store.db, t, j).value.projection.goalId
  {
    hide StoreInv, Snapshot, SequentialLog, ReadPointer;
    SnapshotNeedsEvent(store.db, t, i);
    SnapshotNeedsEvent(store.db, t, j);
    EventsReadBack(store, t, i);
    EventsReadBack(store, t, j);
    LogSequential(store, t, i);
    GoalInLog(Log(store.db.events, t), i - 1, j - 1);
  }

  lemma LogSequential(store: Store, t: string, i: int)
    requires StoreInv(store) && EventAt(store.db, t, i).Some?
    ensures t in store.db.projections && SequentialLog(Log(store.db.events, t))
  {
    EventsUpToHead(store, t, i);
  }

  // read_task_descriptor: head event, its descriptor object, then the projection again.
  method ReadTaskDescriptor(storage: Host, t: string)
    returns (r: Result<Option<TaskDescriptor>, HostError>, ghost seen: Option<TaskEventSnapshot>)
    requires storage.Valid()
    modifies storage`cas, storage`others, storage.journal
    ensures storage.OnlyRead()
    ensures seen.Some? ==>
              && Told(storage.State(), t, seen.value)
              && Revision(old(storage.State()), t) <= seen.value.projection.revision <= Revision(storage.State(), t)
    ensures seen.None? ==> r == Err(JournalCorruption) && t !in old(storage.State()).db.projections
    ensures r.Ok? ==> seen.Some? && DescriptorIn(storage.State().cas, seen.value) == r
    ensures r.Ok? && r.value.Some? ==> r.value.value.taskId == t && r.value.value.goalId == seen.value.projection.goalId
    ensures seen.Some? && NamesOwn(old(storage.State()).cas, seen.value) ==> r.Ok?
    ensures seen.Some? ==>
              exists met :: HeadMet(old(storage.State()), met, storage.State(), t, seen.value)
                            && (NamesExternal(met.cas, seen.value) ==> r.Ok?)
  {
    hide StoreInv, Evolves, SnapshotAt, DescriptorIn, HeadMet;
    ghost var start := storage.State();
    EvolvesReflexive(start);
    var snapshot := storage.ReadTaskEvent(t);
    ghost var middle := storage.State();
    EvolvesParts(start, middle);
    if snapshot.Err? {
      return Err(snapshot.error), None;
    }
    seen := Some(snapshot.value);
    ghost var met :| HeadMet(start, met, middle, t, snapshot.value);
    HeadMetParts(start, met, middle, t, snapshot.value);
    EvolvesReflexive(middle);
    EvolvesReflexive(start);
    EvolvesParts(met, middle);
    var found := DescriptorIn(storage.cas, snapshot.value);
    if NamesExternal(met.cas, snapshot.value) {
      DescriptorStable(met.cas, middle.cas, snapshot.value);
    }
    if NamesOwn(start.cas, snapshot.value) {
      DescriptorStable(start.cas, middle.cas, snapshot.value);
    }
    if found.Err? || found.value.None? {
      return found, seen;
    }
    var current := storage.GetTask(t);
    HeadMetWider(start, start, met, middle, storage.State(), t, snapshot.value);
    EvolvesTransitive(start, middle, storage.State());
    EvolvesParts(middle, storage.State());
    ToldStable(middle, storage.State(), t, snapshot.value);
    RevisionMonotone(middle, storage.State(), t);
    DescriptorStable(middle.cas, storage.State().cas, snapshot.value);
    if current.Some? {
      SeenBefore(storage.State(), t, snapshot.value, current.value);
    } else {
      Present(storage.State(), t, snapshot.value);
    }
    if current.None? || found.value.value.taskId != current.value.taskId || found.value.value.goalId != current.value.goalId {
      return Err(JournalCorruption), seen;
    }
    return found, seen;
  }

  lemma HeadMetParts(start: Store, met: Store, end: Store, t: string, s: TaskEventSnapshot)
    requires HeadMet(start, met, end, t, s)
    ensures StoreInv(met) && Evolves(start, met) && Evolves(met, end)
  {
  }

  lemma SeenBefore(store: Store, t: string, s: TaskEventSnapshot, p: TaskProjection)
    requires StoreInv(store) && Told(store, t, s) && Recalls(store, t, p) && s.projection.revision <= p.revision
    ensures s.projection.goalId == p.goalId
  {
    GoalOfTask(store, t, s.projection.revision, p.revision);
  }

  lemma Present(store: Store, t: string, s: TaskEventSnapshot)
    requires StoreInv(store) && Told(store, t, s)
    ensures t in store.db.projections
  {
    SnapshotNeedsEvent(store.db, t, s.projection.revision);
    EventsUpToHead(store, t, s.projection.revision);
  }

  // When a reader is given a descriptor: both digests are strings, the object is stored under
  // the second, is a descriptor, and is the one of the first.
  lemma DescriptorExactly(cas: set<Digest>, s: TaskEventSnapshot, d: TaskDescriptor)
    ensures DescriptorIn(cas, s) == Ok(Some(d)) <==>
              && s.data.Obj?
              && "descriptorDigest" in s.data.fields && s.data.fields["descriptorDigest"] == Hash(d.Digest())
              && "descriptorObjectDigest" in s.data.fields && s.data.fields["descriptorObjectDigest"].Hash?
              && var object' := s.data.fields["descriptorObjectDigest"].digest;
              && object' in cas && Open(object').Some? && Open(object').value.kind == "task-descriptor"
              && FromJson(Open(object').value.payload) == Some(d)
    ensures DescriptorIn(cas, s) == Ok(None) <==>
              s.data.Obj? && exists f :: f in {"descriptorDigest", "descriptorObjectDigest"}
                                         && (f !in s.data.fields || !(s.data.fields[f].Str? || s.data.fields[f].Hash?))
  {
    hide Open, TaskDescriptor.ToJson;
    assert "descriptorDigest" in {"descriptorDigest", "descriptorObjectDigest"};
    assert "descriptorObjectDigest" in {"descriptorDigest", "descriptorObjectDigest"};
  }

  // Theorem: what a descriptor was read from is exactly what it writes.
  lemma DescriptorIsWritten(v: Value, d: TaskDescriptor)
    ensures FromJson(v) == Some(d) <==> v == d.ToJson()
  {
    DescriptorRoundTrip(d);
    if FromJson(v) == Some(d) {
      StringsExact(v.fields["configurationDigests"]);
      assert v.fields == d.ToJson().fields;
    }
  }
}
