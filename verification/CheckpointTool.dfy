// The `task.checkpoint` tool: a full checkpoint, or a patch over the checkpoint recorded at
// the expected revision.
module CheckpointTool {
  import opened Base
  import opened Json
  import opened Domain
  import opened Storage
  import opened Evolution
  import opened Workers
  import opened Snapshots
  import opened HostStorage
  import opened Descriptors
  import opened ContinuityRecords
  import opened Continuity
  import C = Checkpoints
  import Text

  const FULL_MARKERS := {"schemaVersion", "kind", "truthRole", "taskId"}
  const PATCH_FIELDS := {
    "objective", "frontier", "established", "unresolved", "rejected", "constraints", "nextActions", "runtime"}

  // The arguments of one call; both clock readings belong to the kernel.
  datatype Arguments = Arguments(
    taskId: string,
    expectedRevision: int,
    value: map<string, Value>,
    disposition: Disposition,
    writer: Option<string>,
    acquireMs: int,
    commitMs: int)

  predicate IsFull(value: map<string, Value>) {
    FULL_MARKERS * value.Keys != {}
  }

  // What a patch makes of a base checkpoint.
  function Patched(base: C.WorkingCheckpoint, patch: map<string, Value>): Option<C.WorkingCheckpoint> {
    if patch.Keys <= PATCH_FIELDS then C.FromJson(Obj(base.ToJson().fields + patch)) else None
  }

  // The checkpoint the caller asks for: it depends on the call and, for a patch, on the
  // record at the expected revision, never on anything later.
  function Wanted(store: Store, a: Arguments): Option<C.WorkingCheckpoint> {
    if IsFull(a.value) then C.FromJson(Obj(a.value))
    else
      match CheckpointAt(store, a.taskId, a.expectedRevision)
      case Ok(Some(base)) => Patched(base.checkpoint, a.value)
      case _ => None
  }

  function Request(a: Arguments, c: C.WorkingCheckpoint): CheckpointRequest {
    CheckpointRequest(a.taskId, a.expectedRevision, c, a.disposition, a.writer, a.acquireMs, a.commitMs)
  }

  // Theorem: the base of a patch is immutable, so a repeated call always asks for the same
  // checkpoint.
  lemma WantedStable(before: Store, after: Store, a: Arguments)
    requires Evolves(before, after) && Wanted(before, a).Some?
    ensures Wanted(after, a) == Wanted(before, a)
  {
    hide Evolves, CheckpointIn, SnapshotAt, C.FromJson, C.WorkingCheckpoint.ToJson;
    if !IsFull(a.value) {
      CheckpointNeedsSnapshot(before, a.taskId, a.expectedRevision);
      CheckpointStable(before, after, a.taskId, a.expectedRevision);
    }
  }

  lemma FromJsonValid(v: Value)
    requires C.FromJson(v).Some?
    ensures C.FromJson(v).value.Valid()
  {
  }

  lemma WantedValid(store: Store, a: Arguments)
    requires Wanted(store, a).Some?
    ensures Wanted(store, a).value.Valid()
  {
    hide C.FromJson, C.WorkingCheckpoint.Valid, CheckpointIn;
    if IsFull(a.value) {
      FromJsonValid(Obj(a.value));
    } else {
      var base := CheckpointAt(store, a.taskId, a.expectedRevision).value.value.checkpoint;
      FromJsonValid(Obj(base.ToJson().fields + a.value));
    }
  }

  // Theorem: a patched checkpoint is the base with exactly the named fields replaced: every
  // field the patch names is written with the patch's value, every other as in the base.
  lemma PatchKeepsTheRest(base: C.WorkingCheckpoint, patch: map<string, Value>)
    requires Patched(base, patch).Some?
    ensures var c := Patched(base, patch).value;
            && c.Valid()
            && c.taskId == base.taskId
            && (forall f :: f in patch ==> f in c.ToJson().fields && c.ToJson().fields[f] == patch[f])
            && ("objective" !in patch ==> c.objective == base.objective)
            && ("frontier" !in patch ==> c.frontier == base.frontier)
            && ("established" !in patch ==> c.established == base.established)
            && ("unresolved" !in patch ==> c.unresolved == base.unresolved)
            && ("rejected" !in patch ==> c.rejected == base.rejected)
            && ("constraints" !in patch ==> c.constraints == base.constraints)
            && ("nextActions" !in patch ==> c.nextActions == base.nextActions)
            && (base.Valid() && "runtime" !in patch ==> c.runtime == base.runtime)
  {
    hide C.FromJson, C.WorkingCheckpoint.ToJson, C.WorkingCheckpoint.Valid, Strings, C.RuntimeToJson;
    var c := Patched(base, patch).value;
    C.CheckpointJson(base);
    C.CheckpointExact(Obj(base.ToJson().fields + patch));
    C.CheckpointJson(c);
    SameItems(c.established, base.established);
    SameItems(c.unresolved, base.unresolved);
    SameItems(c.rejected, base.rejected);
    SameItems(c.constraints, base.constraints);
    SameItems(c.nextActions, base.nextActions);
    assert "taskId" !in patch;
    if base.Valid() && "runtime" !in patch {
      ValidRuntime(c);
      ValidRuntime(base);
      C.RuntimeWrittenOnce(c.runtime, base.runtime);
    }
  }

  lemma SameItems(a: seq<string>, b: seq<string>)
    ensures Strings(a) == Strings(b) ==> a == b
  {
    StringsRoundTrip(a);
    StringsRoundTrip(b);
  }

  lemma ValidRuntime(c: C.WorkingCheckpoint)
    requires c.Valid()
    ensures c.runtime.Some? ==> c.runtime.value.Valid()
  {
    hide C.WorkingCheckpoint.ToJson, EncodedLength, C.AreItems, C.IsText;
  }

  // Reading the base: the task must be external, then the record at the revision.
  method ReadBase(host: ExternalContinuity, t: string, revision: int)
    returns (r: Result<Option<CheckpointRecord>, HostError>)
    requires host.Valid() && revision >= 1
    modifies host.storage`cas, host.storage`others, host.storage.journal
    ensures host.storage.OnlyRead()
    ensures r.Ok? ==> r == CheckpointAt(host.storage.State(), t, revision)
    ensures r.Ok? ==> exists s :: Told(host.storage.State(), t, s) && NamesExternal(host.storage.State().cas, s)
    ensures old(host.storage.others) == [] && ExternalHead(old(host.storage.State()), t) ==>
              r == CheckpointAt(host.storage.State(), t, revision)
  {
    hide StoreInv, Evolves, ExternalHead, CheckpointAt;
    ghost var start := host.storage.State();
    var required, seen := host.RequireExternalTask(t, None);
    ghost var middle := host.storage.State();
    if required.Err? {
      return Err(required.error);
    }
    r := host.ReadCheckpoint(t, revision);
    EvolvesTransitive(start, middle, host.storage.State());
    ToldStable(middle, host.storage.State(), t, seen.value);
    EvolvesParts(middle, host.storage.State());
    DescriptorStable(middle.cas, host.storage.State().cas, seen.value);
  }

  // The candidate: the base with the patch laid over it, or the full value.
  method ReadCandidate(host: ExternalContinuity, a: Arguments) returns (r: Result<C.WorkingCheckpoint, HostError>)
    requires host.Valid() && a.expectedRevision >= 1
    modifies host.storage`cas, host.storage`others, host.storage.journal
    ensures host.storage.OnlyRead()
    ensures r.Ok? ==> Wanted(host.storage.State(), a) == Some(r.value) && r.value.taskId == a.taskId
    ensures old(host.storage.others) == [] && ExternalHead(old(host.storage.State()), a.taskId)
            && Wanted(old(host.storage.State()), a).Some?
            && Wanted(old(host.storage.State()), a).value.taskId == a.taskId
            ==> r.Ok?
  {
    hide StoreInv, Evolves, ExternalHead, CheckpointAt, C.FromJson;
    EvolvesReflexive(host.storage.State());
    var candidate := a.value;
    if !IsFull(a.value) {
      if !(a.value.Keys <= PATCH_FIELDS) {
        return Err(ToolArgumentError);
      }
      var base := ReadBase(host, a.taskId, a.expectedRevision);
      if base.Err? {
        return Err(base.error);
      }
      if base.value.None? {
        return Err(ToolArgumentError);
      }
      candidate := base.value.value.checkpoint.ToJson().fields;
      candidate := candidate + a.value;
    }
    var checkpoint := C.FromJson(Obj(candidate));
    if checkpoint.None? || checkpoint.value.taskId != a.taskId {
      return Err(ToolArgumentError);
    }
    return Ok(checkpoint.value);
  }

  // _checkpoint_task
  method CheckpointTask(host: ExternalContinuity, a: Arguments) returns (r: Result<CheckpointReceipt, HostError>)
    requires host.Valid()
    modifies host.storage`cas, host.storage`others, host.storage`mine, host.storage.journal
    ensures host.storage.Advanced() && old(host.storage.mine) <= host.storage.mine
    ensures r.Ok? ==>
              && ArgumentsValid(a)
              && Wanted(host.storage.State(), a).Some? && Wanted(host.storage.State(), a).value.taskId == a.taskId
              && ReceiptTells(host.storage.State(), Request(a, Wanted(host.storage.State(), a).value), r.value)
    ensures r.Ok? && r.value.admission == Created && Revision(host.storage.State(), a.taskId) == a.expectedRevision + 1
            ==> ExternalHead(host.storage.State(), a.taskId)
    // Undisturbed repetition of a call that has committed.
    ensures old(host.storage.others) == [] && ArgumentsValid(a) && ExternalHead(old(host.storage.State()), a.taskId)
            && Wanted(old(host.storage.State()), a).Some?
            && Wanted(old(host.storage.State()), a).value.taskId == a.taskId
            && AtNextRevision(old(host.storage.State()), Request(a, Wanted(old(host.storage.State()), a).value))
            && Committed(old(host.storage.State()), Request(a, Wanted(old(host.storage.State()), a).value))
            ==> && r.Ok? && r.value.admission == Existing
                && host.storage.State() == old(host.storage.State()) && host.storage.mine == old(host.storage.mine)
    // Undisturbed first call.
    ensures old(host.storage.others) == [] && ArgumentsValid(a) && (a.disposition == Continue || IsFull(a.value))
            && Wanted(old(host.storage.State()), a).Some?
            && Admissible(old(host.storage.State()), Request(a, Wanted(old(host.storage.State()), a).value),
                          host.kernel.ownerId, host.kernel.leaseTtlMs)
            ==> r.Ok? && r.value.admission == Created
    // A patch can repeat a terminal transition, never make one.
    ensures old(host.storage.others) == [] && ArgumentsValid(a) && a.disposition != Continue && !IsFull(a.value)
            && Revision(old(host.storage.State()), a.taskId) == a.expectedRevision
            ==> r == Err(ToolArgumentError) && host.storage.State() == old(host.storage.State())
  {
    hide StoreInv, Evolves, ExternalHead, CheckpointAt, Wanted, ReceiptTells, CheckpointCommit, CreatedOn, Committed, Admissible;
    hide C.WorkingCheckpoint.Valid, C.WorkingCheckpoint.ToJson, C.FromJson, IsFull, NamesExternal, SnapshotAt, Text.Trimmed;
    hide C.IsWriterLabel, Revision;
    ghost var start := host.storage.State();
    EvolvesReflexive(start);
    if !ArgumentsValid(a) {
      return Err(ToolArgumentError);
    }
    var refused := PatchRefused(host, a);
    if refused {
      return Err(ToolArgumentError);
    }
    ghost var checked := host.storage.State();
    if Wanted(start, a).Some? && Admissible(start, Request(a, Wanted(start, a).value), host.kernel.ownerId, host.kernel.leaseTtlMs) {
      AdmissibleStarts(start, Request(a, Wanted(start, a).value), host.kernel.ownerId, host.kernel.leaseTtlMs);
    }
    var checkpoint := ReadCandidate(host, a);
    ghost var read := host.storage.State();
    EvolvesTransitive(start, checked, read);
    if checkpoint.Err? {
      return Err(checkpoint.error);
    }
    WantedValid(read, a);
    var receipt, _ := host.Checkpoint(Request(a, checkpoint.value));
    EvolvesTransitive(start, read, host.storage.State());
    WantedStable(read, host.storage.State(), a);
    return receipt;
  }

  // A patch is refused as the ending of a task that is still at the expected revision.
  method PatchRefused(host: ExternalContinuity, a: Arguments) returns (refused: bool)
    requires host.Valid()
    modifies host.storage`cas, host.storage`others, host.storage.journal
    ensures host.storage.OnlyRead()
    ensures refused ==> a.disposition != Continue && !IsFull(a.value)
    ensures old(host.storage.others) == [] && a.expectedRevision >= 1 ==>
              (refused <==> a.disposition != Continue && !IsFull(a.value)
                            && Revision(old(host.storage.State()), a.taskId) == a.expectedRevision)
  {
    hide StoreInv, Evolves, IsFull, SnapshotAt;
    EvolvesReflexive(host.storage.State());
    if a.disposition == Continue || IsFull(a.value) {
      return false;
    }
    var current := host.storage.GetTask(a.taskId);
    return current.Some? && current.value.revision == a.expectedRevision;
  }

  lemma ToldMeansCommitted(store: Store, q: CheckpointRequest, receipt: CheckpointReceipt)
    requires ReceiptTells(store, q, receipt)
    ensures Committed(store, q)
  {
    hide CheckpointAt, SnapshotAt;
  }

  lemma SameReceipt(store: Store, q: CheckpointRequest, one: CheckpointReceipt, two: CheckpointReceipt)
    requires ReceiptTells(store, q, one) && ReceiptTells(store, q, two)
    ensures one.record == two.record && one.projection == two.projection
  {
    hide CheckpointAt, SnapshotAt;
  }

  // Theorem: a caller that lost the response repeats the call. However the first call was
  // disturbed, an undisturbed repetition at once answers with the same record, as existing,
  // and writes nothing.
  method CheckpointTaskTwice(host: ExternalContinuity, a: Arguments)
    returns (first: Result<CheckpointReceipt, HostError>, second: Result<CheckpointReceipt, HostError>,
             ghost between: Store, ghost left: seq<seq<Action>>)
    requires host.Valid()
    modifies host.storage`cas, host.storage`others, host.storage`mine, host.storage.journal
    ensures host.storage.Advanced()
    // `left` is what the schedule still holds when the first call returns.
    ensures |host.storage.others| <= |left| <= |old(host.storage.others)|
    ensures left == [] && first.Ok? && first.value.admission == Created
            && Revision(between, a.taskId) == a.expectedRevision + 1
            ==> && second.Ok? && second.value.admission == Existing
                && second.value.record == first.value.record && second.value.projection == first.value.projection
                && host.storage.State() == between
  {
    hide StoreInv, Evolves, CheckpointAt, SnapshotAt, Wanted, ReceiptTells, Committed, ExternalHead, NamesExternal;
    hide ArgumentsValid, IsFull, Admissible;
    ghost var start := host.storage.State();
    first := CheckpointTask(host, a);
    between := host.storage.State();
    left := host.storage.others;
    if first.Ok? {
      ToldMeansCommitted(between, Request(a, Wanted(between, a).value), first.value);
    }
    second := CheckpointTask(host, a);
    EvolvesTransitive(start, between, host.storage.State());
    if first.Ok? && second.Ok? && between == host.storage.State() {
      SameReceipt(between, Request(a, Wanted(between, a).value), first.value, second.value);
    }
  }

  predicate ArgumentsValid(a: Arguments) {
    "task:" <= a.taskId && Text.Trimmed(a.taskId) && a.expectedRevision >= 1 && C.IsWriterLabel(a.writer) && a.value != map[]
  }

  // Theorem: which checkpoint a call asks for. A value with any of the four marks of a whole
  // checkpoint is one; any other is laid over the checkpoint of the expected revision, and may
  // name only the eight fields of the work.
  lemma WantedExactly(store: Store, a: Arguments, c: C.WorkingCheckpoint)
    ensures Wanted(store, a) == Some(c) <==>
              if "schemaVersion" in a.value || "kind" in a.value || "truthRole" in a.value || "taskId" in a.value
              then C.FromJson(Obj(a.value)) == Some(c)
              else
                && CheckpointAt(store, a.taskId, a.expectedRevision).Ok?
                && CheckpointAt(store, a.taskId, a.expectedRevision).value.Some?
                && (forall f :: f in a.value ==>
                      f in {"objective", "frontier", "established", "unresolved", "rejected", "constraints", "nextActions", "runtime"})
                && var base := CheckpointAt(store, a.taskId, a.expectedRevision).value.value.checkpoint;
                   C.FromJson(Obj(base.ToJson().fields + a.value)) == Some(c)
  {
    hide C.FromJson, C.WorkingCheckpoint.ToJson, CheckpointAt;
    MarksExactly(a.value);
  }

  lemma MarksExactly(value: map<string, Value>)
    ensures IsFull(value) <==> "schemaVersion" in value || "kind" in value || "truthRole" in value || "taskId" in value
  {
    if f :| f in FULL_MARKERS && f in value {
      assert f in FULL_MARKERS * value.Keys;
    }
  }
}
