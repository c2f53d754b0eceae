// Resuming a task: four separate reads that must name one revision.
module Resumption {
  import opened Base
  import opened Domain
  import opened Storage
  import opened Evolution
  import opened Workers
  import opened Snapshots
  import opened HostStorage
  import opened Descriptors
  import opened ContinuityRecords
  import opened Continuity
  import opened ExtensionReads
  import opened Handoff

  datatype ResumeView = ResumeView(
    projection: TaskProjection, handoff: Capsule, checkpoint: Option<CheckpointRecord>, namespaces: set<string>)

  // Projection, handoff and checkpoint are what one revision recorded, and the namespaces
  // are among those with an extension event at or before it.
  ghost predicate Coherent(store: Store, t: string, v: ResumeView) {
    && Recalls(store, t, v.projection)
    && HandsOff(store, t, v.projection.revision, v.handoff)
    && CheckpointAt(store, t, v.projection.revision) == Ok(v.checkpoint)
    && v.namespaces <= NamespacesAt(store.db, t, v.projection.revision)
  }

  // The capsule is that of the event at the revision; the descriptor it shows is named by
  // that event or by a later one, since it is read in a transaction of its own.
  ghost predicate HandsOff(store: Store, t: string, revision: int, c: Capsule) {
    && c.taskRevision == revision
    && exists seen :: HandedBy(store, t, revision, c, seen)
  }

  ghost predicate HandedBy(store: Store, t: string, revision: int, c: Capsule, seen: TaskEventSnapshot) {
    && SnapshotAt(store.db, t, revision).Some?
    && Told(store, t, seen) && revision <= seen.projection.revision
    && DescriptorIn(store.cas, seen).Ok?
    && c == CapsuleOf(SnapshotAt(store.db, t, revision).value, DescriptorIn(store.cas, seen).value)
  }

  lemma HandsOffStable(before: Store, after: Store, t: string, revision: int, c: Capsule)
    requires Evolves(before, after) && HandsOff(before, t, revision, c)
    ensures HandsOff(after, t, revision, c)
  {
    hide Evolves, SnapshotAt, CapsuleOf, Told, DescriptorIn;
    SnapshotStable(before, after, t, revision);
    var seen :| HandedBy(before, t, revision, c, seen);
    EvolvesParts(before, after);
    ToldStable(before, after, t, seen);
    DescriptorStable(before.cas, after.cas, seen);
    assert HandedBy(after, t, revision, c, seen);
  }

  // The checkpoint of a coherent view is of the same revision and task.
  lemma CheckpointOfSameRevision(store: Store, t: string, v: ResumeView)
    requires StoreInv(store) && Coherent(store, t, v) && v.checkpoint.Some?
    ensures v.checkpoint.value.taskRevision == v.projection.revision == v.handoff.taskRevision
    ensures v.checkpoint.value.checkpoint.taskId == t
  {
    hide StoreInv, CapsuleOf, SnapshotAt, Load;
  }

  // Theorem: a coherent view shows a checkpoint if and only if the event of its revision
  // bears one; an extension event, which every append_preserving leaves at the head, bears none.
  lemma CheckpointShownIff(store: Store, t: string, v: ResumeView)
    requires Coherent(store, t, v)
    ensures SnapshotAt(store.db, t, v.projection.revision).Some?
    ensures v.checkpoint.Some? <==> Bears(SnapshotAt(store.db, t, v.projection.revision).value)
    ensures SnapshotAt(store.db, t, v.projection.revision).value.kind.Extension? ==> v.checkpoint.None?
  {
    hide HandsOff, RecordIn, SnapshotAt;
  }

  method Resume(host: ExternalContinuity, t: string, expectedRevision: Option<int>)
    returns (r: Result<ResumeView, HostError>, ghost required: Store)
    requires host.Valid()
    modifies host.storage`cas, host.storage`others, host.storage.journal
    ensures host.storage.OnlyRead()
    ensures Evolves(old(host.storage.State()), required) && Evolves(required, host.storage.State())
    ensures r.Ok? ==>
              && Coherent(host.storage.State(), t, r.value)
              && Revision(old(host.storage.State()), t) <= r.value.projection.revision <= Revision(required, t)
              && (expectedRevision.Some? ==> r.value.projection.revision == expectedRevision.value)
              && NamespacesAt(host.storage.State().db, t, r.value.projection.revision) * Durable(required.db.extensions, t)
                 <= r.value.namespaces
              && (Covered(required.db, t, r.value.projection.revision) ==>
                    r.value.namespaces == NamespacesAt(host.storage.State().db, t, r.value.projection.revision))
    ensures old(host.storage.others) == [] && Resumable(old(host.storage.State()), t, expectedRevision)
            ==> r.Ok? && r.value.projection == old(host.storage.State()).db.projections[t]
  {
    hide StoreInv, Evolves, SnapshotAt, DescriptorIn, CheckpointAt, NamespacesAt, Covered, Durable, CapsuleOf, NamesExternal;
    hide Forbids, Handoff.Tells, Admits, Revision, OutcomeUnknown, TaskProjection.WellFormed;
    ghost var start := host.storage.State();
    EvolvesReflexive(start);
    var projection, _ := host.RequireExternalTask(t, None);
    required := host.storage.State();
    EvolvesReflexive(required);
    if projection.Err? {
      return Err(projection.error), required;
    }
    var revision := projection.value.revision;
    RecalledRevision(required, t, projection.value);
    if expectedRevision.Some? && revision != expectedRevision.value {
      return Err(RevisionConflict), required;
    }
    var handoff, told, seen := OperatorHandoff(host.storage, t, Some(revision));
    ghost var handed := host.storage.State();
    EvolvesTransitive(start, required, handed);
    if handoff.Err? {
      return Err(handoff.error), required;
    }
    ToldRevision(handed, t, told.value, handoff.value, seen.value);
    var checkpoint := host.ReadCheckpoint(t, revision);
    ghost var read := host.storage.State();
    EvolvesTransitive(required, handed, read);
    EvolvesTransitive(start, handed, read);
    if checkpoint.Err? {
      return Err(checkpoint.error), required;
    }
    var namespaces, pointers := TaskExtensionNamespaces(host.storage, t, revision);
    EvolvesTransitive(required, read, host.storage.State());
    EvolvesTransitive(handed, read, host.storage.State());
    EvolvesTransitive(start, read, host.storage.State());
    if namespaces.Err? {
      return Err(namespaces.error), required;
    }
    RecallsStable(required, host.storage.State(), t, projection.value);
    HandsOffStable(handed, host.storage.State(), t, revision, handoff.value);
    SnapshotStable(required, read, t, revision);
    CheckpointStable(read, host.storage.State(), t, revision);
    DurableGrows(required, read, t);
    CoveredNamespaces(required, host.storage.State(), t, revision, pointers);
    var v := ResumeView(projection.value, handoff.value, checkpoint.value, namespaces.value);
    return Ok(v), required;
  }

  // What an undisturbed resume needs.
  ghost predicate Resumable(store: Store, t: string, expectedRevision: Option<int>) {
    && ExternalHead(store, t)
    && (expectedRevision.Some? ==> expectedRevision.value == Revision(store, t))
    && CheckpointAt(store, t, Revision(store, t)).Ok?
    && (forall ns :: ns in Durable(store.db.extensions, t) ==> IsNamespace(ns))
  }

  lemma ToldRevision(store: Store, t: string, s: TaskEventSnapshot, c: Capsule, seen: TaskEventSnapshot)
    requires Told(store, t, s) && Told(store, t, seen) && s.projection.revision <= seen.projection.revision
    requires DescriptorIn(store.cas, seen).Ok? && c == CapsuleOf(s, DescriptorIn(store.cas, seen).value)
    ensures c.taskRevision == s.projection.revision && HandsOff(store, t, s.projection.revision, c)
  {
    hide SnapshotAt, DescriptorIn;
    assert HandedBy(store, t, s.projection.revision, c, seen);
  }

  lemma CoveredNamespaces(before: Store, after: Store, t: string, revision: int, pointers: set<string>)
    requires StoreInv(before) && Evolves(before, after) && revision <= Revision(before, t)
    requires Durable(before.db.extensions, t) <= pointers
    ensures Covered(before.db, t, revision) ==>
              NamespacesAt(after.db, t, revision) * pointers == NamespacesAt(after.db, t, revision)
    ensures NamespacesAt(after.db, t, revision) * pointers <= NamespacesAt(after.db, t, revision)
    ensures NamespacesAt(after.db, t, revision) * Durable(before.db.extensions, t) <= NamespacesAt(after.db, t, revision) * pointers
  {
    hide StoreInv, Evolves, Durable, NamespacesAt;
    if Covered(before.db, t, revision) {
      NamespacesStable(before, after, t, revision);
    }
  }
}
