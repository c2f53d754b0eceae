// Convergence over whole runs: whatever adopters do to a task nobody else writes, its
// history has at most two events, and both carry one seed.
module AdoptionRuns {
  import opened Base
  import opened Json
  import opened Domain
  import opened Tables
  import opened Transactions
  import opened JournalInvariants
  import opened Storage
  import opened Evolution
  import opened Snapshots
  import opened Descriptors
  import opened ContinuityRecords
  import opened Admissions
  import opened Adoption
  import C = Checkpoints

  // The action is some adopter's, or does not write this task's history.
  ghost predicate ByAdopters(store: Store, act: Action, t: string) {
    act.Append? && act.record.projection.taskId == t ==>
      exists a :: WellAsked(a) && a.taskId == t && AdoptAppend(a, store, act.record)
  }

  ghost predicate AdopterRun(store: Store, acts: seq<Action>, t: string) {
    forall i :: 0 <= i < |acts| ==> ByAdopters(Run(store, acts[..i]), acts[i], t)
  }

  ghost predicate HasCheckpoint(store: Store, t: string, revision: int) {
    CheckpointAt(store, t, revision).Ok? && CheckpointAt(store, t, revision).value.Some?
  }

  ghost predicate Converged(store: Store, t: string) {
    && Revision(store, t) <= 2
    && (Revision(store, t) >= 1 ==> HasCheckpoint(store, t, 1))
    && (Revision(store, t) == 2 ==>
          && HasCheckpoint(store, t, 2)
          && CheckpointAt(store, t, 2).value.value.digest == CheckpointAt(store, t, 1).value.value.digest)
  }

  lemma RevisionNeedsAppend(store: Store, act: Action, t: string)
    requires StoreInv(store)
    requires act.Append? ==> act.record.projection.taskId != t
                             || AppendTaskEvent(store.db, RecordRequest(act.record)).result != Ok(Created)
    ensures Revision(Perform(store, act), t) == Revision(store, t)
  {
    hide StoreInv, AppendTaskEvent, AcquireLease, ReleaseLease, AppendBoardMessage, AppendNewsPublication;
    match act
    case Append(r) =>
      if AppendTaskEvent(store.db, RecordRequest(r)).result == Ok(Created) {
        CreatedMeansAppended(store.db, RecordRequest(r));
      } else {
        NotCreatedMeansKept(store.db, RecordRequest(r));
      }
    case Put(_, _) =>
    case Acquire(u, o, now, ttl) => AcquireEffect(store.db, u, o, now, ttl);
    case Release(l) => ReleaseEffect(store.db, l);
    case Post(m) => PostEffect(store.db, m);
    case Publish(n) => PublishEffect(store.db, n);
  }

  lemma ReleaseEffect(db: Db, lease: LeaseRecord)
    ensures ReleaseLease(db, lease).db.projections == db.projections
  {
  }

  lemma CheckpointKept(before: Store, after: Store, t: string, revision: int)
    requires Evolves(before, after) && HasCheckpoint(before, t, revision)
    ensures CheckpointAt(after, t, revision) == CheckpointAt(before, t, revision)
  {
    hide Evolves, CheckpointIn, SnapshotAt, CheckpointAt;
    CheckpointNeedsSnapshot(before, t, revision);
    CheckpointStable(before, after, t, revision);
  }

  // Nothing new on the task keeps convergence.
  lemma QuietStep(before: Store, after: Store, t: string)
    requires Evolves(before, after) && Revision(after, t) == Revision(before, t) && Converged(before, t)
    ensures Converged(after, t)
  {
    hide Evolves, CheckpointAt;
    if Revision(before, t) >= 1 {
      CheckpointKept(before, after, t, 1);
    }
    if Revision(before, t) == 2 {
      CheckpointKept(before, after, t, 2);
    }
  }

  // What a created record of a checkpoint or a seed reads back as.
  lemma CreatedHasCheckpoint(store: Store, r: Record, c: C.WorkingCheckpoint, descriptor: Value, object': Value, writer: Option<string>)
    requires StoreInv(store) && Disciplined(store, Append(r))
    requires AppendTaskEvent(store.db, RecordRequest(r)).result == Ok(Created)
    requires c.Valid() && c.taskId == r.projection.taskId && C.IsWriterLabel(writer) && CheckpointObject(c) in r.referenced
    requires r.kind == CHECKPOINT_EVENT || r.kind == Core(TaskCreated)
    requires r.data == RecordData(descriptor, object', c, writer)
    ensures var after := Perform(store, Append(r));
            && HasCheckpoint(after, r.projection.taskId, r.projection.revision)
            && CheckpointAt(after, r.projection.taskId, r.projection.revision).value.value.digest == c.Digest()
  {
    hide StoreInv, AppendTaskEvent, CheckpointIn, SnapshotAt, C.WorkingCheckpoint.Valid, RecordData, C.IsWriterLabel;
    hide C.WorkingCheckpoint.ToJson, PayloadJson;
    AcceptedSnapshot(store, r);
    var after := Perform(store, Append(r));
    assert after.cas == store.cas && CheckpointObject(c).digest in store.cas;
    RecordDataReads(after.cas, r.kind, descriptor, object', c, writer, r.projection, Address(EVENT_OBJECT_KIND, PayloadJson(r)));
  }

  lemma AppendHasCheckpoint(store: Store, r: Record, a: AdoptRequest)
    requires StoreInv(store) && Disciplined(store, Append(r))
    requires AppendTaskEvent(store.db, RecordRequest(r)).result == Ok(Created)
    requires WellAsked(a) && r.projection.taskId == a.taskId && AdoptAppend(a, store, r)
    ensures HasCheckpoint(Perform(store, Append(r)), a.taskId, r.projection.revision)
    ensures CheckpointAt(Perform(store, Append(r)), a.taskId, r.projection.revision).value.value.digest == a.checkpoint.Digest()
  {
    hide StoreInv, AppendTaskEvent, HasCheckpoint, CheckpointAt, C.WorkingCheckpoint.Valid, RecordData, C.IsWriterLabel, Disciplined;
    hide SeedAgrees, C.WorkingCheckpoint.ToJson, Perform;
    DataOfAdopter(a, store, r);
    var descriptor, object' :| r.data == RecordData(descriptor, object', a.checkpoint, a.writer);
    CreatedHasCheckpoint(store, r, a.checkpoint, descriptor, object', a.writer);
  }

  lemma DataOfAdopter(a: AdoptRequest, store: Store, r: Record)
    requires AdoptAppend(a, store, r)
    ensures exists descriptor, descriptorObject :: r.data == RecordData(descriptor, descriptorObject, a.checkpoint, a.writer)
  {
    hide RecordData, External, DescriptorObject;
  }

  lemma AdopterStep(store: Store, r: Record, a: AdoptRequest)
    requires StoreInv(store) && Disciplined(store, Append(r)) && Converged(store, a.taskId)
    requires AppendTaskEvent(store.db, RecordRequest(r)).result == Ok(Created)
    requires WellAsked(a) && r.projection.taskId == a.taskId && AdoptAppend(a, store, r)
    ensures Converged(Perform(store, Append(r)), a.taskId)
  {
    hide StoreInv, AppendTaskEvent, CheckpointAt, Disciplined, Perform, Evolves;
    hide SnapshotAt, C.WorkingCheckpoint.Valid, RecordData, C.IsWriterLabel;
    var after := Perform(store, Append(r));
    CreatedAt(store, r);
    AppendEvolves(store, r);
    AppendHasCheckpoint(store, r, a);
    if r.expectedRevision == 1 {
      CheckpointKept(store, after, a.taskId, 1);
    }
  }

  lemma ConvergedStep(store: Store, act: Action, t: string)
    requires StoreInv(store) && Converged(store, t) && ByAdopters(store, act, t)
    ensures Converged(Step(store, act), t)
  {
    hide StoreInv, Converged, Disciplined, AppendTaskEvent, AdoptAppend, WellAsked, Perform, Evolves;
    if Disciplined(store, act) {
      if act.Append? && act.record.projection.taskId == t
         && AppendTaskEvent(store.db, RecordRequest(act.record)).result == Ok(Created)
      {
        var a :| WellAsked(a) && a.taskId == t && AdoptAppend(a, store, act.record);
        AdopterStep(store, act.record, a);
      } else {
        StepEvolves(store, act);
        RevisionNeedsAppend(store, act, t);
        QuietStep(store, Perform(store, act), t);
      }
    }
  }

  // Theorem: any number of concurrent, stalling or crashing adopters of a fresh task leave
  // at most two events, and both carry the same seed checkpoint.
  lemma {:induction false} AdoptersConverge(store: Store, acts: seq<Action>, t: string)
    requires StoreInv(store) && t !in store.db.projections && AdopterRun(store, acts, t)
    ensures Converged(Run(store, acts), t)
  {
    hide StoreInv, Converged, ByAdopters;
    if |acts| == 0 {
      NothingYet(store, t);
    } else {
      var init := acts[..|acts| - 1];
      forall i | 0 <= i < |init|
        ensures ByAdopters(Run(store, init[..i]), init[i], t)
      {
        assert init[..i] == acts[..i];
        assert ByAdopters(Run(store, acts[..i]), acts[i], t);
      }
      AdoptersConverge(store, init, t);
      RunKeeps(store, init);
      ConvergedStep(Run(store, init), acts[|acts| - 1], t);
    }
  }

  lemma NothingYet(store: Store, t: string)
    requires t !in store.db.projections
    ensures Converged(store, t)
  {
  }

  // Theorem: two adoptions of one task that both succeeded asked for the same goal and the
  // same initial checkpoint, whatever was checkpointed in between.
  lemma SuccessfulAdoptionsAgree(first: Store, second: Store, t: string, g: string, digest: Digest, g': string, digest': Digest)
    requires StoreInv(first) && Evolves(first, second)
    requires InitialIs(first, t, digest) && GoalIs(first, t, g)
    requires InitialIs(second, t, digest') && GoalIs(second, t, g')
    ensures g == g' && digest == digest'
  {
    hide StoreInv, Evolves, InitialCheckpoint;
    InitialStable(first, second, t, digest);
    GoalStable(first, second, t, g);
  }
}
