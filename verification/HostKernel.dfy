// The kernel: one locked transition of one task. The lease is taken, the snapshot read and
// checked, the body commits at most once, and an uncommitted exit releases the lease.
module HostKernel {
  import opened Base
  import opened Json
  import opened Domain
  import opened Tables
  import opened Transactions
  import opened Storage
  import opened Evolution
  import opened Workers
  import opened Snapshots
  import opened HostStorage
  import opened Admissions
  import opened LeaseFence
  import T = Transactions
  import Text

  datatype Expected = Expected(
    revision: Option<int>, state: Option<TaskState>, frontier: Option<seq<string>>)

  const ANYTHING := Expected(None, None, None)

  // Which expectation a projection fails first, if any.
  function Unmet(p: TaskProjection, x: Expected): Option<HostError> {
    if x.revision.Some? && p.revision != x.revision.value then Some(TaskRevisionMismatch)
    else if x.state.Some? && p.state != x.state.value then Some(TaskStateMismatch)
    else if x.frontier.Some? && p.readyFrontier != x.frontier.value then Some(TaskFrontierMismatch)
    else None
  }

  // The answer to an expectation: the error of the first of revision, state and frontier that
  // is given and differs, or none.
  ghost predicate ExpectationAnswered(p: TaskProjection, x: Expected, error: Option<HostError>) {
    if x.revision.Some? && p.revision != x.revision.value then error == Some(TaskRevisionMismatch)
    else if x.state.Some? && p.state != x.state.value then error == Some(TaskStateMismatch)
    else if x.frontier.Some? && p.readyFrontier != x.frontier.value then error == Some(TaskFrontierMismatch)
    else error == None
  }

  // The record carries what the body drafted, over the snapshot and under the lease of its lock.
  ghost predicate Carries(r: Record, snapshot: TaskProjection, lease: LeaseRecord, d: Draft) {
    && r.eventId == d.eventId && r.kind == d.kind && r.data == d.data
    && r.causedBy == d.causedBy && r.referenced == d.referenced && r.extension == d.extension
    && r.expectedRevision == snapshot.revision
    && r.lease == Some(lease) && r.checkedAtMs == Some(r.projection.updatedAtMs)
  }

  function ErrorOf<T>(r: Result<T, HostError>): Option<HostError> {
    match r
    case Ok(_) => None
    case Err(e) => Some(e)
  }

  ghost predicate NoAppendSince(mine: seq<Act>, n: nat) {
    forall k :: n <= k < |mine| ==> !mine[k].action.Append?
  }

  lemma AppendableDraft(store: Store, lease: LeaseRecord, s: TaskEventSnapshot, d: Draft, clockMs: int)
    requires Told(store, s.projection.taskId, s) && AllAvailable(store, d.referenced)
    requires NextProjection(s.projection, d.transition, clockMs).Ok?
    ensures Committable(store, Drafted(lease, s.projection, d, NextProjection(s.projection, d.transition, clockMs).value))
  {
    NextSucceeds(s.projection, d.transition, clockMs);
  }

  // A lock that fails was refused its lease, or has released it again.
  ghost predicate LeftUnlocked(
    db: Db, acts: seq<Act>, t: string, ownerId: string, nowMs: int, ttlMs: int, error: HostError)
  {
    && |acts| >= 1
    && acts[0].action == Acquire(t, ownerId, nowMs, ttlMs)
    && match T.AcquireLease(acts[0].store.db, t, ownerId, nowMs, ttlMs).result
       case Err(e) => |acts| == 1 && error == e
       case Ok(lease) => |acts| == 2 && acts[1].action == Release(lease) && !LeaseMatches(db, lease)
  }

  lemma LeftAfterRelease(
    before: seq<Act>, mine: seq<Act>, n: nat, t: string, ownerId: string, nowMs: int, ttlMs: int, lease: LeaseRecord,
    error: HostError)
    requires |before| == n + 1 && |mine| == n + 2 && mine[..n + 1] == before
    requires before[n].action == Acquire(t, ownerId, nowMs, ttlMs)
    requires T.AcquireLease(before[n].store.db, t, ownerId, nowMs, ttlMs).result == Ok(lease)
    requires mine[n + 1].action == Release(lease)
    ensures LeftUnlocked(Perform(mine[n + 1].store, Release(lease)).db, mine[n..], t, ownerId, nowMs, ttlMs, error)
  {
    hide T.AcquireLease, LeaseMatches, T.ReleaseLease;
    assert mine[n] == mine[..n + 1][n];
    ReleaseUnmatches(mine[n + 1].store.db, lease);
  }

  class LockedTask {
    const snapshot: TaskEventSnapshot
    const lease: LeaseRecord
    var committed: bool

    constructor (snapshot: TaskEventSnapshot, lease: LeaseRecord)
      ensures this.snapshot == snapshot && this.lease == lease && !committed
    {
      this.snapshot := snapshot;
      this.lease := lease;
      committed := false;
    }
  }

  datatype Receipt = Receipt(admission: EventAdmission, projection: TaskProjection)

  class Kernel {
    const storage: Host
    const ownerId: string
    const leaseTtlMs: int

    constructor (storage: Host, ownerId: string, leaseTtlMs: int)
      ensures this.storage == storage && this.ownerId == ownerId && this.leaseTtlMs == leaseTtlMs
    {
      this.storage := storage;
      this.ownerId := ownerId;
      this.leaseTtlMs := leaseTtlMs;
    }

    // create_task: a first revision, fenced by the absence of the task.
    method CreateTask(eventId: string, kind: EventKind, taskId: string, goalId: string, data: Value, state: TaskState,
                      frontier: seq<string>, activeNodeId: Option<string>, causedBy: Option<string>,
                      referenced: seq<StoredObject>, clockMs: int)
      returns (r: Result<Receipt, HostError>)
      requires storage.Valid() && AllAvailable(storage.State(), referenced)
      modifies storage`cas, storage`others, storage`mine, storage.journal
      ensures var record := FirstRecord(eventId, kind, taskId, goalId, data, state, frontier, activeNodeId, causedBy,
                                      referenced, clockMs);
              if clockMs < 0 || !record.projection.WellFormed()
              then r == Err(ValueError) && storage.State() == old(storage.State())
                   && storage.OnlyRead()
              else
                && storage.Recorded(record)
                && record.eventId == eventId && record.kind == kind && record.data == data
                && record.projection == TaskProjection(taskId, goalId, state, activeNodeId, frontier, 1, clockMs)
                && record.expectedRevision == 0 && record.causedBy == causedBy && record.referenced == referenced
                && record.lease.None? && record.checkedAtMs.None? && record.extension.None?
                && r == ReceiptOf(T.AppendTaskEvent(storage.mine[|storage.mine| - 1].store.db, RecordRequest(record)).result,
                                  record.projection)
      // Undisturbed, a well-formed first revision of a new task is admitted.
      ensures var record := FirstRecord(eventId, kind, taskId, goalId, data, state, frontier, activeNodeId, causedBy,
                                        referenced, clockMs);
              old(storage.others) == [] && clockMs >= 0 && Unwritten(old(storage.State()).db, record)
              ==> r == Ok(Receipt(Created, record.projection))
    {
      hide StoreInv, Evolves, T.AppendTaskEvent, PayloadJson, Unwritten, TaskProjection.WellFormed, Disciplined, Perform;
      hide AllAvailable;
      ghost var start := storage.State();
      EvolvesReflexive(start);
      if clockMs < 0 {
        return Err(ValueError);
      }
      var record := FirstRecord(eventId, kind, taskId, goalId, data, state, frontier, activeNodeId, causedBy,
                                      referenced, clockMs);
      if Unwritten(start.db, record) {
        UnwrittenShape(start.db, record);
      }
      if !record.projection.WellFormed() {
        return Err(ValueError);
      }
      var admission := storage.RecordTaskEvent(record);
      if old(storage.others) == [] && Unwritten(start.db, record) {
        UnwrittenSucceeds(start, record);
      }
      return ReceiptOf(admission, record.projection);
    }

    // current_snapshot: the materialized projection, its expectations, then the head event,
    // which must still carry that projection.
    method CurrentSnapshot(t: string, x: Expected) returns (r: Result<TaskEventSnapshot, HostError>)
      requires storage.Valid()
      modifies storage`cas, storage`others, storage.journal
      ensures storage.OnlyRead()
      ensures r.Ok? ==>
                && Told(storage.State(), t, r.value)
                && Unmet(r.value.projection, x).None?
                && (x.revision.Some? ==> r.value.projection.revision == x.revision.value)
                && (x.state.Some? ==> r.value.projection.state == x.state.value)
                && (x.frontier.Some? ==> r.value.projection.readyFrontier == x.frontier.value)
                && Revision(old(storage.State()), t) <= r.value.projection.revision <= Revision(storage.State(), t)
      ensures old(storage.others) == [] && t !in old(storage.State()).db.projections ==> r == Err(TaskMissing)
      ensures old(storage.others) == [] && t in old(storage.State()).db.projections
              && Unmet(old(storage.State()).db.projections[t], x).None?
              ==> r.Ok?
      // Undisturbed, the first expectation that fails gives the error.
      ensures old(storage.others) == [] && t in old(storage.State()).db.projections ==>
                && ExpectationAnswered(old(storage.State()).db.projections[t], x, ErrorOf(r))
                && (r.Ok? ==> r.value.projection == old(storage.State()).db.projections[t])
    {
      hide StoreInv, Evolves, SnapshotAt;
      ghost var start := storage.State();
      var current := storage.GetTask(t);
      ghost var seen := storage.State();
      RevisionMonotone(start, seen, t);
      if current.None? {
        return Err(TaskMissing);
      }
      var unmet := Unmet(current.value, x);
      if unmet.Some? {
        return Err(unmet.value);
      }
      var snapshot := storage.ReadTaskEvent(t);
      EvolvesTransitive(start, seen, storage.State());
      if snapshot.Err? {
        return snapshot;
      }
      RecallsStable(seen, storage.State(), t, current.value);
      if snapshot.value.projection != current.value {
        return Err(TaskProjectionDrift);
      }
      return snapshot;
    }

    // Entering locked_task. Every refusal after the lease is taken releases it again.
    method Lock(t: string, x: Expected, nowMs: int) returns (r: Result<LockedTask, HostError>)
      requires storage.Valid()
      modifies storage`cas, storage`others, storage`mine, storage.journal
      ensures storage.Advanced() && old(storage.mine) < storage.mine
      ensures NoAppendSince(storage.mine, |old(storage.mine)|)
      ensures r.Ok? ==>
                && fresh(r.value) && !r.value.committed
                && Told(storage.State(), t, r.value.snapshot)
                && Unmet(r.value.snapshot.projection, x).None?
                && (x.revision.Some? ==> r.value.snapshot.projection.revision == x.revision.value)
                && (x.state.Some? ==> r.value.snapshot.projection.state == x.state.value)
                && (x.frontier.Some? ==> r.value.snapshot.projection.readyFrontier == x.frontier.value)
                && Revision(old(storage.State()), t) <= r.value.snapshot.projection.revision
                && r.value.lease.taskId == t && r.value.lease.row.ownerId == ownerId
      ensures r.Err? ==> LeftUnlocked(storage.State().db, storage.mine[|old(storage.mine)|..], t, ownerId, nowMs, leaseTtlMs, r.error)
      ensures old(storage.others) == [] && t in old(storage.State()).db.projections
              && Unmet(old(storage.State()).db.projections[t], x).None?
              && T.AcquireLease(old(storage.State()).db, t, ownerId, nowMs, leaseTtlMs).result.Ok?
              ==> && r.Ok?
                  && r.value.lease == T.AcquireLease(old(storage.State()).db, t, ownerId, nowMs, leaseTtlMs).result.value
                  && storage.State() == Perform(old(storage.State()), Acquire(t, ownerId, nowMs, leaseTtlMs))
      // Undisturbed, what refuses is the lease, or the first expectation the task fails.
      ensures old(storage.others) == [] && T.AcquireLease(old(storage.State()).db, t, ownerId, nowMs, leaseTtlMs).result.Err? ==>
                r.Err? && Err(r.error) == T.AcquireLease(old(storage.State()).db, t, ownerId, nowMs, leaseTtlMs).result
      ensures old(storage.others) == [] && T.AcquireLease(old(storage.State()).db, t, ownerId, nowMs, leaseTtlMs).result.Ok? ==>
                && t in old(storage.State()).db.projections
                && ExpectationAnswered(old(storage.State()).db.projections[t], x, if r.Ok? then None else Some(r.error))
                && (r.Ok? ==> r.value.snapshot.projection == old(storage.State()).db.projections[t])
    {
      hide StoreInv, Evolves, SnapshotAt, Perform, T.AcquireLease, Told, Unmet, ExpectationAnswered, Revision, T.ReleaseLease, ActedOn;
      ghost var start := storage.State();
      var lease := storage.AcquireLease(t, ownerId, nowMs, leaseTtlMs);
      ghost var leased, acts := storage.State(), storage.mine;
      ghost var met := storage.mine[|storage.mine| - 1].store;
      RevisionMonotone(start, leased, t);
      if lease.Err? {
        return Err(lease.error);
      }
      AcquireFacts(met, t, ownerId, nowMs, leaseTtlMs);
      var snapshot := CurrentSnapshot(t, x);
      EvolvesTransitive(start, leased, storage.State());
      if snapshot.Err? {
        ghost var before := storage.State();
        var _ := storage.ReleaseLease(lease.value);
        LeftAfterRelease(acts, storage.mine, |old(storage.mine)|, t, ownerId, nowMs, leaseTtlMs, lease.value, snapshot.error);
        EvolvesTransitive(start, before, storage.State());
        return Err(snapshot.error);
      }
      var locked := new LockedTask(snapshot.value, lease.value);
      return Ok(locked);
    }

    // LockedTask.commit: at most once, and only the successor of the locked snapshot.
    method Commit(locked: LockedTask, d: Draft, clockMs: int) returns (r: Result<Receipt, HostError>)
      requires storage.Valid() && AllAvailable(storage.State(), d.referenced)
      requires Told(storage.State(), locked.snapshot.projection.taskId, locked.snapshot)
      modifies locked, storage`cas, storage`others, storage`mine, storage.journal
      ensures locked.committed == (old(locked.committed) || r.Ok?)
      ensures var next := NextProjection(locked.snapshot.projection, d.transition, clockMs);
              if old(locked.committed) || next.Err?
              then r == (if old(locked.committed) then Err(TaskCommitRepeated) else Err(next.error))
                   && storage.State() == old(storage.State()) && storage.OnlyRead()
              else
                var record := Drafted(locked.lease, locked.snapshot.projection, d, next.value);
                && storage.Recorded(record)
                && Carries(record, locked.snapshot.projection, locked.lease, d) && record.projection == next.value
                && r == ReceiptOf(T.AppendTaskEvent(storage.mine[|storage.mine| - 1].store.db, RecordRequest(record)).result,
                                  record.projection)
    {
      hide StoreInv, Evolves, SnapshotAt, T.AppendTaskEvent, NextProjection, Told;
      EvolvesReflexive(storage.State());
      if locked.committed {
        return Err(TaskCommitRepeated);
      }
      var next := NextProjection(locked.snapshot.projection, d.transition, clockMs);
      if next.Err? {
        return Err(next.error);
      }
      AppendableDraft(storage.State(), locked.lease, locked.snapshot, d, clockMs);
      var record := Drafted(locked.lease, locked.snapshot.projection, d, next.value);
      var admission := storage.RecordTaskEvent(record);
      if admission.Ok? {
        locked.committed := true;
      }
      return ReceiptOf(admission, record.projection);
    }

    // Leaving locked_task: an uncommitted exit never leaves its own exact row behind.
    method Exit(locked: LockedTask, bodyFailed: bool) returns (raised: Option<HostError>)
      requires storage.Valid()
      modifies storage`cas, storage`others, storage`mine, storage.journal
      ensures if locked.committed then storage.State() == old(storage.State()) && storage.OnlyRead() && raised.None?
              else storage.Acted(Release(locked.lease)) && !LeaseMatches(storage.State().db, locked.lease)
      ensures raised.Some? ==> raised.value == LeaseConflict && !bodyFailed
    {
      hide StoreInv, Evolves;
      EvolvesReflexive(storage.State());
      if locked.committed {
        return None;
      }
      var released := storage.ReleaseLease(locked.lease);
      ReleaseUnmatches(storage.mine[|storage.mine| - 1].store.db, locked.lease);
      return if released.Err? && !bodyFailed then Some(released.error) else None;
    }
  }

  function FirstRecord(eventId: string, kind: EventKind, taskId: string, goalId: string, data: Value, state: TaskState,
                       frontier: seq<string>, activeNodeId: Option<string>, causedBy: Option<string>,
                       referenced: seq<StoredObject>, clockMs: int): Record
  {
    Record(eventId, kind, data, TaskProjection(taskId, goalId, state, activeNodeId, frontier, 1, clockMs), 0, causedBy,
           referenced, None, None, None)
  }

  // Nothing of the record is in the database yet, except its cause if it names one.
  predicate Unwritten(db: Db, r: Record) {
    && r.projection.WellFormed()
    && r.projection.taskId !in db.projections
    && FindEvent(db.events, r.eventId).None?
    && CauseKnown(db, r)
    && forall i :: 0 <= i < |r.referenced| ==> r.referenced[i].kind != EVENT_OBJECT_KIND
  }

  lemma UnwrittenShape(db: Db, r: Record)
    requires Unwritten(db, r)
    ensures r.projection.WellFormed()
  {
  }

  lemma OtherKinds(store: Store, r: Record)
    requires Disciplined(store, Append(r))
    requires forall i :: 0 <= i < |r.referenced| ==> r.referenced[i].kind != EVENT_OBJECT_KIND
    ensures forall i :: 0 <= i < |r.referenced| ==> r.referenced[i].digest != Address(EVENT_OBJECT_KIND, PayloadJson(r))
  {
    hide PayloadJson, Open;
    forall i | 0 <= i < |r.referenced|
      ensures r.referenced[i].digest != Address(EVENT_OBJECT_KIND, PayloadJson(r))
    {
      var o := r.referenced[i];
      assert o in r.referenced;
      AddressKinds(o.kind, Open(o.digest).value.payload, EVENT_OBJECT_KIND, PayloadJson(r));
    }
  }

  lemma UnwrittenSucceeds(start: Store, r: Record)
    requires StoreInv(start) && Unwritten(start.db, r) && AllAvailable(start, r.referenced)
    requires r.expectedRevision == 0 && r.projection.revision == 1
    requires r.lease.None? && r.checkedAtMs.None? && r.extension.None?
    ensures var met := Perform(start, Put(EVENT_OBJECT_KIND, PayloadJson(r)));
            T.AppendTaskEvent(met.db, RecordRequest(r)).result == Ok(Created)
  {
    hide StoreInv, T.AppendTaskEvent, PayloadJson, TaskProjection.WellFormed;
    var put := Put(EVENT_OBJECT_KIND, PayloadJson(r));
    var met := Perform(start, put);
    assert Text.IsLabel(EVENT_OBJECT_KIND);
    StepKeeps(start, put);
    PutEvolves(start, EVENT_OBJECT_KIND, PayloadJson(r));
    CommittableStable(start, met, r);
    CommittableIsDisciplined(met, r);
    OtherKinds(met, r);
    UnopposedFirstSucceeds(met, r);
  }

  function ReceiptOf(r: Result<EventAdmission, HostError>, p: TaskProjection): Result<Receipt, HostError> {
    match r
    case Ok(admission) => Ok(Receipt(admission, p))
    case Err(e) => Err(e)
  }

  lemma AcquireFacts(store: Store, t: string, o: string, nowMs: int, ttlMs: int)
    requires T.AcquireLease(store.db, t, o, nowMs, ttlMs).result.Ok?
    ensures var lease := T.AcquireLease(store.db, t, o, nowMs, ttlMs).result.value;
            lease.taskId == t && lease.row.ownerId == o && lease.row.expiresAtMs == nowMs + ttlMs
    ensures Perform(store, Acquire(t, o, nowMs, ttlMs)).db.projections == store.db.projections
    ensures t in store.db.projections
  {
  }
}
