// Any number of kernel workers, interleaved between transactions. A worker may stall past
// its lease or crash at any point; a lease is a fence, not a lock.
module Workers {
  import opened Base
  import opened Json
  import opened Domain
  import opened Tables
  import opened Transactions
  import opened JournalInvariants
  import opened Storage
  import opened Evolution

  // Where one worker stands inside `locked_task`.
  datatype Phase =
    | Idle
    | Leased(lease: LeaseRecord)
    | SawTask(lease: LeaseRecord, current: TaskProjection)
    | SawHead(lease: LeaseRecord, current: TaskProjection, head: int)
    | Locked(lease: LeaseRecord, snapshot: TaskProjection)
    | Prepared(lease: LeaseRecord, snapshot: TaskProjection, record: Record)
    | Leaving(lease: LeaseRecord)

  // What the body of a transition chooses.
  datatype Draft = Draft(
    eventId: string,
    kind: EventKind,
    data: Value,
    transition: Transition,
    causedBy: Option<string>,
    referenced: seq<StoredObject>,
    extension: Option<ExtensionState>)

  datatype Stride =
    | Start(taskId: string, ownerId: string, ttlMs: int)
    | ReadTask
    | ReadHead
    | ReadEvent
    | Prepare(draft: Draft)
    | Commit
    | GiveUp
    | Leave
    | Crash

  // The record a locked worker commits: the successor of its snapshot, fenced by the
  // snapshot's revision and by its lease at the successor's own time.
  function Drafted(lease: LeaseRecord, snapshot: TaskProjection, d: Draft, next: TaskProjection): Record {
    Record(d.eventId, d.kind, d.data, next, snapshot.revision, d.causedBy, d.referenced, d.extension,
           Some(lease), Some(next.updatedAtMs))
  }

  ghost predicate AllAvailable(store: Store, objects: seq<StoredObject>) {
    forall o :: o in objects ==> Available(store, o)
  }

  // The action a stride performs on the store, if any.
  ghost function Doing(store: Store, nowMs: int, p: Phase, s: Stride): Option<Action> {
    match s
    case Start(t, o, ttl) => if p.Idle? then Some(Acquire(t, o, nowMs, ttl)) else None
    case Prepare(d) =>
      if p.Locked? && PrepareStep(store, nowMs, p.lease, p.snapshot, d).Prepared?
      then Some(Put(EVENT_OBJECT_KIND, PayloadJson(PrepareStep(store, nowMs, p.lease, p.snapshot, d).record)))
      else None
    case Commit => if p.Prepared? then Some(Append(p.record)) else None
    case Leave => if p.Leaving? then Some(Release(p.lease)) else None
    case _ => None
  }

  // next_projection with a clock reading; a refused transition leaves the body.
  ghost function PrepareStep(store: Store, nowMs: int, lease: LeaseRecord, snapshot: TaskProjection, d: Draft): Phase {
    match NextProjection(snapshot, d.transition, nowMs)
    case Err(_) => Leaving(lease)
    case Ok(next) =>
      if AllAvailable(store, d.referenced)
      then Prepared(lease, snapshot, Drafted(lease, snapshot, d, next))
      else Leaving(lease)
  }

  // The drift check: the head event must carry the projection read before it.
  function ReadEventStep(db: Db, lease: LeaseRecord, current: TaskProjection, head: int): Phase {
    match EventAt(db, lease.taskId, head)
    case None => Leaving(lease)
    case Some(e) =>
      if Snapshot(e).Some? && ProjectionOf(e) == current then Locked(lease, current) else Leaving(lease)
  }

  ghost function After(store: Store, nowMs: int, p: Phase, s: Stride): Phase {
    match s
    case Start(t, o, ttl) =>
      if p.Idle? && AcquireLease(store.db, t, o, nowMs, ttl).result.Ok?
      then Leased(AcquireLease(store.db, t, o, nowMs, ttl).result.value) else p
    case ReadTask =>
      if !p.Leased? then p
      else if p.lease.taskId in store.db.projections then SawTask(p.lease, store.db.projections[p.lease.taskId])
      else Leaving(p.lease)
    case ReadHead =>
      if !p.SawTask? then p
      else if p.lease.taskId in store.db.streams
      then SawHead(p.lease, p.current, store.db.streams[p.lease.taskId].revision)
      else Leaving(p.lease)
    case ReadEvent => if p.SawHead? then ReadEventStep(store.db, p.lease, p.current, p.head) else p
    case Prepare(d) => if p.Locked? then PrepareStep(store, nowMs, p.lease, p.snapshot, d) else p
    // The body may catch a refused commit and try again with the same snapshot.
    case Commit =>
      if !p.Prepared? then p
      else if AppendTaskEvent(store.db, RecordRequest(p.record)).result.Ok? then Idle
      else Locked(p.lease, p.snapshot)
    case GiveUp => if p.Idle? then p else Leaving(p.lease)
    case Leave => if p.Leaving? then Idle else p
    case Crash => Idle
  }

  datatype System = System(store: Store, nowMs: int, workers: map<int, Phase>)

  const INITIAL := System(FRESH, 0, map[])

  datatype Move =
    | Tick(toMs: int)
    | Other(action: Action)
    | Work(w: int, stride: Stride)

  function PhaseOf(s: System, w: int): Phase {
    if w in s.workers then s.workers[w] else Idle
  }

  // Writers that need no lease: objects, first revisions (create_task), board and news.
  ghost predicate Unlocked(s: System, a: Action) {
    && Disciplined(s.store, a)
    && match a
       case Put(_, _) => true
       case Append(r) =>
         && r.expectedRevision == 0
         && r.projection.updatedAtMs == s.nowMs
         && r.lease.None?
         && r.checkedAtMs.None?
         && r.extension.None?
       case Acquire(_, _, _, _) => false
       case Release(_) => false
       case Post(_) => true
       case Publish(_) => true
  }

  ghost function ActionOf(s: System, m: Move): Option<Action> {
    match m
    case Tick(_) => None
    case Other(a) => if Unlocked(s, a) then Some(a) else None
    case Work(w, stride) => Doing(s.store, s.nowMs, PhaseOf(s, w), stride)
  }

  ghost function StoreAfter(s: System, m: Move): Store {
    match ActionOf(s, m)
    case None => s.store
    case Some(a) => Perform(s.store, a)
  }

  ghost function Next(s: System, m: Move): System {
    System(
      StoreAfter(s, m),
      if m.Tick? then Max(s.nowMs, m.toMs) else s.nowMs,
      if m.Work? then s.workers[m.w := After(s.store, s.nowMs, PhaseOf(s, m.w), m.stride)] else s.workers)
  }

  ghost function Execute(moves: seq<Move>): System {
    if |moves| == 0 then INITIAL else Next(Execute(moves[..|moves| - 1]), moves[|moves| - 1])
  }

  // ---- What each phase knows ----

  // A snapshot is the projection stored at its own revision, now and for ever.
  ghost predicate Stored(db: Db, t: string, snapshot: TaskProjection) {
    && EventAt(db, t, snapshot.revision).Some?
    && ProjectionOf(EventAt(db, t, snapshot.revision).value) == snapshot
    && snapshot.taskId == t
    && snapshot.revision > 0
  }

  ghost predicate PreparedOk(store: Store, lease: LeaseRecord, snapshot: TaskProjection, r: Record) {
    && Available(store, Described(EVENT_OBJECT_KIND, PayloadJson(r)))
    && AllAvailable(store, r.referenced)
    && Succeeds(snapshot, r.projection)
    && r.expectedRevision == snapshot.revision > 0
    && r.lease == Some(lease)
    && r.checkedAtMs == Some(r.projection.updatedAtMs)
  }

  ghost predicate PhaseOk(store: Store, p: Phase) {
    match p
    case Locked(lease, snapshot) => Stored(store.db, lease.taskId, snapshot)
    case Prepared(lease, snapshot, r) =>
      Stored(store.db, lease.taskId, snapshot) && PreparedOk(store, lease, snapshot, r)
    case _ => true
  }

  ghost predicate PhasesOk(store: Store, workers: map<int, Phase>) {
    forall w :: w in workers ==> PhaseOk(store, workers[w])
  }

  ghost predicate SystemInv(s: System) {
    StoreInv(s.store) && s.nowMs >= 0 && PhasesOk(s.store, s.workers)
  }

  lemma StoredStable(before: Db, after: Db, t: string, snapshot: TaskProjection)
    requires before.events <= after.events && Stored(before, t, snapshot)
    ensures Stored(after, t, snapshot)
  {
    EventAtStable(before, after, t, snapshot.revision);
  }

  // A worker's knowledge survives whatever the others do.
  lemma PhaseStable(before: Store, after: Store, p: Phase)
    requires before.cas <= after.cas && before.db.events <= after.db.events && PhaseOk(before, p)
    ensures PhaseOk(after, p)
  {
    if p.Locked? || p.Prepared? {
      StoredStable(before.db, after.db, p.lease.taskId, p.snapshot);
    }
  }

  lemma PhasesStable(before: Store, after: Store, workers: map<int, Phase>)
    requires before.cas <= after.cas && before.db.events <= after.db.events && PhasesOk(before, workers)
    ensures PhasesOk(after, workers)
  {
    forall w | w in workers
      ensures PhaseOk(after, workers[w])
    {
      PhaseStable(before, after, workers[w]);
    }
  }

  // Every event of a history is what its payload says.
  lemma EventFacts(db: Db, t: string, revision: int)
    requires StreamInv(db.events, db.streams, db.projections) && HistoryInv(db.events, db.projections)
    requires EventAt(db, t, revision).Some?
    ensures var e := EventAt(db, t, revision).value;
            && PayloadMatches(e)
            && e.streamId == t == ProjectionOf(e).taskId
            && e.streamRevision == revision == ProjectionOf(e).revision >= 1
  {
    var log := Log(db.events, t);
    LogMembers(db.events, t);
    assert log[revision - 1] in db.events && log[revision - 1].streamId == t;
    assert StreamOk(log, db.streams[t]);
  }

  lemma ReadEventOk(db: Db, lease: LeaseRecord, current: TaskProjection, head: int)
    requires StreamInv(db.events, db.streams, db.projections) && HistoryInv(db.events, db.projections)
    ensures var p := ReadEventStep(db, lease, current, head);
            p.Leaving? || (p.Locked? && p.lease == lease && Stored(db, lease.taskId, p.snapshot))
  {
    if EventAt(db, lease.taskId, head).Some? {
      EventFacts(db, lease.taskId, head);
    }
  }

  lemma NextSucceeds(p: TaskProjection, t: Transition, clock: int)
    requires NextProjection(p, t, clock).Ok?
    ensures Succeeds(p, NextProjection(p, t, clock).value)
  {
  }

  // Writing the payload makes the drafted record committable.
  lemma PrepareOk(store: Store, nowMs: int, lease: LeaseRecord, snapshot: TaskProjection, d: Draft, after: Store)
    requires PrepareStep(store, nowMs, lease, snapshot, d).Prepared? && snapshot.revision > 0
    requires store.cas <= after.cas
    requires Address(EVENT_OBJECT_KIND, PayloadJson(PrepareStep(store, nowMs, lease, snapshot, d).record)) in after.cas
    ensures PreparedOk(after, lease, snapshot, PrepareStep(store, nowMs, lease, snapshot, d).record)
  {
    NextSucceeds(snapshot, d.transition, nowMs);
    var next := NextProjection(snapshot, d.transition, nowMs).value;
    EventDigestRoundTrip(TaskEvent(d.kind.Text(), d.data, next));
  }

  lemma PreparedIsDisciplined(store: Store, p: Phase)
    requires p.Prepared? && PhaseOk(store, p)
    ensures Disciplined(store, Append(p.record))
  {
    assert p.record.projection.taskId == p.lease.taskId;
  }

  // A worker only ever performs disciplined actions.
  lemma DoingDisciplined(store: Store, nowMs: int, p: Phase, s: Stride)
    requires PhaseOk(store, p)
    ensures Doing(store, nowMs, p, s).Some? ==> Disciplined(store, Doing(store, nowMs, p, s).value)
  {
    if s.Commit? && p.Prepared? {
      PreparedIsDisciplined(store, p);
    }
  }

  lemma AfterReadOk(db: Db, p: Phase, after: Store)
    requires StreamInv(db.events, db.streams, db.projections) && HistoryInv(db.events, db.projections)
    requires p.SawHead? && db.events <= after.db.events
    ensures PhaseOk(after, ReadEventStep(db, p.lease, p.current, p.head))
  {
    ReadEventOk(db, p.lease, p.current, p.head);
    if ReadEventStep(db, p.lease, p.current, p.head).Locked? {
      StoredStable(db, after.db, p.lease.taskId, p.current);
    }
  }

  // Writing the payload is part of preparing, so the phase it leads to can commit.
  ghost predicate WrotePayload(store: Store, nowMs: int, p: Phase, s: Stride, after: Store) {
    s.Prepare? && p.Locked? && PrepareStep(store, nowMs, p.lease, p.snapshot, s.draft).Prepared? ==>
      Address(EVENT_OBJECT_KIND, PayloadJson(PrepareStep(store, nowMs, p.lease, p.snapshot, s.draft).record)) in after.cas
  }

  lemma AfterPrepareOk(store: Store, nowMs: int, p: Phase, d: Draft, after: Store)
    requires p.Locked? && PhaseOk(store, p) && PhaseOk(after, p)
    requires store.cas <= after.cas && WrotePayload(store, nowMs, p, Prepare(d), after)
    ensures PhaseOk(after, PrepareStep(store, nowMs, p.lease, p.snapshot, d))
  {
    if PrepareStep(store, nowMs, p.lease, p.snapshot, d).Prepared? {
      PrepareOk(store, nowMs, p.lease, p.snapshot, d, after);
    }
  }

  // The worker that moved knows what its new phase says.
  lemma AfterOk(store: Store, nowMs: int, p: Phase, s: Stride, after: Store)
    requires StreamInv(store.db.events, store.db.streams, store.db.projections)
    requires HistoryInv(store.db.events, store.db.projections)
    requires PhaseOk(store, p) && store.cas <= after.cas && store.db.events <= after.db.events
    requires WrotePayload(store, nowMs, p, s, after)
    ensures PhaseOk(after, After(store, nowMs, p, s))
  {
    hide StreamInv, HistoryInv, AppendTaskEvent, AcquireLease, ReadEventStep, PrepareStep, WrotePayload, EventAt, Available;
    hide Succeeds, TaskProjection.WellFormed;
    if s.ReadEvent? && p.SawHead? {
      AfterReadOk(store.db, p, after);
    } else {
      PhaseStable(store, after, p);
      if s.Prepare? && p.Locked? {
        AfterPrepareOk(store, nowMs, p, s.draft, after);
      }
    }
  }

  lemma MoveDisciplined(s: System, m: Move)
    requires PhasesOk(s.store, s.workers)
    ensures ActionOf(s, m).Some? ==> Disciplined(s.store, ActionOf(s, m).value)
  {
    if m.Work? {
      DoingDisciplined(s.store, s.nowMs, PhaseOf(s, m.w), m.stride);
    }
  }

  lemma MoveStore(s: System, m: Move)
    requires SystemInv(s)
    ensures StoreInv(StoreAfter(s, m)) && Evolves(s.store, StoreAfter(s, m))
  {
    MoveDisciplined(s, m);
    match ActionOf(s, m)
    case None => EvolvesReflexive(s.store);
    case Some(a) =>
      StepKeeps(s.store, a);
      StepEvolves(s.store, a);
  }

  lemma MoveWrites(s: System, w: int, stride: Stride)
    ensures WrotePayload(s.store, s.nowMs, PhaseOf(s, w), stride, StoreAfter(s, Work(w, stride)))
  {
  }

  lemma StoreParts(store: Store)
    requires StoreInv(store)
    ensures StreamInv(store.db.events, store.db.streams, store.db.projections)
    ensures HistoryInv(store.db.events, store.db.projections)
  {
  }

  lemma EvolvesParts(before: Store, after: Store)
    requires Evolves(before, after)
    ensures before.cas <= after.cas && before.db.events <= after.db.events
  {
  }

  // Every move keeps what all phases know.
  lemma MovePhases(s: System, m: Move, after: Store)
    requires SystemInv(s) && Evolves(s.store, after)
    requires m.Work? ==> WrotePayload(s.store, s.nowMs, PhaseOf(s, m.w), m.stride, after)
    ensures PhasesOk(after, Next(s, m).workers)
  {
    hide StoreInv, Evolves, StoreAfter;
    StoreParts(s.store);
    EvolvesParts(s.store, after);
    PhasesStable(s.store, after, s.workers);
    if m.Work? {
      AfterOk(s.store, s.nowMs, PhaseOf(s, m.w), m.stride, after);
    }
  }

  lemma MoveKeeps(s: System, m: Move)
    requires SystemInv(s)
    ensures SystemInv(Next(s, m))
    ensures Evolves(s.store, Next(s, m).store)
  {
    hide StoreInv, Evolves, PhasesOk, StoreAfter;
    MoveStore(s, m);
    if m.Work? {
      MoveWrites(s, m.w, m.stride);
    }
    MovePhases(s, m, StoreAfter(s, m));
  }

  lemma {:induction false} ExecuteKeeps(moves: seq<Move>)
    ensures SystemInv(Execute(moves))
  {
    if |moves| == 0 {
      FreshStoreInv();
    } else {
      ExecuteKeeps(moves[..|moves| - 1]);
      MoveKeeps(Execute(moves[..|moves| - 1]), moves[|moves| - 1]);
    }
  }

  // Theorem: every schedule of workers, with stalls, expiries, takeovers and crashes, is a
  // run of disciplined actions; so every result about runs is a result about workers.
  lemma {:induction false} WorkersRefineRuns(moves: seq<Move>) returns (acts: seq<Action>)
    ensures Execute(moves).store == Run(FRESH, acts)
  {
    if |moves| == 0 {
      acts := [];
    } else {
      var before := Execute(moves[..|moves| - 1]);
      var m := moves[|moves| - 1];
      acts := WorkersRefineRuns(moves[..|moves| - 1]);
      ExecuteKeeps(moves[..|moves| - 1]);
      MoveDisciplined(before, m);
      if ActionOf(before, m).Some? {
        RunSnoc(FRESH, acts, ActionOf(before, m).value);
        acts := acts + [ActionOf(before, m).value];
      }
    }
  }
}
