// What a lease does and does not fence, under a clock that never runs backwards.
module LeaseFence {
  import opened Base
  import opened Domain
  import opened Tables
  import opened Transactions
  import opened JournalInvariants
  import opened Storage
  import opened Workers
  import Text

  function Row(leases: map<string, LeaseRow>, t: string): Option<LeaseRow> {
    if t in leases then Some(leases[t]) else None
  }

  // One lease row over one action: kept, removed, or replaced by a later-expiring row of
  // the same owner or, once expired, of any owner.
  ghost predicate RowMoves(before: Option<LeaseRow>, after: Option<LeaseRow>, nowMs: int) {
    || after == before
    || after.None?
    || (after.value.expiresAtMs > nowMs
        && (before.Some? ==> before.value.ownerId == after.value.ownerId || before.value.expiresAtMs <= nowMs))
  }

  ghost predicate RowsMove(before: map<string, LeaseRow>, after: map<string, LeaseRow>, nowMs: int) {
    forall t :: RowMoves(Row(before, t), Row(after, t), nowMs)
  }

  // On whose behalf an action touches leases.
  function ActingOwner(act: Action): Option<string> {
    match act
    case Append(r) => if r.lease.Some? then Some(r.lease.value.row.ownerId) else None
    case Acquire(_, o, _, _) => Some(o)
    case Release(lease) => Some(lease.row.ownerId)
    case _ => None
  }

  lemma AppendLeases(db: Db, a: AppendRequest)
    ensures var after := AppendTaskEvent(db, a).db.leases;
            || after == db.leases
            || (AppendTaskEvent(db, a).result.Ok?
                && a.expectedLease.Some?
                && a.leaseCheckedAtMs.Some?
                && LeaseValidates(db, a.expectedLease.value, a.leaseCheckedAtMs.value)
                && after == WithoutLease(db.leases, a.expectedLease.value.taskId))
  {
    if AppendTaskEvent(db, a).result == Ok(Created) {
      CreatedMeansAppended(db, a);
    }
  }

  // An accepted append under a lease proved that the lease's exact row was there, and
  // consumed it.
  lemma AcceptedUnderLease(db: Db, a: AppendRequest)
    requires AppendTaskEvent(db, a).result.Ok? && a.expectedLease.Some?
    ensures a.leaseCheckedAtMs.Some?
    ensures LeaseValidates(db, a.expectedLease.value, a.leaseCheckedAtMs.value)
    ensures AppendTaskEvent(db, a).db.leases == WithoutLease(db.leases, a.expectedLease.value.taskId)
  {
    if AppendTaskEvent(db, a).result == Ok(Created) {
      CreatedMeansAppended(db, a);
    }
  }

  // Theorem: no call removes or replaces another owner's row, except that an acquisition
  // replaces an expired one.
  lemma ForeignRowsKept(store: Store, act: Action, t: string)
    requires t in store.db.leases && ActingOwner(act) != Some(store.db.leases[t].ownerId)
    requires act.Acquire? ==> act.nowMs < store.db.leases[t].expiresAtMs
    ensures Row(Perform(store, act).db.leases, t) == Row(store.db.leases, t)
  {
    match act
    case Append(r) => AppendLeases(store.db, RecordRequest(r));
    case Acquire(u, o, now, ttl) => AcquireEffect(store.db, u, o, now, ttl);
    case Release(_) =>
    case Put(_, _) =>
    case Post(m) => PostEffect(store.db, m);
    case Publish(n) => PublishEffect(store.db, n);
  }

  lemma ActionMovesRows(store: Store, act: Action, nowMs: int)
    requires act.Acquire? ==> act.nowMs == nowMs
    ensures RowsMove(store.db.leases, Perform(store, act).db.leases, nowMs)
  {
    match act
    case Append(r) => AppendLeases(store.db, RecordRequest(r));
    case Acquire(u, o, now, ttl) => AcquireEffect(store.db, u, o, now, ttl);
    case Release(_) =>
    case Put(_, _) =>
    case Post(m) => PostEffect(store.db, m);
    case Publish(n) => PublishEffect(store.db, n);
  }

  // Theorem: at most one token of a task passes validation, whenever it is checked.
  lemma OneTokenValidates(db: Db, a: LeaseRecord, aCheckedAtMs: int, b: LeaseRecord, bCheckedAtMs: int)
    requires LeaseValidates(db, a, aCheckedAtMs) && LeaseValidates(db, b, bCheckedAtMs) && a.taskId == b.taskId
    ensures a == b
  {
  }

  // ---- Tokens that have been taken over ----

  // The token has expired and its exact row is gone.
  ghost predicate Superseded(leases: map<string, LeaseRow>, nowMs: int, token: LeaseRecord) {
    token.row.expiresAtMs <= nowMs && Row(leases, token.taskId) != Some(token.row)
  }

  // A takeover by another owner supersedes the token it replaces.
  lemma TakeoverSupersedes(db: Db, token: LeaseRecord, ownerId: string, nowMs: int, ttlMs: int)
    requires Row(db.leases, token.taskId) == Some(token.row) && ownerId != token.row.ownerId
    requires AcquireLease(db, token.taskId, ownerId, nowMs, ttlMs).result.Ok?
    ensures Superseded(AcquireLease(db, token.taskId, ownerId, nowMs, ttlMs).db.leases, nowMs, token)
  {
    AcquireEffect(db, token.taskId, ownerId, nowMs, ttlMs);
  }

  lemma ActionAtNow(s: System, m: Move)
    ensures ActionOf(s, m).Some? && ActionOf(s, m).value.Acquire? ==> ActionOf(s, m).value.nowMs == s.nowMs
  {
  }

  lemma MoveMovesRows(s: System, m: Move)
    ensures RowsMove(s.store.db.leases, Next(s, m).store.db.leases, s.nowMs)
    ensures s.nowMs <= Next(s, m).nowMs
  {
    ActionAtNow(s, m);
    if ActionOf(s, m).Some? {
      ActionMovesRows(s.store, ActionOf(s, m).value, s.nowMs);
    }
  }

  // Theorem: a superseded token stays superseded through every further schedule.
  lemma {:induction false} SupersededForever(moves: seq<Move>, i: nat, token: LeaseRecord)
    requires i <= |moves|
    requires var s := Execute(moves[..i]); Superseded(s.store.db.leases, s.nowMs, token)
    ensures var s := Execute(moves); Superseded(s.store.db.leases, s.nowMs, token)
    decreases |moves|
  {
    if i == |moves| {
      assert moves[..i] == moves;
    } else {
      var init := moves[..|moves| - 1];
      assert init[..i] == moves[..i];
      SupersededForever(init, i, token);
      var s := Execute(init);
      MoveMovesRows(s, moves[|moves| - 1]);
      assert RowMoves(Row(s.store.db.leases, token.taskId), Row(Execute(moves).store.db.leases, token.taskId), s.nowMs);
    }
  }

  // Theorem: a token that another owner took over never commits again, neither a new
  // event nor a replay.
  lemma SupersededNeverCommits(moves: seq<Move>, i: nat, token: LeaseRecord, a: AppendRequest)
    requires i <= |moves|
    requires var s := Execute(moves[..i]); Superseded(s.store.db.leases, s.nowMs, token)
    requires a.expectedLease == Some(token)
    ensures AppendTaskEvent(Execute(moves).store.db, a).result.Err?
  {
    SupersededForever(moves, i, token);
    if AppendTaskEvent(Execute(moves).store.db, a).result.Ok? {
      AcceptedUnderLease(Execute(moves).store.db, a);
    }
  }

  // ---- Leaving ----

  lemma CommitConsumes(store: Store, nowMs: int, p: Phase)
    requires p.Prepared? && PhaseOk(store, p) && After(store, nowMs, p, Commit).Idle?
    ensures LeaseValidates(store.db, p.lease, p.record.projection.updatedAtMs)
    ensures Perform(store, Append(p.record)).db.leases == WithoutLease(store.db.leases, p.lease.taskId)
  {
    AcceptedUnderLease(store.db, RecordRequest(p.record));
  }

  lemma ReleaseUnmatches(db: Db, lease: LeaseRecord)
    ensures !LeaseMatches(ReleaseLease(db, lease).db, lease)
  {
  }

  // Theorem: a worker that leaves without committing leaves no row its token matches, and
  // one that commits leaves no row at all.
  lemma ExitLeavesNoRow(store: Store, nowMs: int, p: Phase, stride: Stride)
    requires PhaseOk(store, p) && !p.Idle? && !stride.Crash? && After(store, nowMs, p, stride).Idle?
    ensures Doing(store, nowMs, p, stride).Some?
    ensures !LeaseMatches(Perform(store, Doing(store, nowMs, p, stride).value).db, p.lease)
    ensures stride.Commit? ==> p.lease.taskId !in Perform(store, Append(p.record)).db.leases
  {
    if stride.Commit? {
      CommitConsumes(store, nowMs, p);
    } else {
      ReleaseUnmatches(store.db, p.lease);
    }
  }

  // A release deletes the row of its task or leaves every row alone. What it deletes is not
  // the row the token was issued for exactly when the row there has the token's owner and
  // revision and another expiry: revisions restart once a row is deleted.
  lemma ReleaseTakesAnotherIff(db: Db, lease: LeaseRecord)
    ensures var after := ReleaseLease(db, lease).db.leases;
            var row := Row(db.leases, lease.taskId);
            && (Row(after, lease.taskId) != row && row != Some(lease.row)
                <==> && row.Some? && row.value.ownerId == lease.row.ownerId && row.value.revision == lease.row.revision
                     && row.value.expiresAtMs != lease.row.expiresAtMs)
            && (Row(after, lease.taskId) != row ==> Row(after, lease.taskId).None?)
            && (forall t :: t != lease.taskId ==> Row(after, t) == Row(db.leases, t))
  {
  }

  // Theorem: in the hands of one owner, a token taken, freed and taken again later leaves a
  // forgotten first token that releases the second row, and that no validation accepts.
  lemma ReleaseForgetsExpiry(db: Db, t: string, o: string, first: int, second: int, ttlMs: int)
    requires t in db.projections && t !in db.leases && Text.IsLabel(o)
    requires 0 <= first < second && ttlMs >= 1
    ensures var one := AcquireLease(db, t, o, first, ttlMs);
            var freed := ReleaseLease(one.db, one.result.value).db;
            var two := AcquireLease(freed, t, o, second, ttlMs);
            && one.result.Ok? && two.result.Ok?
            && ReleaseLease(two.db, one.result.value).result.Ok?
            && t !in ReleaseLease(two.db, one.result.value).db.leases
            && forall c :: !LeaseValidates(two.db, one.result.value, c)
  {
  }

  // ---- Mutual exclusion in time ----

  // Each worker acquires under one owner name, and no two workers share one.
  ghost predicate OwnNames(owner: int -> string, moves: seq<Move>) {
    && (forall v, w :: owner(v) == owner(w) ==> v == w)
    && (forall i :: 0 <= i < |moves| ==> UsesOwnName(owner, moves[i]))
  }

  ghost predicate UsesOwnName(owner: int -> string, m: Move) {
    m.Work? && m.stride.Start? ==> m.stride.ownerId == owner(m.w)
  }

  // An unexpired token in a worker's hand is the row of its task.
  ghost predicate HoldsRow(leases: map<string, LeaseRow>, nowMs: int, ownerId: string, p: Phase) {
    !p.Idle? ==>
      p.lease.row.ownerId == ownerId && (nowMs < p.lease.row.expiresAtMs ==> Row(leases, p.lease.taskId) == Some(p.lease.row))
  }

  ghost predicate AllHold(owner: int -> string, s: System) {
    forall w :: w in s.workers ==> HoldsRow(s.store.db.leases, s.nowMs, owner(w), s.workers[w])
  }

  // Only its own worker's actions carry a worker's name.
  lemma ActsInOwnName(owner: int -> string, s: System, m: Move)
    requires SystemInv(s) && AllHold(owner, s) && UsesOwnName(owner, m)
    requires ActionOf(s, m).Some? && ActingOwner(ActionOf(s, m).value).Some?
    ensures m.Work? && ActingOwner(ActionOf(s, m).value) == Some(owner(m.w))
  {
    if m.Work? && !PhaseOf(s, m.w).Idle? {
      assert HoldsRow(s.store.db.leases, s.nowMs, owner(m.w), s.workers[m.w]);
      assert PhaseOk(s.store, s.workers[m.w]);
    }
  }

  // A row held by someone else, unexpired, survives an action in another name.
  lemma HeldRowKept(store: Store, act: Action, nowMs: int, ownerId: string, p: Phase)
    requires HoldsRow(store.db.leases, nowMs, ownerId, p)
    requires act.Acquire? ==> act.nowMs == nowMs
    requires ActingOwner(act) != Some(ownerId)
    ensures HoldsRow(Perform(store, act).db.leases, nowMs, ownerId, p)
  {
    if !p.Idle? && nowMs < p.lease.row.expiresAtMs {
      ForeignRowsKept(store, act, p.lease.taskId);
    }
  }

  lemma OthersHold(owner: int -> string, s: System, m: Move, w: int)
    requires SystemInv(s) && AllHold(owner, s) && UsesOwnName(owner, m)
    requires forall u, v :: owner(u) == owner(v) ==> u == v
    requires w in s.workers && !(m.Work? && m.w == w)
    ensures HoldsRow(Next(s, m).store.db.leases, s.nowMs, owner(w), s.workers[w])
  {
    hide StoreInv, PhasesOk, HoldsRow, ActionOf, Perform;
    if ActionOf(s, m).Some? {
      ActionAtNow(s, m);
      if ActingOwner(ActionOf(s, m).value).Some? {
        ActsInOwnName(owner, s, m);
      }
      HeldRowKept(s.store, ActionOf(s, m).value, s.nowMs, owner(w), s.workers[w]);
    }
  }

  lemma StarterHolds(db: Db, t: string, o: string, nowMs: int, ttl: int)
    requires AcquireLease(db, t, o, nowMs, ttl).result.Ok?
    ensures HoldsRow(AcquireLease(db, t, o, nowMs, ttl).db.leases, nowMs, o,
                     Leased(AcquireLease(db, t, o, nowMs, ttl).result.value))
  {
    AcquireEffect(db, t, o, nowMs, ttl);
  }

  // The moving worker keeps its row until it commits or leaves.
  lemma MoverHolds(store: Store, nowMs: int, ownerId: string, p: Phase, stride: Stride)
    requires PhaseOk(store, p) && HoldsRow(store.db.leases, nowMs, ownerId, p)
    requires stride.Start? ==> stride.ownerId == ownerId
    ensures HoldsRow(LeasesAfter(store, Doing(store, nowMs, p, stride)), nowMs, ownerId, After(store, nowMs, p, stride))
  {
    hide PhaseOk, AppendTaskEvent, AcquireLease;
    match stride
    case Start(t, o, ttl) =>
      if p.Idle? && AcquireLease(store.db, t, o, nowMs, ttl).result.Ok? {
        StarterHolds(store.db, t, o, nowMs, ttl);
      }
    case Commit =>
      if p.Prepared? {
        RefusedKeeps(store.db, RecordRequest(p.record));
      }
    case _ =>
  }

  ghost function LeasesAfter(store: Store, act: Option<Action>): map<string, LeaseRow> {
    match act
    case None => store.db.leases
    case Some(a) => Perform(store, a).db.leases
  }

  lemma RefusedKeeps(db: Db, a: AppendRequest)
    ensures AppendTaskEvent(db, a).result.Err? ==> AppendTaskEvent(db, a).db.leases == db.leases
  {
    AppendLeases(db, a);
  }

  lemma MoveHolds(owner: int -> string, s: System, m: Move)
    requires SystemInv(s) && AllHold(owner, s) && UsesOwnName(owner, m)
    requires forall u, v :: owner(u) == owner(v) ==> u == v
    ensures AllHold(owner, Next(s, m))
  {
    var after := Next(s, m);
    forall w | w in after.workers
      ensures HoldsRow(after.store.db.leases, after.nowMs, owner(w), after.workers[w])
    {
      if m.Work? && m.w == w {
        MoverHolds(s.store, s.nowMs, owner(w), PhaseOf(s, w), m.stride);
      } else {
        OthersHold(owner, s, m, w);
      }
    }
  }

  lemma {:induction false} ExecuteHolds(owner: int -> string, moves: seq<Move>)
    requires OwnNames(owner, moves)
    ensures AllHold(owner, Execute(moves))
  {
    if |moves| > 0 {
      var init := moves[..|moves| - 1];
      ExecuteHolds(owner, init);
      ExecuteKeeps(init);
      assert UsesOwnName(owner, moves[|moves| - 1]);
      MoveHolds(owner, Execute(init), moves[|moves| - 1]);
    }
  }

  // Theorem: while owners are not shared, two workers never hold unexpired leases of one
  // task at once, and a holder's own lease validates until it expires.
  lemma UnexpiredLeasesExclude(owner: int -> string, moves: seq<Move>, v: int, w: int)
    requires OwnNames(owner, moves)
    requires var s := Execute(moves);
             && !PhaseOf(s, v).Idle? && s.nowMs < PhaseOf(s, v).lease.row.expiresAtMs
             && !PhaseOf(s, w).Idle? && s.nowMs < PhaseOf(s, w).lease.row.expiresAtMs
             && PhaseOf(s, v).lease.taskId == PhaseOf(s, w).lease.taskId
    ensures v == w
    ensures var s := Execute(moves); LeaseValidates(s.store.db, PhaseOf(s, w).lease, s.nowMs)
  {
    var s := Execute(moves);
    ExecuteHolds(owner, moves);
    assert HoldsRow(s.store.db.leases, s.nowMs, owner(v), s.workers[v]);
    assert HoldsRow(s.store.db.leases, s.nowMs, owner(w), s.workers[w]);
  }

  // ---- When a token matches only the row it was issued for ----

  // The token is the worker's own, and a row of its task in the worker's name is its row.
  ghost predicate OwnsRow(leases: map<string, LeaseRow>, ownerId: string, p: Phase) {
    !p.Idle? ==>
      && p.lease.row.ownerId == ownerId
      && (p.lease.taskId in leases && leases[p.lease.taskId].ownerId == ownerId ==> leases[p.lease.taskId] == p.lease.row)
  }

  ghost predicate AllOwn(owner: int -> string, s: System) {
    forall w :: w in s.workers ==> OwnsRow(s.store.db.leases, owner(w), s.workers[w])
  }

  // An action in another name brings no row in this one.
  lemma ForeignActsBringNoRow(store: Store, act: Action, t: string, ownerId: string)
    requires ActingOwner(act) != Some(ownerId)
    requires var after := Perform(store, act).db.leases; t in after && after[t].ownerId == ownerId
    ensures Row(store.db.leases, t) == Row(Perform(store, act).db.leases, t)
  {
    match act
    case Append(r) => AppendLeases(store.db, RecordRequest(r));
    case Acquire(u, o, now, ttl) => AcquireEffect(store.db, u, o, now, ttl);
    case Release(_) =>
    case Put(_, _) =>
    case Post(m) => PostEffect(store.db, m);
    case Publish(n) => PublishEffect(store.db, n);
  }

  lemma OwnRowKept(store: Store, act: Action, ownerId: string, p: Phase)
    requires OwnsRow(store.db.leases, ownerId, p) && ActingOwner(act) != Some(ownerId)
    ensures OwnsRow(Perform(store, act).db.leases, ownerId, p)
  {
    hide Perform, ActingOwner;
    var after := Perform(store, act).db.leases;
    if !p.Idle? && p.lease.taskId in after && after[p.lease.taskId].ownerId == ownerId {
      ForeignActsBringNoRow(store, act, p.lease.taskId, ownerId);
    }
  }

  lemma StarterOwns(db: Db, t: string, o: string, nowMs: int, ttl: int)
    requires AcquireLease(db, t, o, nowMs, ttl).result.Ok?
    ensures OwnsRow(AcquireLease(db, t, o, nowMs, ttl).db.leases, o, Leased(AcquireLease(db, t, o, nowMs, ttl).result.value))
  {
    AcquireEffect(db, t, o, nowMs, ttl);
  }

  lemma MoverOwns(store: Store, nowMs: int, ownerId: string, p: Phase, stride: Stride)
    requires OwnsRow(store.db.leases, ownerId, p)
    requires stride.Start? ==> stride.ownerId == ownerId
    ensures OwnsRow(LeasesAfter(store, Doing(store, nowMs, p, stride)), ownerId, After(store, nowMs, p, stride))
  {
    hide AppendTaskEvent, AcquireLease;
    match stride
    case Start(t, o, ttl) =>
      if p.Idle? && AcquireLease(store.db, t, o, nowMs, ttl).result.Ok? {
        StarterOwns(store.db, t, o, nowMs, ttl);
      }
    case Commit =>
      if p.Prepared? {
        RefusedKeeps(store.db, RecordRequest(p.record));
      }
    case _ =>
  }

  // Only its own worker's actions carry a worker's name; expiry plays no part here.
  lemma NamesAreOwn(owner: int -> string, s: System, m: Move)
    requires SystemInv(s) && AllOwn(owner, s) && UsesOwnName(owner, m)
    requires ActionOf(s, m).Some? && ActingOwner(ActionOf(s, m).value).Some?
    ensures m.Work? && ActingOwner(ActionOf(s, m).value) == Some(owner(m.w))
  {
    if m.Work? && !PhaseOf(s, m.w).Idle? {
      assert OwnsRow(s.store.db.leases, owner(m.w), s.workers[m.w]);
      assert PhaseOk(s.store, s.workers[m.w]);
    }
  }

  lemma MoveOwns(owner: int -> string, s: System, m: Move)
    requires SystemInv(s) && AllOwn(owner, s) && UsesOwnName(owner, m)
    requires forall u, v :: owner(u) == owner(v) ==> u == v
    ensures AllOwn(owner, Next(s, m))
  {
    hide StoreInv, PhasesOk, OwnsRow, ActionOf, Perform, Doing, After;
    var after := Next(s, m);
    forall w | w in after.workers
      ensures OwnsRow(after.store.db.leases, owner(w), after.workers[w])
    {
      if m.Work? && m.w == w {
        MovingWorkerOwns(owner, s, m);
      } else if ActionOf(s, m).Some? {
        if ActingOwner(ActionOf(s, m).value).Some? {
          NamesAreOwn(owner, s, m);
        }
        OwnRowKept(s.store, ActionOf(s, m).value, owner(w), s.workers[w]);
      }
    }
  }

  lemma MovingWorkerOwns(owner: int -> string, s: System, m: Move)
    requires AllOwn(owner, s) && UsesOwnName(owner, m) && m.Work?
    ensures OwnsRow(Next(s, m).store.db.leases, owner(m.w), Next(s, m).workers[m.w])
  {
    MoverOwns(s.store, s.nowMs, owner(m.w), PhaseOf(s, m.w), m.stride);
  }

  lemma {:induction false} ExecuteOwns(owner: int -> string, moves: seq<Move>)
    requires OwnNames(owner, moves)
    ensures AllOwn(owner, Execute(moves))
  {
    if |moves| > 0 {
      var init := moves[..|moves| - 1];
      ExecuteOwns(owner, init);
      ExecuteKeeps(init);
      assert UsesOwnName(owner, moves[|moves| - 1]);
      MoveOwns(owner, Execute(init), moves[|moves| - 1]);
    }
  }

  // Theorem: while owners are not shared, a token in a worker's hand matches a row if and
  // only if it is the row the token was issued for, expired or not; so what the worker
  // releases or consumes is its own.
  lemma TokensMatchTheirOwnRow(owner: int -> string, moves: seq<Move>, w: int)
    requires OwnNames(owner, moves) && !PhaseOf(Execute(moves), w).Idle?
    ensures var s := Execute(moves);
            var lease := PhaseOf(s, w).lease;
            && (LeaseMatches(s.store.db, lease) <==> Row(s.store.db.leases, lease.taskId) == Some(lease.row))
            && (Row(ReleaseLease(s.store.db, lease).db.leases, lease.taskId) != Row(s.store.db.leases, lease.taskId) ==>
                  Row(s.store.db.leases, lease.taskId) == Some(lease.row))
  {
    hide StoreAfter;
    var s := Execute(moves);
    ExecuteOwns(owner, moves);
    assert OwnsRow(s.store.db.leases, owner(w), s.workers[w]);
  }
}
