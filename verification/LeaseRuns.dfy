// Two workers that share one owner name: a schedule in which one of them releases the
// other's unexpired lease.
module LeaseRuns {
  import opened Base
  import opened Domain
  import opened Tables
  import opened Transactions
  import opened Storage
  import opened Workers
  import opened Snapshots
  import opened LeaseFence
  import opened Beginnings
  import Text

  lemma ExecuteSnoc(moves: seq<Move>, m: Move)
    ensures Execute(moves + [m]) == Next(Execute(moves), m)
  {
    hide Next;
    assert (moves + [m])[..|moves|] == moves;
  }

  // What an acquisition by the only owner about does.
  lemma StartStep(s: System, w: int, t: string, o: string, ttlMs: int)
    requires PhaseOf(s, w).Idle? && t in s.store.db.projections && Text.IsLabel(o) && s.nowMs >= 0 && ttlMs >= 1
    requires t in s.store.db.leases ==> s.store.db.leases[t].ownerId == o
    ensures var n := Next(s, Work(w, Start(t, o, ttlMs)));
            var row := LeaseRow(o, if t in s.store.db.leases then s.store.db.leases[t].revision + 1 else 1, s.nowMs + ttlMs);
            && n.store.db == s.store.db.(leases := s.store.db.leases[t := row])
            && n.nowMs == s.nowMs
            && n.workers == s.workers[w := Leased(LeaseRecord(t, row))]
  {
  }

  lemma GiveUpStep(s: System, w: int)
    requires !PhaseOf(s, w).Idle?
    ensures Next(s, Work(w, GiveUp)) == s.(workers := s.workers[w := Leaving(PhaseOf(s, w).lease)])
  {
  }

  lemma LeaveStep(s: System, w: int)
    requires PhaseOf(s, w).Leaving? && LeaseMatches(s.store.db, PhaseOf(s, w).lease)
    ensures var n := Next(s, Work(w, Leave));
            && n.store.db == s.store.db.(leases := WithoutLease(s.store.db.leases, PhaseOf(s, w).lease.taskId))
            && n.nowMs == s.nowMs
            && n.workers == s.workers[w := Idle]
  {
  }

  function Prologue(): seq<Move> {
    [Other(Put(EVENT_OBJECT_KIND, PayloadJson(FirstOfAll())))] + [Other(Append(FirstOfAll()))]
  }

  lemma PrologueBegins()
    ensures Execute(Prologue()) == System(Begun(), 0, map[])
  {
    hide AppendTaskEvent, PayloadJson, Disciplined, StoreInv, Perform;
    var put, append := Put(EVENT_OBJECT_KIND, PayloadJson(FirstOfAll())), Append(FirstOfAll());
    WrittenIsReady();
    ExecuteSnoc([], Other(put));
    assert [] + [Other(put)] == [Other(put)];
    ExecuteSnoc([Other(put)], Other(append));
  }

  const OWNER := "host"

  // Worker 0 takes the lease and stalls. Worker 1 renews it in the same name, gives it back
  // and takes it once more, a millisecond later. Worker 0 wakes up and gives up.
  function Renewed(): seq<Move> {
    Prologue() + [Work(0, Start(TASK, OWNER, 10))] + [Work(1, Start(TASK, OWNER, 10))]
  }

  function GivenBack(): seq<Move> {
    Renewed() + [Work(1, GiveUp)] + [Work(1, Leave)] + [Tick(1)]
  }

  function Schedule(): seq<Move> {
    GivenBack() + [Work(1, Start(TASK, OWNER, 10))] + [Work(0, GiveUp)]
  }

  ghost predicate Stands(s: System, nowMs: int, leases: map<string, LeaseRow>, workers: map<int, Phase>) {
    s.nowMs == nowMs && s.store.db.leases == leases && s.workers == workers && TASK in s.store.db.projections
  }

  function Token(revision: int, expiresAtMs: int): LeaseRecord {
    LeaseRecord(TASK, LeaseRow(OWNER, revision, expiresAtMs))
  }

  lemma RenewedRuns()
    ensures Stands(Execute(Renewed()), 0, map[TASK := Token(2, 10).row], map[0 := Leased(Token(1, 10)), 1 := Leased(Token(2, 10))])
  {
    hide Execute, Next, Begun, StoreInv, SnapshotAt, FindEvent, FirstOfAll, Prologue;
    PrologueBegins();
    BegunFacts();
    var a, one, two := Prologue(), Work(0, Start(TASK, OWNER, 10)), Work(1, Start(TASK, OWNER, 10));
    ExecuteSnoc(a, one);
    StartStep(Execute(a), 0, TASK, OWNER, 10);
    ExecuteSnoc(a + [one], two);
    StartStep(Execute(a + [one]), 1, TASK, OWNER, 10);
  }

  lemma GivenBackRuns()
    ensures Stands(Execute(GivenBack()), 1, map[], map[0 := Leased(Token(1, 10)), 1 := Idle])
  {
    hide Execute, Next, Renewed;
    RenewedRuns();
    var c := Renewed();
    ExecuteSnoc(c, Work(1, GiveUp));
    GiveUpStep(Execute(c), 1);
    var d := c + [Work(1, GiveUp)];
    ExecuteSnoc(d, Work(1, Leave));
    LeaveStep(Execute(d), 1);
    var e := d + [Work(1, Leave)];
    ExecuteSnoc(e, Tick(1));
    TickStep(Execute(e), 1);
  }

  lemma ScheduleRuns()
    ensures Stands(Execute(Schedule()), 1, map[TASK := Token(1, 11).row], map[0 := Leaving(Token(1, 10)), 1 := Leased(Token(1, 11))])
  {
    hide Execute, Next, GivenBack;
    GivenBackRuns();
    var f, again := GivenBack(), Work(1, Start(TASK, OWNER, 10));
    ExecuteSnoc(f, again);
    StartStep(Execute(f), 1, TASK, OWNER, 10);
    ExecuteSnoc(f + [again], Work(0, GiveUp));
    GiveUpStep(Execute(f + [again]), 0);
  }

  lemma TickStep(s: System, toMs: int)
    requires s.nowMs <= toMs
    ensures Next(s, Tick(toMs)) == s.(nowMs := toMs)
  {
  }

  // Theorem: when two workers share an owner name, one can hold a token that matches a row
  // it was not issued for, and leaving with it deletes the other's unexpired lease.
  lemma SharedNameReleasesForeignRow()
    ensures exists moves, v, w ::
              var s := Execute(moves);
              var after := Execute(moves + [Work(v, Leave)]);
              && v != w && !PhaseOf(s, v).Idle? && PhaseOf(after, w).Leased?
              && PhaseOf(s, v).lease.row.ownerId == PhaseOf(after, w).lease.row.ownerId
              && LeaseMatches(s.store.db, PhaseOf(s, v).lease)
              && Row(s.store.db.leases, PhaseOf(s, v).lease.taskId) == Some(PhaseOf(after, w).lease.row)
              && Row(s.store.db.leases, PhaseOf(s, v).lease.taskId) != Some(PhaseOf(s, v).lease.row)
              && after.nowMs < PhaseOf(after, w).lease.row.expiresAtMs
              && PhaseOf(after, w).lease.taskId !in after.store.db.leases
  {
    hide Execute, Next, Schedule;
    ScheduleRuns();
    ExecuteSnoc(Schedule(), Work(0, Leave));
    LeaveStep(Execute(Schedule()), 0);
    assert PhaseOf(Execute(Schedule() + [Work(0, Leave)]), 1).Leased?;
  }
}
