// How a store may change while a reader or a stalled writer is not looking, and what
// follows for whole runs: sequential histories, at most one commit a revision.
module Evolution {
  import opened Base
  import opened Json
  import opened Domain
  import opened Tables
  import opened Transactions
  import opened JournalInvariants
  import opened Storage

  // The extension pointers of one task are the same in both databases.
  ghost predicate SamePointers(
    before: map<ExtensionKey, ExtensionRow>, after: map<ExtensionKey, ExtensionRow>, t: string)
  {
    forall ns :: Pointer(after, t, ns) == Pointer(before, t, ns)
  }

  function Pointer(extensions: map<ExtensionKey, ExtensionRow>, t: string, ns: string): Option<ExtensionRow> {
    if ExtensionKey(t, ns) in extensions then Some(extensions[ExtensionKey(t, ns)]) else None
  }

  // What readers see of tasks: projections and extension pointers.
  datatype Tasks = Tasks(projections: map<string, TaskProjection>, extensions: map<ExtensionKey, ExtensionRow>)

  function TasksOf(store: Store): Tasks {
    Tasks(store.db.projections, store.db.extensions)
  }

  // A task only moves forward, and everything attached to a revision moves with it.
  ghost predicate TaskAdvances(before: Tasks, after: Tasks, t: string)
    requires t in before.projections
  {
    && t in after.projections
    && after.projections[t].goalId == before.projections[t].goalId
    && before.projections[t].revision <= after.projections[t].revision
    && (before.projections[t].revision == after.projections[t].revision ==>
          after.projections[t] == before.projections[t] && SamePointers(before.extensions, after.extensions, t))
    && (forall ns :: Pointer(before.extensions, t, ns).Some? ==> Pointer(after.extensions, t, ns).Some?)
  }

  ghost predicate TasksAdvance(before: Tasks, after: Tasks) {
    forall t :: t in before.projections ==> TaskAdvances(before, after, t)
  }

  ghost predicate EdgesKept(before: map<string, map<Digest, Role>>, after: map<string, map<Digest, Role>>) {
    forall e :: e in before ==> e in after && after[e] == before[e]
  }

  ghost predicate Evolves(before: Store, after: Store) {
    && before.cas <= after.cas
    && before.db.events <= after.db.events
    && before.db.board <= after.db.board
    && before.db.publications <= after.db.publications
    && ObjectsGrow(before.db.objects, after.db.objects)
    && EdgesKept(before.db.edges, after.db.edges)
    && TasksAdvance(TasksOf(before), TasksOf(after))
  }

  lemma EvolvesReflexive(store: Store)
    ensures Evolves(store, store)
  {
  }

  lemma TasksAdvanceTransitive(a: Tasks, b: Tasks, c: Tasks)
    requires TasksAdvance(a, b) && TasksAdvance(b, c)
    ensures TasksAdvance(a, c)
  {
    forall t | t in a.projections
      ensures TaskAdvances(a, c, t)
    {
      assert TaskAdvances(a, b, t) && TaskAdvances(b, c, t);
    }
  }

  lemma EvolvesTransitive(a: Store, b: Store, c: Store)
    requires Evolves(a, b) && Evolves(b, c)
    ensures Evolves(a, c)
  {
    TasksAdvanceTransitive(TasksOf(a), TasksOf(b), TasksOf(c));
  }

  // One more revision of one task, with at most one of its own pointers moved.
  lemma TasksAfterAppend(before: Tasks, after: Tasks, p: TaskProjection, x: Option<(string, ExtensionRow)>)
    requires p.taskId in before.projections ==> Succeeds(before.projections[p.taskId], p)
    requires after.projections == before.projections[p.taskId := p]
    requires after.extensions == match x
                                 case None => before.extensions
                                 case Some(y) => before.extensions[ExtensionKey(p.taskId, y.0) := y.1]
    ensures TasksAdvance(before, after)
  {
  }

  // What a created append does to the tasks.
  lemma AppendedTasks(store: Store, r: Record, after: Db)
    requires StoreInv(store) && Disciplined(store, Append(r)) && AppendedBy(store.db, RecordRequest(r), after)
    ensures TasksAdvance(TasksOf(store), Tasks(after.projections, after.extensions))
  {
    var t := r.projection.taskId;
    if t in store.db.projections {
      CurrentEvent(store.db, t);
    }
    var x := match r.extension
      case None => None
      case Some(e) => Some((e.ns, ExtensionRow(e.stored.digest, r.eventId, r.projection.revision, false)));
    TasksAfterAppend(TasksOf(store), Tasks(after.projections, after.extensions), r.projection, x);
  }

  lemma AppendedRows(db: Db, a: AppendRequest, after: Db)
    requires AppendedBy(db, a, after) && EdgeInv(db.events, db.edges, db.objects, db.boundary)
    ensures db.events <= after.events && after.board == db.board && after.publications == db.publications
    ensures ObjectsGrow(db.objects, after.objects) && EdgesKept(db.edges, after.edges)
  {
    assert a.event.eventId !in db.edges;
  }

  lemma AppendEvolves(store: Store, r: Record)
    requires StoreInv(store) && Disciplined(store, Append(r))
    ensures Evolves(store, Perform(store, Append(r)))
  {
    hide AppendTaskEvent, Disciplined, PayloadJson, StreamInv, HistoryInv, ExtensionInv, LeaseInv, BoardInv, NewsInv, TimingInv;
    hide Admitted, Preflight, AdmissionRefusal, EventEdges, TasksAdvance, ObjectsGrow, TaskProjection.WellFormed;
    var a := RecordRequest(r);
    var after := AppendTaskEvent(store.db, a).db;
    if AppendTaskEvent(store.db, a).result == Ok(Created) {
      CreatedMeansAppended(store.db, a);
      AppendedTasks(store, r, after);
      AppendedRows(store.db, a, after);
    } else {
      NotCreatedMeansKept(store.db, a);
      SideTablesEvolve(store, after);
    }
  }

  lemma SideTablesEvolve(store: Store, after: Db)
    requires after.events == store.db.events && after.edges == store.db.edges
    requires after.projections == store.db.projections && after.extensions == store.db.extensions
    requires store.db.board <= after.board && store.db.publications <= after.publications
    requires ObjectsGrow(store.db.objects, after.objects)
    ensures Evolves(store, store.(db := after))
  {
  }

  lemma PostEvolves(store: Store, m: BoardRequest)
    ensures Evolves(store, Perform(store, Post(m)))
  {
    PostEffect(store.db, m);
    if AppendBoardMessage(store.db, m).result == Ok(Created) {
      OneAdmission(store.db.objects, m.stored, m.row.recordedAtMs, OnAccess);
    }
    SideTablesEvolve(store, AppendBoardMessage(store.db, m).db);
  }

  lemma PublishEvolves(store: Store, n: NewsRequest)
    ensures Evolves(store, Perform(store, Publish(n)))
  {
    PublishEffect(store.db, n);
    if AppendNewsPublication(store.db, n).result == Ok(Created) {
      OneAdmission(store.db.objects, n.stored, n.recordedAtMs, OnAccess);
    }
    SideTablesEvolve(store, AppendNewsPublication(store.db, n).db);
  }

  lemma LeasesEvolve(store: Store, t: string, o: string, now: int, ttl: int, lease: LeaseRecord)
    ensures Evolves(store, Perform(store, Acquire(t, o, now, ttl)))
    ensures Evolves(store, Perform(store, Release(lease)))
  {
    AcquireEffect(store.db, t, o, now, ttl);
    SideTablesEvolve(store, AcquireLease(store.db, t, o, now, ttl).db);
    SideTablesEvolve(store, ReleaseLease(store.db, lease).db);
  }

  lemma PutEvolves(store: Store, kind: string, payload: Value)
    ensures Evolves(store, Perform(store, Put(kind, payload)))
  {
  }

  lemma StepEvolves(store: Store, act: Action)
    requires StoreInv(store)
    ensures Evolves(store, Step(store, act))
  {
    if !Disciplined(store, act) {
      EvolvesReflexive(store);
    } else {
      match act
      case Put(kind, payload) => PutEvolves(store, kind, payload);
      case Append(r) => AppendEvolves(store, r);
      case Acquire(t, o, now, ttl) => LeasesEvolve(store, t, o, now, ttl, LeaseRecord(t, LeaseRow(o, 1, now)));
      case Release(lease) => LeasesEvolve(store, "", "", 0, 0, lease);
      case Post(m) => PostEvolves(store, m);
      case Publish(n) => PublishEvolves(store, n);
    }
  }

  // Theorem: over any interleaving nothing that was recorded is lost or rewritten.
  lemma {:induction false} RunEvolves(store: Store, acts: seq<Action>)
    requires StoreInv(store)
    ensures Evolves(store, Run(store, acts))
  {
    if |acts| > 0 {
      var init := acts[..|acts| - 1];
      RunKeeps(store, init);
      RunEvolves(store, init);
      StepEvolves(Run(store, init), acts[|acts| - 1]);
      EvolvesTransitive(store, Run(store, init), Run(store, acts));
    }
  }

  lemma RunSnoc(store: Store, acts: seq<Action>, act: Action)
    ensures Run(store, acts + [act]) == Step(Run(store, acts), act)
  {
    assert (acts + [act])[..|acts|] == acts;
  }

  lemma {:induction false} RunSplit(store: Store, acts: seq<Action>, i: nat)
    requires i <= |acts|
    ensures Run(store, acts) == Run(Run(store, acts[..i]), acts[i..])
    decreases |acts|
  {
    if i < |acts| {
      var init := acts[..|acts| - 1];
      RunSplit(store, init, i);
      assert init[..i] == acts[..i];
      assert acts[i..][..|acts| - i - 1] == init[i..];
      assert acts[i..][|acts| - i - 1] == acts[|acts| - 1];
    } else {
      assert acts[..i] == acts;
    }
  }

  // ---- What a sequential history looks like ----

  // Over any two positions of a history: same identities, growing revisions and strictly
  // growing times, and nothing after a terminal state.
  lemma {:induction false} SequentialOrder(log: seq<EventRow>, i: nat, j: nat)
    requires SequentialLog(log) && i < j < |log|
    ensures var p := ProjectionOf(log[i]);
            var q := ProjectionOf(log[j]);
            && q.taskId == p.taskId
            && q.goalId == p.goalId
            && q.revision == p.revision + (j - i)
            && q.updatedAtMs > p.updatedAtMs
            && !p.state.Terminal()
    decreases j
  {
    assert Succeeds(ProjectionOf(log[j - 1]), ProjectionOf(log[j]));
    if i < j - 1 {
      SequentialOrder(log, i, j - 1);
    }
  }

  // Theorem: in every run each task's history is a sequential run of NextProjection.
  lemma HistoriesAreSequential(acts: seq<Action>, t: string, j: nat)
    requires var log := Log(Run(FRESH, acts).db.events, t); 0 < j < |log|
    ensures var log := Log(Run(FRESH, acts).db.events, t);
            && CanBecome(ProjectionOf(log[j - 1]), ProjectionOf(log[j]))
            && log[j].streamRevision == j + 1
            && ProjectionOf(log[j]).taskId == t
            && (forall i :: 0 <= i < j ==>
                  && ProjectionOf(log[i]).goalId == ProjectionOf(log[j]).goalId
                  && ProjectionOf(log[i]).updatedAtMs < ProjectionOf(log[j]).updatedAtMs
                  && !ProjectionOf(log[i]).state.Terminal())
  {
    var store := Run(FRESH, acts);
    var log := Log(store.db.events, t);
    FreshStoreInv();
    RunKeeps(FRESH, acts);
    LogMembers(store.db.events, t);
    assert log[j] in store.db.events && log[j - 1] in store.db.events && log[j].streamId == t;
    assert StreamOk(log, store.db.streams[t]);
    assert PayloadMatches(log[j]) && PayloadMatches(log[j - 1]);
    assert t in store.db.projections && SequentialLog(log);
    assert Succeeds(ProjectionOf(log[j - 1]), ProjectionOf(log[j]));
    SucceedsIffReachable(ProjectionOf(log[j - 1]), ProjectionOf(log[j]));
    forall i | 0 <= i < j
      ensures ProjectionOf(log[i]).goalId == ProjectionOf(log[j]).goalId
      ensures ProjectionOf(log[i]).updatedAtMs < ProjectionOf(log[j]).updatedAtMs
      ensures !ProjectionOf(log[i]).state.Terminal()
    {
      SequentialOrder(log, i, j);
    }
  }

  // The i-th action of a run is an append that was accepted as new.
  ghost predicate CommitsAt(store: Store, acts: seq<Action>, i: nat, t: string, expected: int) {
    && i < |acts|
    && acts[i].Append?
    && acts[i].record.projection.taskId == t
    && acts[i].record.expectedRevision == expected
    && Disciplined(Run(store, acts[..i]), acts[i])
    && AppendTaskEvent(Run(store, acts[..i]).db, RecordRequest(acts[i].record)).result == Ok(Created)
  }

  lemma RunExtends(store: Store, acts: seq<Action>, i: nat, j: nat)
    requires StoreInv(store) && i <= j <= |acts|
    ensures Evolves(Run(store, acts[..i]), Run(store, acts[..j]))
  {
    RunKeeps(store, acts[..i]);
    RunSplit(store, acts[..j], i);
    assert acts[..j][..i] == acts[..i];
    RunEvolves(Run(store, acts[..i]), acts[..j][i..]);
  }

  function Revision(store: Store, t: string): int {
    if t in store.db.projections then store.db.projections[t].revision else 0
  }

  lemma RevisionMonotone(before: Store, after: Store, t: string)
    requires StoreInv(before) && StoreInv(after) && Evolves(before, after)
    ensures 0 <= Revision(before, t) <= Revision(after, t)
  {
    if t in before.db.projections {
      CurrentEvent(before.db, t);
      assert TaskAdvances(TasksOf(before), TasksOf(after), t);
    } else if t in after.db.projections {
      CurrentEvent(after.db, t);
    }
  }

  // A commit needs the expected revision before it, and leaves the next one.
  lemma CommitFence(store: Store, r: Record)
    requires StreamInv(store.db.events, store.db.streams, store.db.projections)
    requires AppendTaskEvent(store.db, RecordRequest(r)).result == Ok(Created)
    ensures Revision(store, r.projection.taskId) == r.expectedRevision
    ensures Revision(Perform(store, Append(r)), r.projection.taskId) == r.expectedRevision + 1
  {
    var t := r.projection.taskId;
    CreatedMeansAppended(store.db, RecordRequest(r));
    if t in store.db.projections {
      assert ProjectionOk(t, store.db.streams[t], store.db.projections[t]);
    }
  }

  lemma RunNext(store: Store, acts: seq<Action>, j: nat)
    requires StoreInv(store) && j < |acts|
    ensures Run(store, acts[..j + 1]) == Step(Run(store, acts[..j]), acts[j])
    ensures var db := Run(store, acts[..j]).db; StreamInv(db.events, db.streams, db.projections)
  {
    RunKeeps(store, acts[..j]);
    assert acts[..j + 1] == acts[..j] + [acts[j]];
    RunSnoc(store, acts[..j], acts[j]);
  }

  lemma CommitNeedsRevision(store: Store, acts: seq<Action>, j: nat, t: string, expected: int)
    requires StoreInv(store) && CommitsAt(store, acts, j, t, expected)
    ensures Revision(Run(store, acts[..j]), t) == expected
    ensures Revision(Run(store, acts[..j + 1]), t) == expected + 1
  {
    RunNext(store, acts, j);
    CommitFence(Run(store, acts[..j]), acts[j].record);
  }

  lemma RunRevisions(store: Store, acts: seq<Action>, i: nat, j: nat, t: string)
    requires StoreInv(store) && i <= j <= |acts|
    ensures Revision(Run(store, acts[..i]), t) <= Revision(Run(store, acts[..j]), t)
  {
    RunKeeps(store, acts[..i]);
    RunKeeps(store, acts[..j]);
    RunExtends(store, acts, i, j);
    RevisionMonotone(Run(store, acts[..i]), Run(store, acts[..j]), t);
  }

  // Theorem: no two transitions ever commit at one expected revision, whatever their
  // leases: the revision fence alone excludes a lost update.
  lemma OneCommitPerRevision(store: Store, acts: seq<Action>, i: nat, j: nat, t: string, expected: int)
    requires StoreInv(store)
    requires CommitsAt(store, acts, i, t, expected) && CommitsAt(store, acts, j, t, expected)
    ensures i == j
  {
    CommitNeedsRevision(store, acts, i, t, expected);
    CommitNeedsRevision(store, acts, j, t, expected);
    if i < j {
      RunRevisions(store, acts, i + 1, j, t);
    } else if j < i {
      RunRevisions(store, acts, j + 1, i, t);
    }
  }
}
