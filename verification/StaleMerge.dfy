// A read-modify-write whose expected revision was ahead of the task when the call began: a
// run in which it commits and loses a field another writer stored in between.
module StaleMerge {
  import opened Base
  import opened Json
  import opened Domain
  import opened Tables
  import opened Transactions
  import opened JournalInvariants
  import opened Storage
  import opened Evolution
  import opened Workers
  import opened Snapshots
  import opened HostStorage
  import opened HostKernel
  import opened Extensions
  import opened Beginnings
  import Text

  const WORKER := "host"
  const TTL := 10

  // The record a locked append commits, on a task whose lease it has just taken.
  function CommitRecord(s: Store, c: AppendCall, fields: map<string, Value>): Record
    requires c.taskId in s.db.projections && AcquireLease(s.db, c.taskId, WORKER, c.acquireMs, TTL).result.Ok?
    requires NextOfTask(s.db.projections[c.taskId], c).Ok?
  {
    var p := s.db.projections[c.taskId];
    Drafted(AcquireLease(s.db, c.taskId, WORKER, c.acquireMs, TTL).result.value, p,
            ExtensionDraft(c, map[], fields, StateStored(fields, c), [StateStored(fields, c)], p), NextOfTask(p, c).value)
  }

  function NextOfTask(p: TaskProjection, c: AppendCall): Result<TaskProjection, HostError> {
    NextProjection(p, Transition(Some(p.state), Some(p.readyFrontier), None), c.commitMs)
  }

  // The writing half of append_preserving: the merged state, the lease, the payload, the event.
  function AppendActs(s: Store, c: AppendCall, fields: map<string, Value>): (acts: seq<Action>)
    requires c.taskId in s.db.projections && AcquireLease(s.db, c.taskId, WORKER, c.acquireMs, TTL).result.Ok?
    requires NextOfTask(s.db.projections[c.taskId], c).Ok?
    ensures |acts| == 4 && acts[3] == Append(CommitRecord(s, c, fields))
  {
    var r := CommitRecord(s, c, fields);
    [Put(EXTENSION_STATE_KIND, Obj(Merged(fields, RemovedSet(c), c.updates))), Acquire(c.taskId, WORKER, c.acquireMs, TTL),
     Put(EVENT_OBJECT_KIND, PayloadJson(r))] + [Append(r)]
  }

  lemma RunThree(s: Store, a: Action, b: Action, d: Action)
    requires Disciplined(s, a) && Disciplined(Perform(s, a), b) && Disciplined(Perform(Perform(s, a), b), d)
    ensures Run(s, [a, b, d]) == Perform(Perform(Perform(s, a), b), d)
  {
    hide Disciplined, Perform;
    assert [a, b, d][..2] == [a, b] && [a, b][..1] == [a] && [a][..0] == [];
    assert Run(s, [a]) == Perform(s, a);
    assert Run(s, [a, b]) == Perform(Perform(s, a), b);
  }

  // The store the append meets.
  ghost predicate Ready(s: Store, c: AppendCall) {
    && StoreInv(s)
    && Lockable(s.db, c, ANYTHING, WORKER, TTL)
    && c.referenced == []
  }

  lemma MetStore(s: Store, c: AppendCall, fields: map<string, Value>)
    requires Ready(s, c)
    ensures c.taskId in s.db.projections && AcquireLease(s.db, c.taskId, WORKER, c.acquireMs, TTL).result.Ok?
    ensures NextOfTask(s.db.projections[c.taskId], c).Ok?
    ensures var met := Run(s, AppendActs(s, c, fields)[..3]);
            && StoreInv(met) && Evolves(s, met)
            && met.db == AcquireLease(s.db, c.taskId, WORKER, c.acquireMs, TTL).db
            && StateStored(fields, c).digest in met.cas
            && Address(EVENT_OBJECT_KIND, PayloadJson(CommitRecord(s, c, fields))) in met.cas
  {
    hide StoreInv, Evolves, AcquireLease, PayloadJson, Merged, NextProjection, Open, Ready, NextOfTask, CommitRecord, EncodedLength;
    ReadyParts(s, c);
    ReadyStore(s, c);
    var r := CommitRecord(s, c, fields);
    var a := Put(EXTENSION_STATE_KIND, Obj(Merged(fields, RemovedSet(c), c.updates)));
    var b := Acquire(c.taskId, WORKER, c.acquireMs, TTL);
    var d := Put(EVENT_OBJECT_KIND, PayloadJson(r));
    assert AppendActs(s, c, fields)[..3] == [a, b, d];
    assert Text.IsLabel(EVENT_OBJECT_KIND) && Text.IsLabel(EXTENSION_STATE_KIND);
    RunThree(s, a, b, d);
    RunKeeps(s, [a, b, d]);
    RunEvolves(s, [a, b, d]);
  }

  lemma ReadyParts(s: Store, c: AppendCall)
    requires Ready(s, c)
    ensures c.taskId in s.db.projections && AcquireLease(s.db, c.taskId, WORKER, c.acquireMs, TTL).result.Ok?
    ensures NextOfTask(s.db.projections[c.taskId], c).Ok?
    ensures s.db.projections[c.taskId].revision == c.expectedRevision >= 1
    ensures NextOfTask(s.db.projections[c.taskId], c).value.taskId == c.taskId
  {
    hide StoreInv, AcquireLease;
    TaskNamed(s, c.taskId);
  }

  lemma TaskNamed(s: Store, t: string)
    requires StoreInv(s) && t in s.db.projections
    ensures s.db.projections[t].taskId == t
  {
    hide StoreInv;
    HeadSnapshot(s, t);
    EventsUpToHead(s, t, Revision(s, t));
    EventsReadBack(s, t, Revision(s, t));
  }

  lemma ReadyStore(s: Store, c: AppendCall)
    requires Ready(s, c)
    ensures StoreInv(s) && Lockable(s.db, c, ANYTHING, WORKER, TTL) && c.referenced == []
  {
  }

  // The head of a task, as a reader is told of it.
  lemma HeadTold(s: Store, t: string)
    requires StoreInv(s) && t in s.db.projections
    ensures SnapshotAt(s.db, t, Revision(s, t)).Some?
    ensures Told(s, t, SnapshotAt(s.db, t, Revision(s, t)).value)
    ensures SnapshotAt(s.db, t, Revision(s, t)).value.projection == s.db.projections[t]
  {
    hide StoreInv, SnapshotAt;
    HeadSnapshot(s, t);
    EventsUpToHead(s, t, Revision(s, t));
    EventsReadBack(s, t, Revision(s, t));
  }

  lemma CommitIsDisciplined(s: Store, met: Store, c: AppendCall, fields: map<string, Value>)
    requires Ready(s, c) && StoreInv(met) && Evolves(s, met)
    requires StateStored(fields, c).digest in met.cas
    requires c.taskId in s.db.projections && AcquireLease(s.db, c.taskId, WORKER, c.acquireMs, TTL).result.Ok?
    requires NextOfTask(s.db.projections[c.taskId], c).Ok?
    requires Address(EVENT_OBJECT_KIND, PayloadJson(CommitRecord(s, c, fields))) in met.cas
    ensures Disciplined(met, Append(CommitRecord(s, c, fields)))
  {
    hide StoreInv, Evolves, AcquireLease, PayloadJson, Merged, Lockable, SnapshotAt, Disciplined;
    var p := s.db.projections[c.taskId];
    var r := CommitRecord(s, c, fields);
    HeadTold(s, c.taskId);
    SnapshotStable(s, met, c.taskId, Revision(s, c.taskId));
    NextSucceeds(p, Transition(Some(p.state), Some(p.readyFrontier), None), c.commitMs);
    assert Text.IsLabel(EXTENSION_STATE_KIND);
    OpenAddress(EXTENSION_STATE_KIND, Obj(Merged(fields, RemovedSet(c), c.updates)));
    CommittableIsDisciplined(met, r);
  }

  // Nothing stands in the way of the commit, and it leaves the task free again.
  lemma CommitStands(s: Store, c: AppendCall, fields: map<string, Value>)
    requires Ready(s, c)
    ensures c.taskId in s.db.projections && AcquireLease(s.db, c.taskId, WORKER, c.acquireMs, TTL).result.Ok?
    ensures NextOfTask(s.db.projections[c.taskId], c).Ok?
    ensures var acts := AppendActs(s, c, fields);
            var met, after := Run(s, acts[..3]), Run(s, acts);
            && AppendTaskEvent(met.db, RecordRequest(CommitRecord(s, c, fields))).result == Ok(Created)
            && after == Perform(met, Append(CommitRecord(s, c, fields)))
            && StoreInv(after) && CommittedOn(s, met, after, c, fields)
            && met.db == AcquireLease(s.db, c.taskId, WORKER, c.acquireMs, TTL).db
  {
    hide StoreInv, Evolves, AcquireLease, PayloadJson, Merged, NextProjection, Ready, Lockable, Told, AppendTaskEvent;
    hide Disciplined, Perform, SnapshotAt, ExtensionRecorded, OthersKept, StateStored, ExtensionDraft, Drafted, Run;
    ReadyParts(s, c);
    ReadyStore(s, c);
    MetStore(s, c, fields);
    var acts, r := AppendActs(s, c, fields), CommitRecord(s, c, fields);
    var met := Run(s, acts[..3]);
    CommitIsDisciplined(s, met, c, fields);
    var p := s.db.projections[c.taskId];
    var lease := AcquireLease(s.db, c.taskId, WORKER, c.acquireMs, TTL).result.value;
    var d := ExtensionDraft(c, map[], fields, StateStored(fields, c), [StateStored(fields, c)], p);
    DraftParts(c, map[], fields, StateStored(fields, c), [StateStored(fields, c)], p);
    HeadTold(s, c.taskId);
    var locked := SnapshotAt(s.db, c.taskId, Revision(s, c.taskId)).value;
    ToldStable(s, met, c.taskId, locked);
    LockableCommits(s.db, met, c, ANYTHING, WORKER, TTL, lease, locked, d, StateStored(fields, c));
    LastStep(s, acts, Append(r));
    StepKeeps(met, Append(r));
    AppendEvolves(met, r);
    RecordedExtension(met, r, c, map[], fields, [StateStored(fields, c)], lease, locked, c.commitMs);
  }

  lemma LastStep(s: Store, acts: seq<Action>, act: Action)
    requires |acts| == 4 && acts[3] == act && Disciplined(Run(s, acts[..3]), act)
    ensures Run(s, acts) == Perform(Run(s, acts[..3]), act)
  {
    hide Disciplined, Perform;
  }

  lemma AfterCommit(s: Store, c: AppendCall, fields: map<string, Value>)
    requires Ready(s, c) && c.taskId !in s.db.leases
    ensures c.taskId in s.db.projections && AcquireLease(s.db, c.taskId, WORKER, c.acquireMs, TTL).result.Ok?
    ensures NextOfTask(s.db.projections[c.taskId], c).Ok?
    ensures var after := Run(s, AppendActs(s, c, fields));
            && after.db.projections == s.db.projections[c.taskId := NextOfTask(s.db.projections[c.taskId], c).value]
            && c.taskId !in after.db.leases
            && (forall id :: FindEvent(s.db.events, id).None? && id != c.eventId ==> FindEvent(after.db.events, id).None?)
  {
    hide StoreInv, AppendTaskEvent, PayloadJson, Ready, Merged, Run, AppendActs, CommittedOn, StateStored, ExtensionDraft;
    ReadyParts(s, c);
    CommitStands(s, c, fields);
    var met := Run(s, AppendActs(s, c, fields)[..3]);
    var r := CommitRecord(s, c, fields);
    CreatedMeansAppended(met.db, RecordRequest(r));
    AcquireEffect(s.db, c.taskId, WORKER, c.acquireMs, TTL);
    DraftId(s, c, fields);
  }

  lemma DraftId(s: Store, c: AppendCall, fields: map<string, Value>)
    requires c.taskId in s.db.projections && AcquireLease(s.db, c.taskId, WORKER, c.acquireMs, TTL).result.Ok?
    requires NextOfTask(s.db.projections[c.taskId], c).Ok?
    ensures CommitRecord(s, c, fields).eventId == c.eventId
    ensures CommitRecord(s, c, fields).lease == Some(AcquireLease(s.db, c.taskId, WORKER, c.acquireMs, TTL).result.value)
  {
  }

  // ---- The run ----

  const NS := "notes"

  // The writer in between, at the revision the call reads at.
  function Between(): AppendCall {
    AppendCall(TASK, 1, "event:2", NS, "noted", map["theirs" := Num(1)], [], [], None, None, 0, 1)
  }

  // The call that expects one revision more than the task has when it reads.
  function Ahead(): AppendCall {
    AppendCall(TASK, 2, "event:3", NS, "noted", map["ours" := Num(2)], [], [], None, None, 1, 2)
  }

  lemma BetweenReady()
    ensures Ready(Begun(), Between())
    ensures StateFields(Begun(), TASK, NS) == Ok(map[])
    ensures Revision(Begun(), TASK) == 1 && TASK !in Begun().db.leases
    ensures NextOfTask(Begun().db.projections[TASK], Between()) ==
            Ok(TaskProjection(TASK, "goal:1", Domain.Ready, None, ["node:1"], 2, 1))
  {
    hide StoreInv, Begun, SnapshotAt, PayloadJson;
    BegunFacts();
    FirstIsUnwritten();
  }

  // The store the other writer leaves.
  ghost function Moved(): Store {
    MetBetween();
    Run(Begun(), AppendActs(Begun(), Between(), map[]))
  }

  lemma MetBetween()
    ensures TASK in Begun().db.projections && AcquireLease(Begun().db, TASK, WORKER, 0, TTL).result.Ok?
    ensures NextOfTask(Begun().db.projections[TASK], Between()).Ok?
  {
    hide Begun, Ready;
    BetweenReady();
    ReadyParts(Begun(), Between());
  }

  // What one commit on a free task leaves for the next.
  lemma CommitLeaves(s: Store, c: AppendCall, fields: map<string, Value>)
    requires Ready(s, c) && c.taskId !in s.db.leases
    ensures c.taskId in s.db.projections && AcquireLease(s.db, c.taskId, WORKER, c.acquireMs, TTL).result.Ok?
    ensures NextOfTask(s.db.projections[c.taskId], c).Ok?
    ensures var after := Run(s, AppendActs(s, c, fields));
            && StoreInv(after) && Evolves(s, after)
            && StateFields(after, c.taskId, c.ns) == Ok(Merged(fields, RemovedSet(c), c.updates))
  {
    hide StoreInv, Ready, AppendActs, StateFields, Merged, Evolves, Run, SnapshotAt, OthersKept, StateStored, AcquireLease;
    hide NextProjection, CommitRecord, Perform, AppendTaskEvent;
    CommitStands(s, c, fields);
    EvolvesTransitive(s, Run(s, AppendActs(s, c, fields)[..3]), Run(s, AppendActs(s, c, fields)));
  }

  lemma BetweenMerges()
    ensures Merged(map[], RemovedSet(Between()), Between().updates) == map["theirs" := Num(1)]
    ensures Between().taskId == TASK && Between().ns == NS && Between().eventId == "event:2" && Between().acquireMs == 0
    ensures "event:2" != "event:3"
  {
    assert "event:2"[6] != "event:3"[6];
  }

  lemma AheadReady()
    ensures Ready(Moved(), Ahead())
    ensures StateFields(Moved(), TASK, NS) == Ok(map["theirs" := Num(1)])
    ensures Evolves(Begun(), Moved())
  {
    hide StoreInv, Begun, SnapshotAt, PayloadJson, Run, AppendActs, Ready, StateFields, Merged, Evolves, Between, NextOfTask;
    hide AcquireLease, FindEvent, FirstOfAll, Ahead;
    BetweenReady();
    BetweenMerges();
    MetBetween();
    CommitLeaves(Begun(), Between(), map[]);
    AfterCommit(Begun(), Between(), map[]);
    BegunFacts();
    assert "event:3"[6] == '3' && "event:1"[6] == '1';
    ReadyAgain(Moved());
  }

  lemma ReadyAgain(s: Store)
    requires StoreInv(s) && TASK !in s.db.leases && FindEvent(s.db.events, "event:3").None?
    requires TASK in s.db.projections
    requires s.db.projections[TASK] == TaskProjection(TASK, "goal:1", Domain.Ready, None, ["node:1"], 2, 1)
    ensures Ready(s, Ahead())
  {
    hide StoreInv;
    FirstIsUnwritten();
  }

  // The call reads after `before` with one revision more expected, others do `between`, the
  // call does `call`, and its append of r is created over a state it did not read.
  ghost predicate StaleCommit(
    before: seq<Action>, between: seq<Action>, call: seq<Action>, c: AppendCall, r: Record)
  {
    var at := Run(FRESH, before);
    var met := Run(Run(at, between), call);
    var after := Perform(met, Append(r));
    && Disciplined(met, Append(r)) && AppendTaskEvent(met.db, RecordRequest(r)).result == Ok(Created)
    && StateFields(at, c.taskId, c.ns).Ok? && StateFields(met, c.taskId, c.ns).Ok?
    && CommittedOn(at, met, after, c, StateFields(at, c.taskId, c.ns).value)
    && Revision(at, c.taskId) + 1 == c.expectedRevision == Revision(met, c.taskId)
    && !MergesCurrent(met, after, c)
  }

  // Theorem: there is a run in which the call reads at revision 1 with 2 expected, another
  // writer moves the namespace to revision 2, the call's commit is created, and the field
  // the other writer stored is gone: what is stored is not the merge of the state it met.
  lemma StaleMergeCommits()
    ensures exists before, between, call, c, r :: StaleCommit(before, between, call, c, r)
  {
    hide StoreInv, Begun, PayloadJson, Run, Ready, Moved, AppendActs, StaleCommit, FirstOfAll;
    hide StateFields, Evolves, StaleOn, AcquireLease, CommitRecord, NextOfTask, AppendTaskEvent, EVENT_OBJECT_KIND;
    BegunIsRun();
    MovedIs();
    AheadReady();
    AheadIsStale();
    var between := AppendActs(Begun(), Between(), map[]);
    var before := [Put(EVENT_OBJECT_KIND, PayloadJson(FirstOfAll())), Append(FirstOfAll())];
    IsStale(before, between, AppendActs(Moved(), Ahead(), map[])[..3], CommitRecord(Moved(), Ahead(), map[]));
  }

  lemma MovedIs()
    ensures TASK in Begun().db.projections && AcquireLease(Begun().db, TASK, WORKER, 0, TTL).result.Ok?
    ensures NextOfTask(Begun().db.projections[TASK], Between()).Ok?
    ensures Moved() == Run(Begun(), AppendActs(Begun(), Between(), map[]))
  {
    hide Begun, Run, AppendActs;
    MetBetween();
  }

  lemma IsStale(before: seq<Action>, between: seq<Action>, call: seq<Action>, r: Record)
    requires Run(FRESH, before) == Begun() && Run(Begun(), between) == Moved()
    requires StaleOn(Run(Moved(), call), r)
    ensures StaleCommit(before, between, call, Ahead(), r)
  {
    hide Begun, Moved, Run, StateFields, CommittedOn, MergesCurrent, AppendTaskEvent, Disciplined, Perform;
    BetweenReady();
  }

  // The append of r over `met`, by the call that read the beginning.
  ghost predicate StaleOn(met: Store, r: Record) {
    && Disciplined(met, Append(r)) && AppendTaskEvent(met.db, RecordRequest(r)).result == Ok(Created)
    && StateFields(met, TASK, NS).Ok?
    && CommittedOn(Begun(), met, Perform(met, Append(r)), Ahead(), map[])
    && Revision(met, TASK) == 2
    && !MergesCurrent(met, Perform(met, Append(r)), Ahead())
  }

  lemma AheadIsStale()
    requires Ready(Moved(), Ahead()) && Evolves(Begun(), Moved())
    requires StateFields(Moved(), TASK, NS) == Ok(map["theirs" := Num(1)])
    ensures TASK in Moved().db.projections && AcquireLease(Moved().db, TASK, WORKER, Ahead().acquireMs, TTL).result.Ok?
    ensures NextOfTask(Moved().db.projections[TASK], Ahead()).Ok?
    ensures StaleOn(Run(Moved(), AppendActs(Moved(), Ahead(), map[])[..3]), CommitRecord(Moved(), Ahead(), map[]))
  {
    hide StoreInv, Begun, Moved, Run, AppendActs, Ready, StateFields, Evolves, OthersKept, Perform, AcquireLease, Disciplined;
    hide AppendTaskEvent, ExtensionRecorded, CommitRecord, NextOfTask, MergesCurrent, StateStored, PayloadJson, Lockable;
    ReadyParts(Moved(), Ahead());
    ReadyStore(Moved(), Ahead());
    CommitStands(Moved(), Ahead(), map[]);
    MetStore(Moved(), Ahead(), map[]);
    var acts := AppendActs(Moved(), Ahead(), map[]);
    var met, after := Run(Moved(), acts[..3]), Run(Moved(), acts);
    CommitIsDisciplined(Moved(), met, Ahead(), map[]);
    CommittedLater(Begun(), Moved(), met, after, Ahead(), map[]);
    StateKept(Moved(), met, Ahead());
    Lost(met, after);
  }

  lemma StateKept(s: Store, met: Store, c: AppendCall)
    requires Evolves(s, met) && met.db == AcquireLease(s.db, c.taskId, WORKER, c.acquireMs, TTL).db
    requires StateFields(s, c.taskId, c.ns).Ok?
    ensures StateFields(met, c.taskId, c.ns) == StateFields(s, c.taskId, c.ns)
    ensures Revision(met, c.taskId) == Revision(s, c.taskId)
  {
    hide AcquireLease;
    AcquireEffect(s.db, c.taskId, WORKER, c.acquireMs, TTL);
  }

  lemma Lost(met: Store, after: Store)
    requires StateFields(met, TASK, NS) == Ok(map["theirs" := Num(1)])
    requires ExtensionRecorded(after, Ahead(), map[])
    ensures !MergesCurrent(met, after, Ahead())
  {
    hide StateFields, StateStored, SnapshotAt;
    assert "theirs" !in Merged(map[], RemovedSet(Ahead()), Ahead().updates);
    assert "theirs" in Merged(map["theirs" := Num(1)], RemovedSet(Ahead()), Ahead().updates);
  }
}
