// The smallest store with a task in it: one creation in a fresh Host. Runs that show what
// can happen start here.
module Beginnings {
  import opened Base
  import opened Json
  import opened Domain
  import opened Tables
  import opened Transactions
  import opened Storage
  import opened Evolution
  import opened Snapshots
  import opened HostStorage
  import opened HostKernel
  import opened Admissions
  import opened JournalInvariants
  import Text

  const TASK := "task:1"

  function FirstOfAll(): Record {
    FirstRecord("event:1", Core(TaskCreated), TASK, "goal:1", Obj(map[]), Ready, ["node:1"], None, None, [], 0)
  }

  function Written(): Store {
    Perform(FRESH, Put(EVENT_OBJECT_KIND, PayloadJson(FirstOfAll())))
  }

  function Begun(): Store {
    Perform(Written(), Append(FirstOfAll()))
  }

  lemma FirstIsUnwritten()
    ensures Unwritten(FRESH.db, FirstOfAll())
  {
    assert "task:1"[5] == '1' && "goal:1"[5] == '1';
  }

  lemma WrittenIsReady()
    ensures Disciplined(FRESH, Put(EVENT_OBJECT_KIND, PayloadJson(FirstOfAll())))
    ensures StoreInv(Written()) && Disciplined(Written(), Append(FirstOfAll()))
    ensures AppendTaskEvent(Written().db, RecordRequest(FirstOfAll())).result == Ok(Created)
  {
    hide StoreInv, AppendTaskEvent, PayloadJson, FRESH, Unwritten, Committable, Disciplined, Perform, Evolves;
    var r := FirstOfAll();
    var put := Put(EVENT_OBJECT_KIND, PayloadJson(r));
    FreshStoreInv();
    FirstIsUnwritten();
    FirstCommits(FRESH);
    LabelledPut(FRESH, put);
    StepKeeps(FRESH, put);
    UnwrittenSucceeds(FRESH, r);
    PutEvolves(FRESH, EVENT_OBJECT_KIND, PayloadJson(r));
    CommittableStable(FRESH, Written(), r);
    CommittableIsDisciplined(Written(), r);
  }

  lemma LabelledPut(store: Store, put: Action)
    requires put.Put? && put.kind == EVENT_OBJECT_KIND
    ensures Disciplined(store, put) && Step(store, put) == Perform(store, put)
    ensures Address(put.kind, put.payload) in Perform(store, put).cas
  {
    assert Text.IsLabel(EVENT_OBJECT_KIND);
  }

  // A first revision names no earlier one.
  lemma FirstCommits(store: Store)
    ensures Committable(store, FirstOfAll())
  {
    hide SnapshotAt, Succeeds, Available;
    FirstIsUnwritten();
  }

  lemma BegunFacts()
    ensures StoreInv(Begun())
    ensures Begun().db.projections == map[TASK := FirstOfAll().projection] && Begun().db.leases == map[]
    ensures SnapshotAt(Begun().db, TASK, 1) == Some(SnapshotOfRecord(FirstOfAll()))
    ensures Begun().db.extensions == map[] && Begun().db.board == []
    ensures forall id :: id != "event:1" ==> FindEvent(Begun().db.events, id).None?
  {
    hide StoreInv, AppendTaskEvent, PayloadJson, SnapshotAt, Disciplined;
    var r := FirstOfAll();
    WrittenIsReady();
    StepKeeps(Written(), Append(r));
    AcceptedSnapshot(Written(), r);
    AfterFirst(Written(), r);
    NothingElse();
  }

  lemma NothingElse()
    requires AppendTaskEvent(Written().db, RecordRequest(FirstOfAll())).result == Ok(Created)
    ensures Begun().db.extensions == map[] && Begun().db.board == []
  {
    hide AppendTaskEvent, PayloadJson;
    JournalOf(Written(), FirstOfAll());
  }

  lemma JournalOf(met: Store, r: Record)
    requires AppendTaskEvent(met.db, RecordRequest(r)).result == Ok(Created) && r.extension.None?
    ensures Perform(met, Append(r)).db.extensions == met.db.extensions && Perform(met, Append(r)).db.board == met.db.board
  {
    hide PayloadJson, AppendTaskEvent, AdmissionRefusal, Preflight, EventEdges, AdmittedAll;
    CreatedMeansAppended(met.db, RecordRequest(r));
  }

  // The beginning is a run.
  lemma BegunIsRun()
    ensures Run(FRESH, [Put(EVENT_OBJECT_KIND, PayloadJson(FirstOfAll())), Append(FirstOfAll())]) == Begun()
  {
    hide StoreInv, AppendTaskEvent, PayloadJson, Disciplined, Perform;
    var put, append := Put(EVENT_OBJECT_KIND, PayloadJson(FirstOfAll())), Append(FirstOfAll());
    WrittenIsReady();
    assert [put, append][..1] == [put] && [put][..0] == [];
    assert Run(FRESH, [put]) == Written();
  }
}
