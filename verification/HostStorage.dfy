// Host storage as the object the repository writes: the journal beside its object store.
// Before every transaction and every read of this writer the other writers may act; the
// schedule of what they do is a field, so each contract holds for every schedule.
module HostStorage {
  import opened Base
  import opened Json
  import opened Domain
  import opened Tables
  import opened Transactions
  import opened JournalInvariants
  import opened Storage
  import opened Evolution
  import opened Workers
  import opened Snapshots
  import opened HostJournal
  import T = Transactions
  import Text

  // One action this writer took, and the store it met.
  datatype Act = Act(store: Store, action: Action)

  // What a record must know to stay committable while others act.
  ghost predicate Committable(store: Store, r: Record) {
    && AllAvailable(store, r.referenced)
    && r.projection.WellFormed()
    && (r.expectedRevision > 0 ==>
          match SnapshotAt(store.db, r.projection.taskId, r.expectedRevision)
          case None => false
          case Some(s) => Succeeds(s.projection, r.projection))
  }

  lemma CommittableStable(before: Store, after: Store, r: Record)
    requires Evolves(before, after) && Committable(before, r)
    ensures Committable(after, r)
  {
    EvolvesParts(before, after);
    if r.expectedRevision > 0 {
      SnapshotStable(before, after, r.projection.taskId, r.expectedRevision);
    }
  }

  lemma CommittableIsDisciplined(store: Store, r: Record)
    requires StoreInv(store) && Committable(store, r)
    requires Address(EVENT_OBJECT_KIND, PayloadJson(r)) in store.cas
    ensures Disciplined(store, Append(r))
  {
    hide StoreInv;
    EventDigestRoundTrip(TaskEvent(r.kind.Text(), r.data, r.projection));
  }

  // A snapshot is what its own revision recorded.
  ghost predicate Told(store: Store, t: string, s: TaskEventSnapshot) {
    && SnapshotAt(store.db, t, s.projection.revision) == Some(s)
    && s.projection.taskId == t
    && s.projection.WellFormed()
  }

  // A projection is the one its own revision recorded.
  ghost predicate Recalls(store: Store, t: string, p: TaskProjection) {
    && SnapshotAt(store.db, t, p.revision).Some?
    && SnapshotAt(store.db, t, p.revision).value.projection == p
    && p.taskId == t
    && p.WellFormed()
  }

  lemma RecallsStable(before: Store, after: Store, t: string, p: TaskProjection)
    requires Evolves(before, after) && Recalls(before, t, p)
    ensures Recalls(after, t, p)
  {
    SnapshotStable(before, after, t, p.revision);
  }

  lemma ToldStable(before: Store, after: Store, t: string, s: TaskEventSnapshot)
    requires Evolves(before, after) && Told(before, t, s)
    ensures Told(after, t, s)
  {
    SnapshotStable(before, after, t, s.projection.revision);
  }

  lemma StoreJournal(store: Store)
    requires StoreInv(store)
    ensures Inv(store.db)
  {
  }

  lemma StoreTasks(store: Store)
    requires StoreInv(store)
    ensures store.db.projections.Keys == store.db.streams.Keys
  {
  }

  // A task once seen stays.
  lemma TaskKept(before: Store, after: Store, t: string)
    requires Evolves(before, after) && t in before.db.projections
    ensures t in after.db.projections
  {
    assert TaskAdvances(TasksOf(before), TasksOf(after), t);
  }

  lemma SnapshotNeedsEvent(db: Db, t: string, revision: int)
    requires SnapshotAt(db, t, revision).Some?
    ensures EventAt(db, t, revision).Some?
  {
  }

  // Between two stores of a call there was one whose head was this event.
  ghost predicate HeadMet(start: Store, met: Store, end: Store, t: string, s: TaskEventSnapshot) {
    && StoreInv(met) && Evolves(start, met) && Evolves(met, end)
    && t in met.db.projections
    && Revision(met, t) == s.projection.revision
    && SnapshotAt(met.db, t, s.projection.revision) == Some(s)
  }

  ghost predicate WasHead(start: Store, end: Store, t: string, s: TaskEventSnapshot) {
    exists met :: HeadMet(start, met, end, t, s)
  }

  lemma HeadMetWider(start: Store, start': Store, met: Store, end': Store, end: Store, t: string, s: TaskEventSnapshot)
    requires Evolves(start, start') && HeadMet(start', met, end', t, s) && Evolves(end', end)
    ensures HeadMet(start, met, end, t, s)
  {
    hide StoreInv, Evolves, SnapshotAt;
    EvolvesTransitive(start, start', met);
    EvolvesTransitive(met, end', end);
  }

  class Host {
    const journal: Journal
    var cas: set<Digest>
    var others: seq<seq<Action>>
    ghost var mine: seq<Act>

    constructor (others: seq<seq<Action>>)
      ensures Valid() && State() == FRESH && this.others == others && mine == [] && fresh(journal)
    {
      journal := new Journal();
      cas := {};
      this.others := others;
      mine := [];
      new;
      FreshStoreInv();
    }

    ghost function State(): Store
      reads this, journal
    {
      Store(journal.View(), cas)
    }

    ghost predicate Valid()
      reads this, journal
    {
      StoreInv(State())
    }

    // The store moved only as writers move it, and nobody else moved if nobody was due.
    twostate predicate Advanced()
      reads this, journal
    {
      && Valid()
      && Evolves(old(State()), State())
      && |others| <= |old(others)|
    }

    // A read: this writer did nothing, and neither did anyone if nobody was due.
    twostate predicate OnlyRead()
      reads this, journal
    {
      && Advanced()
      && mine == old(mine)
      && (old(others) == [] ==> State() == old(State()))
    }

    // One atomic action of anyone.
    method Apply(act: Action)
      requires Valid()
      modifies this`cas, journal
      ensures Valid() && State() == Step(old(State()), act)
    {
      hide StoreInv, Inv, Disciplined, T.AppendTaskEvent, T.AcquireLease, T.ReleaseLease, T.AppendBoardMessage;
      hide T.AppendNewsPublication, RecordRequest, Address;
      StepKeeps(State(), act);
      StoreJournal(State());
      if !Disciplined(Store(journal.View(), cas), act) {
        return;
      }
      match act
      case Put(kind, payload) => cas := cas + {Address(kind, payload)};
      case Append(r) => var _ := journal.AppendTaskEvent(RecordRequest(r));
      case Acquire(t, o, now, ttl) => var _ := journal.AcquireLease(t, o, now, ttl);
      case Release(lease) => var _ := journal.ReleaseLease(lease);
      case Post(m) => var _ := journal.AppendBoardMessage(m);
      case Publish(n) => var _ := journal.AppendNewsPublication(n);
    }

    // The other writers' turn.
    method Yield()
      requires Valid()
      modifies this`cas, this`others, journal
      ensures OnlyRead() && (old(others) != [] ==> |others| < |old(others)|)
    {
      hide StoreInv, Evolves;
      EvolvesReflexive(State());
      if others == [] {
        return;
      }
      ghost var start := State();
      var turn := others[0];
      others := others[1..];
      var i := 0;
      while i < |turn|
        invariant 0 <= i <= |turn|
        invariant Valid() && Evolves(start, State())
        invariant others == old(others)[1..]
      {
        StepEvolves(State(), turn[i]);
        EvolvesTransitive(start, State(), Step(State(), turn[i]));
        Apply(turn[i]);
        i := i + 1;
      }
    }

    // This writer took exactly one action, on the store the last entry of `mine` names.
    twostate predicate Acted(act: Action)
      reads this, journal
    {
      && Advanced()
      && |mine| == |old(mine)| + 1
      && mine[..|old(mine)|] == old(mine)
      && mine[|mine| - 1].action == act
      && ActedOn(old(State()), mine[|mine| - 1].store, act)
      && State() == Perform(mine[|mine| - 1].store, act)
      && (old(others) == [] ==> mine[|mine| - 1].store == old(State()))
    }

    method Take(act: Action)
      requires Valid() && Disciplined(State(), act)
      modifies this`cas, this`mine, journal
      ensures Valid() && State() == Perform(old(State()), act)
      ensures Evolves(old(State()), State())
      ensures mine == old(mine) + [Act(old(State()), act)]
    {
      hide StoreInv, Evolves;
      StepEvolves(State(), act);
      mine := mine + [Act(State(), act)];
      Apply(act);
    }

    method PutObject(kind: string, payload: Value) returns (stored: StoredObject)
      requires Valid() && Text.IsLabel(kind)
      modifies this`cas, this`others, this`mine, journal
      ensures Acted(Put(kind, payload))
      ensures stored == Described(kind, payload) && Available(State(), stored)
    {
      hide StoreInv, Evolves;
      ghost var start := State();
      Yield();
      PutEvolves(State(), kind, payload);
      EvolvesTransitive(start, State(), Perform(State(), Put(kind, payload)));
      Take(Put(kind, payload));
      OpenAddress(kind, payload);
      stored := Described(kind, payload);
    }

    method AcquireLease(t: string, ownerId: string, nowMs: int, ttlMs: int) returns (r: Result<LeaseRecord, HostError>)
      requires Valid()
      modifies this`cas, this`others, this`mine, journal
      ensures Acted(Acquire(t, ownerId, nowMs, ttlMs))
      ensures r == T.AcquireLease(mine[|mine| - 1].store.db, t, ownerId, nowMs, ttlMs).result
    {
      hide StoreInv, Evolves, Inv, T.AcquireLease;
      ghost var start := State();
      Yield();
      ghost var met := State();
      StoreJournal(met);
      StepKeeps(met, Acquire(t, ownerId, nowMs, ttlMs));
      StepEvolves(met, Acquire(t, ownerId, nowMs, ttlMs));
      EvolvesTransitive(start, met, Perform(met, Acquire(t, ownerId, nowMs, ttlMs)));
      mine := mine + [Act(met, Acquire(t, ownerId, nowMs, ttlMs))];
      r := journal.AcquireLease(t, ownerId, nowMs, ttlMs);
    }

    method ReleaseLease(lease: LeaseRecord) returns (r: Result<(), HostError>)
      requires Valid()
      modifies this`cas, this`others, this`mine, journal
      ensures Acted(Release(lease))
      ensures r == T.ReleaseLease(mine[|mine| - 1].store.db, lease).result
    {
      hide StoreInv, Evolves, Inv, T.ReleaseLease;
      ghost var start := State();
      Yield();
      ghost var met := State();
      StoreJournal(met);
      StepKeeps(met, Release(lease));
      StepEvolves(met, Release(lease));
      EvolvesTransitive(start, met, Perform(met, Release(lease)));
      mine := mine + [Act(met, Release(lease))];
      r := journal.ReleaseLease(lease);
    }

    // The append of record_task_event, after its payload object is written.
    method AppendTaskEvent(r: Record) returns (admission: Result<EventAdmission, HostError>)
      requires Valid() && Committable(State(), r)
      requires Address(EVENT_OBJECT_KIND, PayloadJson(r)) in cas
      modifies this`cas, this`others, this`mine, journal
      ensures Acted(Append(r))
      ensures admission == T.AppendTaskEvent(mine[|mine| - 1].store.db, RecordRequest(r)).result
    {
      hide StoreInv, Evolves, Committable, Inv, T.AppendTaskEvent, Disciplined, PayloadJson;
      ghost var start := State();
      Yield();
      ghost var met := State();
      StoreJournal(met);
      EvolvesParts(start, met);
      CommittableStable(start, met, r);
      CommittableIsDisciplined(met, r);
      StepKeeps(met, Append(r));
      StepEvolves(met, Append(r));
      EvolvesTransitive(start, met, Perform(met, Append(r)));
      mine := mine + [Act(met, Append(r))];
      admission := journal.AppendTaskEvent(RecordRequest(r));
    }

    method AppendBoardMessage(m: BoardRequest) returns (admission: Result<EventAdmission, HostError>)
      requires Valid() && Available(State(), m.stored)
      modifies this`cas, this`others, this`mine, journal
      ensures Acted(Post(m))
      ensures admission == T.AppendBoardMessage(mine[|mine| - 1].store.db, m).result
    {
      hide StoreInv, Evolves, Inv, T.AppendBoardMessage;
      ghost var start := State();
      Yield();
      ghost var met := State();
      StoreJournal(met);
      EvolvesParts(start, met);
      StepKeeps(met, Post(m));
      StepEvolves(met, Post(m));
      EvolvesTransitive(start, met, Perform(met, Post(m)));
      mine := mine + [Act(met, Post(m))];
      admission := journal.AppendBoardMessage(m);
    }

    method AppendNewsPublication(n: NewsRequest) returns (admission: Result<EventAdmission, HostError>)
      requires Valid() && Available(State(), n.stored)
      modifies this`cas, this`others, this`mine, journal
      ensures Acted(Publish(n))
      ensures admission == T.AppendNewsPublication(mine[|mine| - 1].store.db, n).result
    {
      hide StoreInv, Evolves, Inv, T.AppendNewsPublication;
      ghost var start := State();
      Yield();
      ghost var met := State();
      StoreJournal(met);
      EvolvesParts(start, met);
      StepKeeps(met, Publish(n));
      StepEvolves(met, Publish(n));
      EvolvesTransitive(start, met, Perform(met, Publish(n)));
      mine := mine + [Act(met, Publish(n))];
      admission := journal.AppendNewsPublication(n);
    }

    // record_task_event: the payload object, then the journal.
    method RecordTaskEvent(r: Record) returns (admission: Result<EventAdmission, HostError>)
      requires Valid() && Committable(State(), r)
      modifies this`cas, this`others, this`mine, journal
      ensures Recorded(r)
      ensures admission == T.AppendTaskEvent(mine[|mine| - 1].store.db, RecordRequest(r)).result
    {
      hide StoreInv, Evolves, Committable;
      ghost var start := State();
      var _ := PutObject(EVENT_OBJECT_KIND, PayloadJson(r));
      ghost var written := State();
      CommittableStable(start, written, r);
      admission := AppendTaskEvent(r);
      EvolvesTransitive(start, written, mine[|mine| - 1].store);
      EvolvesTransitive(start, written, State());
    }

    // Two actions of this writer: the payload object, then the append.
    twostate predicate Recorded(r: Record)
      reads this, journal
    {
      && Advanced()
      && |mine| == |old(mine)| + 2
      && mine[..|old(mine)|] == old(mine)
      && mine[|old(mine)|].action == Put(EVENT_OBJECT_KIND, PayloadJson(r))
      && mine[|mine| - 1].action == Append(r)
      && ActedOn(old(State()), mine[|mine| - 1].store, Append(r))
      && State() == Perform(mine[|mine| - 1].store, Append(r))
      && (old(others) == [] ==>
            mine[|mine| - 1].store == Perform(old(State()), Put(EVENT_OBJECT_KIND, PayloadJson(r))))
    }

    method GetTask(t: string) returns (p: Option<TaskProjection>)
      requires Valid()
      modifies this`cas, this`others, journal
      ensures OnlyRead()
      ensures p == if t in State().db.projections then Some(State().db.projections[t]) else None
      ensures p.Some? ==> Recalls(State(), t, p.value) && p.value.revision == Revision(State(), t)
    {
      hide StoreInv, Evolves;
      Yield();
      if t !in journal.projections {
        return None;
      }
      HeadSnapshot(State(), t);
      EventsReadBack(State(), t, Revision(State(), t));
      return Some(journal.projections[t]);
    }

    method ReadTaskEventAtRevision(t: string, revision: int) returns (r: Result<Option<TaskEventSnapshot>, HostError>)
      requires Valid()
      modifies this`cas, this`others, journal
      ensures OnlyRead()
      ensures r == Ok(SnapshotAt(State().db, t, revision))
    {
      hide StoreInv, Evolves;
      Yield();
      var e := EventAt(journal.View(), t, revision);
      if e.None? {
        return Ok(None);
      }
      EventsReadBack(State(), t, revision);
      var s := ReadPointer(cas, e.value);
      match s
      case Err(error) => return Err(error);
      case Ok(snapshot) => return Ok(Some(snapshot));
    }

    // read_task_event: the head, then the event at the head's revision. The two reads may
    // see different stores; what is returned was current at some moment of the call.
    method ReadTaskEvent(t: string) returns (r: Result<TaskEventSnapshot, HostError>)
      requires Valid()
      modifies this`cas, this`others, journal
      ensures OnlyRead()
      ensures match r
              case Ok(s) =>
                && Told(State(), t, s)
                && Revision(old(State()), t) <= s.projection.revision <= Revision(State(), t)
                && WasHead(old(State()), State(), t, s)
              case Err(e) => e == JournalCorruption && t !in old(State()).db.projections
    {
      hide StoreInv, Evolves, SnapshotAt, EventAt;
      ghost var start := State();
      Yield();
      ghost var seen := State();
      RevisionMonotone(start, seen, t);
      if t in start.db.projections {
        TaskKept(start, seen, t);
      }
      if t !in journal.streams {
        StoreTasks(seen);
        return Err(JournalCorruption);
      }
      var head := journal.streams[t].revision;
      StoreTasks(seen);
      HeadSnapshot(seen, t);
      var e := ReadTaskEventAtRevision(t, head);
      EvolvesTransitive(start, seen, State());
      RevisionMonotone(seen, State(), t);
      SnapshotStable(seen, State(), t, head);
      EventsUpToHead(State(), t, head);
      SnapshotNeedsEvent(State().db, t, head);
      EventsReadBack(State(), t, head);
      assert HeadMet(start, seen, State(), t, e.value.value);
      return Ok(e.value.value);
    }
  }

  // A store the other writers may have moved first, on which an action is in order.
  ghost predicate ActedOn(start: Store, met: Store, act: Action) {
    StoreInv(met) && Evolves(start, met) && Disciplined(met, act) && Evolves(met, Perform(met, act))
  }
}
