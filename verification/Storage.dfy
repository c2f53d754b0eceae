// Host storage: the journal beside its content-addressed store, and the atomic actions
// every writer of the Host performs on the two.
//
// A run is any sequence of actions by any number of writers; a writer that stalls acts
// later, one that crashes acts no more, and an object written before a crash is an
// orphan. What holds after every run holds under every interleaving.
module Storage {
  import opened Base
  import opened Json
  import opened Domain
  import opened Tables
  import opened Transactions
  import opened JournalInvariants
  import Text

  datatype Store = Store(db: Db, cas: set<Digest>)

  const FRESH := Store(EMPTY, {})

  // One call of record_task_event, after its payload object is written.
  datatype Record = Record(
    eventId: string,
    kind: EventKind,
    data: Value,
    projection: TaskProjection,
    expectedRevision: int,
    causedBy: Option<string>,
    referenced: seq<StoredObject>,
    extension: Option<ExtensionState>,
    lease: Option<LeaseRecord>,
    checkedAtMs: Option<int>)

  datatype Action =
    | Put(kind: string, payload: Value)
    | Append(record: Record)
    | Acquire(taskId: string, ownerId: string, nowMs: int, ttlMs: int)
    | Release(lease: LeaseRecord)
    | Post(message: BoardRequest)
    | Publish(edition: NewsRequest)

  function PayloadJson(r: Record): Value {
    EventToJson(TaskEvent(r.kind.Text(), r.data, r.projection))
  }

  function RecordRequest(r: Record): AppendRequest {
    var payload := Described(EVENT_OBJECT_KIND, PayloadJson(r));
    AppendRequest(
      HostEvent(r.eventId, r.projection.taskId, TaskStream, r.kind, payload.digest, r.projection.updatedAtMs, r.causedBy),
      r.expectedRevision, r.projection, payload, r.referenced, r.extension, r.lease, r.checkedAtMs)
  }

  // The projection an event row carries in its payload.
  function Snapshot(e: EventRow): Option<TaskEvent> {
    EventAtDigest(e.payloadDigest)
  }

  function ProjectionOf(e: EventRow): TaskProjection {
    match Snapshot(e)
    case Some(t) => t.projection
    case None => TaskProjection(e.streamId, "", Failed, None, [], e.streamRevision, e.recordedAtMs)
  }

  predicate Available(store: Store, o: StoredObject) {
    Genuine(o) && o.digest in store.cas
  }

  // What the Host's own writers obey: objects are written before they are named, and a
  // transition succeeds the projection stored at the revision it expects.
  predicate Disciplined(store: Store, act: Action) {
    match act
    case Put(kind, _) => Text.IsLabel(kind)
    case Append(r) =>
      && Available(store, Described(EVENT_OBJECT_KIND, PayloadJson(r)))
      && (forall o :: o in r.referenced ==> Available(store, o))
      && (r.expectedRevision > 0 ==>
            match EventAt(store.db, r.projection.taskId, r.expectedRevision)
            case None => true
            case Some(e) => Succeeds(ProjectionOf(e), r.projection))
    case Acquire(_, _, _, _) => true
    case Release(_) => true
    case Post(m) => Available(store, m.stored)
    case Publish(n) => Available(store, n.stored)
  }

  function Perform(store: Store, act: Action): Store {
    match act
    case Put(kind, payload) => store.(cas := store.cas + {Address(kind, payload)})
    case Append(r) => store.(db := AppendTaskEvent(store.db, RecordRequest(r)).db)
    case Acquire(t, o, now, ttl) => store.(db := AcquireLease(store.db, t, o, now, ttl).db)
    case Release(lease) => store.(db := ReleaseLease(store.db, lease).db)
    case Post(m) => store.(db := AppendBoardMessage(store.db, m).db)
    case Publish(n) => store.(db := AppendNewsPublication(store.db, n).db)
  }

  // An action no Host writer would take does not happen.
  function Step(store: Store, act: Action): Store {
    if Disciplined(store, act) then Perform(store, act) else store
  }

  function Run(store: Store, acts: seq<Action>): Store {
    if |acts| == 0 then store else Step(Run(store, acts[..|acts| - 1]), acts[|acts| - 1])
  }

  // Every object row names stored bytes and repeats their own kind and length.
  ghost predicate ObjectsStored(objects: map<Digest, ObjectRow>, cas: set<Digest>) {
    forall d :: d in objects ==> d in cas && DescribesBytes(d, objects[d])
  }

  ghost predicate DescribesBytes(d: Digest, row: ObjectRow) {
    Open(d).Some? && Genuine(StoredObject(d, row.byteLength, row.kind))
  }

  ghost predicate PayloadMatches(e: EventRow) {
    && Snapshot(e).Some?
    && Snapshot(e).value.kindText == e.kind.Text()
    && ProjectionOf(e).WellFormed()
    && ProjectionOf(e).taskId == e.streamId
    && ProjectionOf(e).revision == e.streamRevision
    && ProjectionOf(e).updatedAtMs == e.recordedAtMs
  }

  // A history is a sequential run: each projection succeeds the one before it.
  ghost predicate SequentialLog(log: seq<EventRow>) {
    forall k :: 0 < k < |log| ==> Succeeds(ProjectionOf(log[k - 1]), ProjectionOf(log[k]))
  }

  ghost predicate HeadMatches(log: seq<EventRow>, p: TaskProjection) {
    |log| > 0 && p == ProjectionOf(log[|log| - 1])
  }

  ghost predicate HistoryInv(
    events: seq<EventRow>, projections: map<string, TaskProjection>)
  {
    && (forall i :: 0 <= i < |events| ==> PayloadMatches(events[i]))
    && (forall t :: t in projections ==> HeadMatches(Log(events, t), projections[t]) && SequentialLog(Log(events, t)))
  }

  ghost predicate Referenced(edges: map<string, map<Digest, Role>>, d: Digest) {
    exists e :: e in edges && d in edges[e]
  }

  // In a database born at the current version a digest is validated at startup exactly
  // when some event names it.
  ghost predicate TimingInv(objects: map<Digest, ObjectRow>, edges: map<string, map<Digest, Role>>) {
    forall d :: d in objects ==> (objects[d].timing == Startup <==> Referenced(edges, d))
  }

  ghost predicate StoreInv(store: Store) {
    && Inv(store.db)
    && store.db.boundary == 1
    && ObjectsStored(store.db.objects, store.cas)
    && HistoryInv(store.db.events, store.db.projections)
    && TimingInv(store.db.objects, store.db.edges)
  }

  lemma FreshStoreInv()
    ensures StoreInv(FRESH)
  {
    EmptyInv();
  }

  // ---- Preservation ----

  lemma ObjectsStoredAfterAdmission(
    before: map<Digest, ObjectRow>, admitted: seq<StoredObject>, after: map<Digest, ObjectRow>, cas: set<Digest>)
    requires ObjectsStored(before, cas) && AdmittedAll(before, admitted, after)
    requires forall o :: o in admitted ==> Genuine(o) && o.digest in cas
    ensures ObjectsStored(after, cas)
  {
    forall d | d in after
      ensures d in cas && DescribesBytes(d, after[d])
    {
      if d in Digests(admitted) {
        var i :| 0 <= i < |admitted| && admitted[i].digest == d;
        assert admitted[i] in admitted;
        assert Holds(after, admitted[i]);
        assert StoredObject(d, after[d].byteLength, after[d].kind) == admitted[i];
      } else {
        assert DescribesBytes(d, before[d]);
      }
    }
  }

  lemma ObjectsStoredAfterOne(
    before: map<Digest, ObjectRow>, o: StoredObject, atMs: int, timing: Timing, cas: set<Digest>)
    requires ObjectsStored(before, cas) && Genuine(o) && o.digest in cas
    requires AdmitObject(before, o, atMs, timing).Ok?
    ensures ObjectsStored(AdmitObject(before, o, atMs, timing).value, cas)
  {
    var after := AdmitObject(before, o, atMs, timing).value;
    forall d | d in after
      ensures d in cas && DescribesBytes(d, after[d])
    {
      if d in before {
        assert DescribesBytes(d, before[d]);
      } else {
        assert d == o.digest && StoredObject(d, after[d].byteLength, after[d].kind) == o;
      }
    }
  }

  // Re-admitting a stored object never reports differing metadata.
  lemma AdmissionSucceeds(before: map<Digest, ObjectRow>, o: StoredObject, atMs: int, timing: Timing, cas: set<Digest>)
    requires ObjectsStored(before, cas) && Genuine(o)
    ensures AdmitObject(before, o, atMs, timing).Ok?
  {
    if o.digest in before {
      var row := before[o.digest];
      assert DescribesBytes(o.digest, row);
      GenuineAgree(StoredObject(o.digest, row.byteLength, row.kind), o);
    }
  }

  lemma TimingAfterAdmission(
    before: map<Digest, ObjectRow>, edges: map<string, map<Digest, Role>>,
    admitted: seq<StoredObject>, after: map<Digest, ObjectRow>, id: string, added: map<Digest, Role>)
    requires TimingInv(before, edges) && AdmittedAll(before, admitted, after)
    requires id !in edges && added.Keys == Digests(admitted)
    ensures TimingInv(after, edges[id := added])
  {
    var edges' := edges[id := added];
    forall d | d in after
      ensures after[d].timing == Startup <==> Referenced(edges', d)
    {
      if d in added {
        var i :| 0 <= i < |admitted| && admitted[i].digest == d;
        assert admitted[i] in admitted;
        assert id in edges' && d in edges'[id];
      } else {
        assert d in before && after[d] == before[d];
        if Referenced(edges, d) {
          var e :| e in edges && d in edges[e];
          assert e in edges' && d in edges'[e];
        }
        if Referenced(edges', d) {
          var e :| e in edges' && d in edges'[e];
          assert e in edges && d in edges[e];
        }
      }
    }
  }

  lemma TimingAfterOnAccess(
    before: map<Digest, ObjectRow>, edges: map<string, map<Digest, Role>>, o: StoredObject, atMs: int)
    requires TimingInv(before, edges)
    requires forall e :: e in edges ==> edges[e].Keys <= before.Keys
    requires AdmitObject(before, o, atMs, OnAccess).Ok?
    ensures TimingInv(AdmitObject(before, o, atMs, OnAccess).value, edges)
  {
    var after := AdmitObject(before, o, atMs, OnAccess).value;
    forall d | d in after
      ensures after[d].timing == Startup <==> Referenced(edges, d)
    {
      if d in before {
        assert before[d].timing == Startup <==> Referenced(edges, d);
      } else {
        assert forall e :: e in edges ==> d !in edges[e];
      }
    }
  }

  lemma SequentialSnoc(log: seq<EventRow>, e: EventRow)
    requires SequentialLog(log)
    requires |log| > 0 ==> Succeeds(ProjectionOf(log[|log| - 1]), ProjectionOf(e))
    ensures SequentialLog(log + [e])
  {
    var longer := log + [e];
    forall k | 0 < k < |longer|
      ensures Succeeds(ProjectionOf(longer[k - 1]), ProjectionOf(longer[k]))
    {
      if k < |log| {
        assert longer[k - 1] == log[k - 1] && longer[k] == log[k];
      }
    }
  }

  lemma RecordRowMatches(r: Record)
    requires r.projection.WellFormed() && r.projection.revision == r.expectedRevision + 1
    ensures PayloadMatches(AdmittedRow(RecordRequest(r)))
    ensures ProjectionOf(AdmittedRow(RecordRequest(r))) == r.projection
    ensures Snapshot(AdmittedRow(RecordRequest(r))) == Some(TaskEvent(r.kind.Text(), r.data, r.projection))
  {
    EventDigestRoundTrip(TaskEvent(r.kind.Text(), r.data, r.projection));
  }

  lemma LogAfterAppend(log: seq<EventRow>, row: EventRow, p: TaskProjection)
    requires SequentialLog(log) && ProjectionOf(row) == p
    requires |log| > 0 ==> Succeeds(ProjectionOf(log[|log| - 1]), p)
    ensures HeadMatches(log + [row], p) && SequentialLog(log + [row])
  {
    SequentialSnoc(log, row);
    assert (log + [row])[|log|] == row;
  }

  lemma PayloadsAfterAppend(events: seq<EventRow>, row: EventRow)
    requires forall i :: 0 <= i < |events| ==> PayloadMatches(events[i])
    requires PayloadMatches(row)
    ensures forall i :: 0 <= i < |events + [row]| ==> PayloadMatches((events + [row])[i])
  {
  }

  lemma HistoryAfterAppend(
    events: seq<EventRow>, projections: map<string, TaskProjection>, row: EventRow, p: TaskProjection)
    requires HistoryInv(events, projections)
    requires PayloadMatches(row) && ProjectionOf(row) == p
    requires row.streamId in projections ==> Succeeds(projections[row.streamId], p)
    requires row.streamId !in projections ==> Log(events, row.streamId) == []
    ensures HistoryInv(events + [row], projections[row.streamId := p])
  {
    hide PayloadMatches, SequentialLog, Succeeds;
    var id := row.streamId;
    var log := Log(events, id);
    PayloadsAfterAppend(events, row);
    assert id in projections ==> HeadMatches(log, projections[id]) && SequentialLog(log);
    LogAfterAppend(log, row, p);
    LogSnoc(events, row, id);
    forall t | t in projections && t != id
      ensures HeadMatches(Log(events + [row], t), projections[t]) && SequentialLog(Log(events + [row], t))
    {
      LogSnoc(events, row, t);
    }
  }

  lemma AppendedHistory(store: Store, r: Record, after: Db)
    requires StoreInv(store) && Disciplined(store, Append(r)) && AppendedBy(store.db, RecordRequest(r), after)
    ensures HistoryInv(after.events, after.projections)
  {
    var t := r.projection.taskId;
    var row := AdmittedRow(RecordRequest(r));
    RecordRowMatches(r);
    if t in store.db.projections {
      CurrentEvent(store.db, t);
    } else {
      LogEmpty(store.db.events, t);
    }
    HistoryAfterAppend(store.db.events, store.db.projections, row, r.projection);
  }

  // The projection of a task is the one stored in its event at the current revision.
  lemma CurrentEvent(db: Db, t: string)
    requires StreamInv(db.events, db.streams, db.projections) && HistoryInv(db.events, db.projections)
    requires t in db.projections
    ensures t in db.streams && db.projections[t].revision == db.streams[t].revision == |Log(db.events, t)| >= 1
    ensures EventAt(db, t, db.projections[t].revision).Some?
    ensures ProjectionOf(EventAt(db, t, db.projections[t].revision).value) == db.projections[t]
  {
    assert StreamOk(Log(db.events, t), db.streams[t]) && ProjectionOk(t, db.streams[t], db.projections[t]);
    assert HeadMatches(Log(db.events, t), db.projections[t]);
  }

  lemma AppendedObjects(store: Store, r: Record, after: Db)
    requires StoreInv(store) && Disciplined(store, Append(r)) && AppendedBy(store.db, RecordRequest(r), after)
    ensures ObjectsStored(after.objects, store.cas) && TimingInv(after.objects, after.edges)
  {
    var a := RecordRequest(r);
    var admitted := [a.payloadObject] + a.referencedObjects;
    forall o | o in admitted
      ensures Genuine(o) && o.digest in store.cas
    {
      assert o == a.payloadObject || o in a.referencedObjects;
    }
    ObjectsStoredAfterAdmission(store.db.objects, admitted, after.objects, store.cas);
    EdgeKeys(a.payloadObject, a.referencedObjects);
    assert a.event.eventId !in store.db.edges;
    TimingAfterAdmission(store.db.objects, store.db.edges, admitted, after.objects, a.event.eventId,
                         EventEdges(a.payloadObject, a.referencedObjects).value);
  }

  lemma AppendStepKeeps(store: Store, r: Record)
    requires StoreInv(store) && Disciplined(store, Append(r))
    ensures StoreInv(Perform(store, Append(r)))
  {
    var a := RecordRequest(r);
    var after := AppendTaskEvent(store.db, a).db;
    AppendKeepsInv(store.db, a);
    if AppendTaskEvent(store.db, a).result == Ok(Created) {
      CreatedMeansAppended(store.db, a);
      AppendedHistory(store, r, after);
      AppendedObjects(store, r, after);
    } else {
      NotCreatedMeansKept(store.db, a);
    }
  }

  lemma OnAccessObjects(
    objects: map<Digest, ObjectRow>, edges: map<string, map<Digest, Role>>, cas: set<Digest>, o: StoredObject, atMs: int)
    requires ObjectsStored(objects, cas) && TimingInv(objects, edges) && Genuine(o) && o.digest in cas
    requires forall e :: e in edges ==> edges[e].Keys <= objects.Keys
    ensures AdmitObject(objects, o, atMs, OnAccess).Ok?
    ensures ObjectsStored(AdmitObject(objects, o, atMs, OnAccess).value, cas)
    ensures TimingInv(AdmitObject(objects, o, atMs, OnAccess).value, edges)
  {
    AdmissionSucceeds(objects, o, atMs, OnAccess, cas);
    ObjectsStoredAfterOne(objects, o, atMs, OnAccess, cas);
    TimingAfterOnAccess(objects, edges, o, atMs);
  }

  // A database that gained only objects and board or news rows.
  lemma SideTablesKeep(store: Store, after: Db)
    requires StoreInv(store) && Inv(after)
    requires after == store.db.(objects := after.objects, board := after.board, editions := after.editions,
                                publications := after.publications)
    requires ObjectsStored(after.objects, store.cas) && TimingInv(after.objects, store.db.edges)
    ensures StoreInv(store.(db := after))
  {
  }

  lemma PostStepKeeps(store: Store, m: BoardRequest)
    requires StoreInv(store) && Disciplined(store, Post(m))
    ensures StoreInv(Perform(store, Post(m)))
  {
    var out := AppendBoardMessage(store.db, m);
    BoardKeepsInv(store.db, m);
    PostEffect(store.db, m);
    OnAccessObjects(store.db.objects, store.db.edges, store.cas, m.stored, m.row.recordedAtMs);
    if out.result == Ok(Created) {
      SideTablesKeep(store, out.db);
    }
  }

  lemma PublishStepKeeps(store: Store, n: NewsRequest)
    requires StoreInv(store) && Disciplined(store, Publish(n))
    ensures StoreInv(Perform(store, Publish(n)))
  {
    var out := AppendNewsPublication(store.db, n);
    NewsKeepsInv(store.db, n);
    PublishEffect(store.db, n);
    OnAccessObjects(store.db.objects, store.db.edges, store.cas, n.stored, n.recordedAtMs);
    if out.result == Ok(Created) {
      SideTablesKeep(store, out.db);
    }
  }

  lemma LeaseStepKeeps(store: Store, after: Db)
    requires StoreInv(store) && Inv(after) && after == store.db.(leases := after.leases)
    ensures StoreInv(store.(db := after))
  {
  }

  lemma StepKeeps(store: Store, act: Action)
    requires StoreInv(store)
    ensures StoreInv(Step(store, act))
  {
    if Disciplined(store, act) {
      match act
      case Put(_, _) =>
      case Append(r) => AppendStepKeeps(store, r);
      case Acquire(t, o, now, ttl) =>
        AcquireKeepsInv(store.db, t, o, now, ttl);
        AcquireEffect(store.db, t, o, now, ttl);
        LeaseStepKeeps(store, AcquireLease(store.db, t, o, now, ttl).db);
      case Release(lease) =>
        ReleaseKeepsInv(store.db, lease);
        LeaseStepKeeps(store, ReleaseLease(store.db, lease).db);
      case Post(m) => PostStepKeeps(store, m);
      case Publish(n) => PublishStepKeeps(store, n);
    }
  }

  // Theorem: whatever the writers do and however they interleave, stall or crash, the
  // journal and the store keep the invariant.
  lemma {:induction false} RunKeeps(store: Store, acts: seq<Action>)
    requires StoreInv(store)
    ensures StoreInv(Run(store, acts))
  {
    if |acts| > 0 {
      RunKeeps(store, acts[..|acts| - 1]);
      StepKeeps(Run(store, acts[..|acts| - 1]), acts[|acts| - 1]);
    }
  }
}
