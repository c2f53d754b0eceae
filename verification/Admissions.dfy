// What an accepted record means to later readers, new or replayed.
module Admissions {
  import opened Base
  import opened Json
  import opened Domain
  import opened Tables
  import opened Transactions
  import opened JournalInvariants
  import opened Storage
  import opened Evolution
  import opened Workers
  import opened Snapshots

  function SnapshotOfRecord(r: Record): TaskEventSnapshot {
    TaskEventSnapshot(r.kind, r.data, r.projection, Address(EVENT_OBJECT_KIND, PayloadJson(r)))
  }

  lemma RecordSnapshot(e: EventRow, r: Record)
    requires r.projection.WellFormed()
    requires e.payloadDigest == Address(EVENT_OBJECT_KIND, PayloadJson(r)) && e.kind == r.kind
    ensures SnapshotOf(e) == Some(SnapshotOfRecord(r)) && ProjectionOf(e) == r.projection
  {
    EventDigestRoundTrip(TaskEvent(r.kind.Text(), r.data, r.projection));
  }

  // An event of a history sits at its own revision.
  lemma EventInLog(db: Db, i: nat)
    requires StreamInv(db.events, db.streams, db.projections) && i < |db.events|
    ensures EventAt(db, db.events[i].streamId, db.events[i].streamRevision) == Some(db.events[i])
  {
    var t := db.events[i].streamId;
    var log := Log(db.events, t);
    LogMembers(db.events, t);
    assert db.events[i] in log;
    assert StreamOk(log, db.streams[t]);
  }

  lemma CreatedSnapshot(met: Store, r: Record)
    requires StreamInv(met.db.events, met.db.streams, met.db.projections)
    requires AppendTaskEvent(met.db, RecordRequest(r)).result == Ok(Created)
    ensures SnapshotAt(Perform(met, Append(r)).db, r.projection.taskId, r.projection.revision) == Some(SnapshotOfRecord(r))
    ensures Revision(met, r.projection.taskId) == r.expectedRevision
    ensures r.projection.revision == r.expectedRevision + 1 == Revision(Perform(met, Append(r)), r.projection.taskId)
  {
    hide StreamInv, AppendTaskEvent, Snapshot, TaskProjection.WellFormed, PayloadJson;
    var t := r.projection.taskId;
    CreatedMeansAppended(met.db, RecordRequest(r));
    CommitFence(met, r);
    HistoryLength(met.db, t, r.expectedRevision);
    LogSnoc(met.db.events, AdmittedRow(RecordRequest(r)), t);
    RecordSnapshot(AdmittedRow(RecordRequest(r)), r);
  }

  lemma HistoryLength(db: Db, t: string, revision: int)
    requires StreamInv(db.events, db.streams, db.projections)
    requires revision == if t in db.projections then db.projections[t].revision else 0
    ensures |Log(db.events, t)| == revision
  {
    if t in db.projections {
      assert StreamOk(Log(db.events, t), db.streams[t]) && ProjectionOk(t, db.streams[t], db.projections[t]);
    } else {
      LogEmpty(db.events, t);
    }
  }

  lemma ExistingRow(db: Db, a: AppendRequest) returns (i: nat)
    requires AppendTaskEvent(db, a).result == Ok(Existing)
    ensures i < |db.events|
    ensures var e := db.events[i];
            && e.eventId == a.event.eventId
            && e.streamId == a.event.streamId == a.projection.taskId
            && e.kind == a.event.kind
            && e.payloadDigest == a.event.payloadDigest
    ensures AppendTaskEvent(db, a).db.events == db.events
    ensures a.projection.WellFormed()
  {
    i := FindEvent(db.events, a.event.eventId).value;
  }

  // A replay is recognised only at the revision that recorded it.
  lemma ExistingSnapshot(met: Store, r: Record)
    requires StreamInv(met.db.events, met.db.streams, met.db.projections)
    requires HistoryInv(met.db.events, met.db.projections)
    requires AppendTaskEvent(met.db, RecordRequest(r)).result == Ok(Existing)
    ensures SnapshotAt(met.db, r.projection.taskId, r.projection.revision) == Some(SnapshotOfRecord(r))
    ensures Perform(met, Append(r)).db.events == met.db.events
  {
    hide StreamInv, AppendTaskEvent, Snapshot;
    var i := ExistingRow(met.db, RecordRequest(r));
    EventInLog(met.db, i);
    assert PayloadMatches(met.db.events[i]);
    RecordSnapshot(met.db.events[i], r);
  }

  // Theorem: an accepted record, created or replayed, is what its revision recorded.
  lemma AcceptedSnapshot(met: Store, r: Record)
    requires StoreInv(met) && AppendTaskEvent(met.db, RecordRequest(r)).result.Ok?
    ensures SnapshotAt(Perform(met, Append(r)).db, r.projection.taskId, r.projection.revision) == Some(SnapshotOfRecord(r))
  {
    hide StoreInv, AppendTaskEvent, StreamInv, HistoryInv, Snapshot;
    StoreParts(met);
    match AppendTaskEvent(met.db, RecordRequest(r)).result.value
    case Created => CreatedSnapshot(met, r);
    case Existing => ExistingSnapshot(met, r);
  }

  lemma CreatedAt(met: Store, r: Record)
    requires StoreInv(met) && AppendTaskEvent(met.db, RecordRequest(r)).result == Ok(Created)
    ensures Revision(met, r.projection.taskId) == r.expectedRevision
    ensures r.projection.revision == r.expectedRevision + 1 == Revision(Perform(met, Append(r)), r.projection.taskId)
  {
    hide StoreInv, AppendTaskEvent, StreamInv, Snapshot;
    StoreParts(met);
    CreatedSnapshot(met, r);
  }

  lemma {:induction false} AdmitAllSucceeds(
    objects: map<Digest, ObjectRow>, admitted: seq<StoredObject>, atMs: int, cas: set<Digest>)
    requires ObjectsStored(objects, cas) && forall o :: o in admitted ==> Genuine(o) && o.digest in cas
    ensures AdmitAll(objects, admitted, atMs).Ok? && ObjectsStored(AdmitAll(objects, admitted, atMs).value, cas)
  {
    if |admitted| > 0 {
      var init, last := admitted[..|admitted| - 1], admitted[|admitted| - 1];
      AdmitAllSucceeds(objects, init, atMs, cas);
      AdmissionSucceeds(AdmitAll(objects, init, atMs).value, last, atMs, Startup, cas);
      ObjectsStoredAfterOne(AdmitAll(objects, init, atMs).value, last, atMs, Startup, cas);
    }
  }

  lemma AddressKinds(kind: string, payload: Value, kind': string, payload': Value)
    requires kind != kind'
    ensures Address(kind, payload) != Address(kind', payload')
  {
    assert Envelope(kind, payload).fields["kind"] == Str(kind);
    assert Envelope(kind', payload').fields["kind"] == Str(kind');
  }

  // Times of a stream never run backwards.
  lemma StreamTime(db: Db, a: AppendRequest, t: string)
    requires StreamInv(db.events, db.streams, db.projections)
    requires t == a.event.streamId && t in db.projections && db.projections[t].updatedAtMs < a.event.recordedAtMs
    ensures AdmittedStream(db, a).createdAtMs <= AdmittedStream(db, a).updatedAtMs
  {
    assert StreamOk(Log(db.events, t), db.streams[t]) && ProjectionOk(t, db.streams[t], db.projections[t]);
  }

  lemma RequestObjects(store: Store, r: Record)
    requires Disciplined(store, Append(r))
    ensures forall o :: o in [RecordRequest(r).payloadObject] + r.referenced ==> Genuine(o) && o.digest in store.cas
  {
  }

  lemma AppendOutcome(db: Db, a: AppendRequest)
    requires Preflight(a).None? && FindEvent(db.events, a.event.eventId).None? && AdmissionRefusal(db, a).None?
    requires AdmitAll(db.objects, [a.payloadObject] + a.referencedObjects, a.event.recordedAtMs).Ok?
    requires AdmittedStream(db, a).createdAtMs <= AdmittedStream(db, a).updatedAtMs
    requires EventEdges(a.payloadObject, a.referencedObjects).Some?
    ensures AppendTaskEvent(db, a).result == Ok(Created)
  {
  }

  // A fresh event identity at the current revision, under a live lease.
  predicate CauseKnown(db: Db, r: Record) {
    r.causedBy.Some? ==> FindEvent(db.events, r.causedBy.value).Some?
  }

  ghost predicate Unopposed(store: Store, r: Record) {
    && r.expectedRevision > 0
    && Revision(store, r.projection.taskId) == r.expectedRevision
    && FindEvent(store.db.events, r.eventId).None?
    && CauseKnown(store.db, r)
    && r.lease.Some? && r.checkedAtMs.Some? && r.checkedAtMs.value >= 0
    && r.lease.value.taskId == r.projection.taskId
    && LeaseValidates(store.db, r.lease.value, r.checkedAtMs.value)
    && (forall i :: 0 <= i < |r.referenced| ==> r.referenced[i].digest != Address(EVENT_OBJECT_KIND, PayloadJson(r)))
    && (r.extension.Some? ==> ExtensionStateFits(r.extension.value, RecordRequest(r)))
  }

  lemma UnopposedPasses(store: Store, r: Record)
    requires Unopposed(store, r) && Succeeds(store.db.projections[r.projection.taskId], r.projection)
    requires StreamInv(store.db.events, store.db.streams, store.db.projections)
    ensures Preflight(RecordRequest(r)).None? && AdmissionRefusal(store.db, RecordRequest(r)).None?
    ensures EventEdges(RecordRequest(r).payloadObject, r.referenced).Some?
    ensures FindEvent(store.db.events, RecordRequest(r).event.eventId).None?
  {
    hide PayloadJson, TaskProjection.WellFormed;
    var t := r.projection.taskId;
    assert ProjectionOk(t, store.db.streams[t], store.db.projections[t]);
  }

  // Theorem: nothing but the fences refuses a disciplined append.
  lemma UnopposedAppendSucceeds(store: Store, r: Record)
    requires StoreInv(store) && Disciplined(store, Append(r)) && Unopposed(store, r)
    ensures AppendTaskEvent(store.db, RecordRequest(r)).result == Ok(Created)
  {
    hide StoreInv, Disciplined, Unopposed, AppendTaskEvent, Preflight, AdmissionRefusal, EventEdges, AdmittedStream, StreamInv;
    hide HistoryInv;
    StoreParts(store);
    CurrentSucceeds(store, r);
    UnopposedPasses(store, r);
    RequestObjects(store, r);
    StoredObjects(store);
    AdmitAllSucceeds(store.db.objects, [RecordRequest(r).payloadObject] + r.referenced, r.projection.updatedAtMs, store.cas);
    StreamTime(store.db, RecordRequest(r), r.projection.taskId);
    AppendOutcome(store.db, RecordRequest(r));
  }

  lemma StoredObjects(store: Store)
    requires StoreInv(store)
    ensures ObjectsStored(store.db.objects, store.cas)
  {
  }

  lemma SucceedsItsEvent(store: Store, r: Record, e: EventRow)
    requires Disciplined(store, Append(r)) && r.expectedRevision > 0
    requires EventAt(store.db, r.projection.taskId, r.expectedRevision) == Some(e)
    ensures Succeeds(ProjectionOf(e), r.projection)
  {
    hide Available, Succeeds, EventAt, ProjectionOf, PayloadJson, TaskProjection.WellFormed;
  }

  lemma AtItsRevision(store: Store, r: Record)
    requires Unopposed(store, r)
    ensures r.expectedRevision > 0 && r.projection.taskId in store.db.projections
    ensures store.db.projections[r.projection.taskId].revision == r.expectedRevision
  {
    hide LeaseValidates, PayloadJson, FindEvent;
  }

  lemma CurrentSucceeds(store: Store, r: Record)
    requires StoreInv(store) && Disciplined(store, Append(r)) && Unopposed(store, r)
    ensures r.projection.taskId in store.db.projections
    ensures Succeeds(store.db.projections[r.projection.taskId], r.projection)
  {
    hide StoreInv, StreamInv, HistoryInv, Disciplined, Unopposed, Succeeds, EventAt, ProjectionOf;
    var t := r.projection.taskId;
    StoreParts(store);
    AtItsRevision(store, r);
    CurrentEvent(store.db, t);
    SucceedsItsEvent(store, r, EventAt(store.db, t, r.expectedRevision).value);
  }

  // A first revision: no lease is needed, only that the task does not exist yet.
  ghost predicate UnopposedFirst(store: Store, r: Record) {
    && r.expectedRevision == 0 && r.projection.revision == 1 && r.projection.WellFormed()
    && r.projection.taskId !in store.db.projections
    && FindEvent(store.db.events, r.eventId).None?
    && CauseKnown(store.db, r)
    && r.lease.None? && r.checkedAtMs.None? && r.extension.None?
    && (forall i :: 0 <= i < |r.referenced| ==> r.referenced[i].digest != Address(EVENT_OBJECT_KIND, PayloadJson(r)))
  }

  lemma FirstPasses(store: Store, r: Record)
    requires UnopposedFirst(store, r) && StreamInv(store.db.events, store.db.streams, store.db.projections)
    ensures Preflight(RecordRequest(r)).None? && AdmissionRefusal(store.db, RecordRequest(r)).None?
    ensures EventEdges(RecordRequest(r).payloadObject, r.referenced).Some?
    ensures FindEvent(store.db.events, RecordRequest(r).event.eventId).None?
    ensures AdmittedStream(store.db, RecordRequest(r)).createdAtMs <= AdmittedStream(store.db, RecordRequest(r)).updatedAtMs
  {
    hide PayloadJson;
  }

  lemma UnopposedFirstSucceeds(store: Store, r: Record)
    requires StoreInv(store) && Disciplined(store, Append(r)) && UnopposedFirst(store, r)
    ensures AppendTaskEvent(store.db, RecordRequest(r)).result == Ok(Created)
  {
    hide StoreInv, Disciplined, UnopposedFirst, AppendTaskEvent, Preflight, AdmissionRefusal, EventEdges, AdmittedStream;
    hide HistoryInv, StreamInv;
    StoreParts(store);
    FirstPasses(store, r);
    RequestObjects(store, r);
    StoredObjects(store);
    AdmitAllSucceeds(store.db.objects, [RecordRequest(r).payloadObject] + r.referenced, r.projection.updatedAtMs, store.cas);
    AppendOutcome(store.db, RecordRequest(r));
  }

  // What a created first revision leaves behind.
  lemma AfterFirst(store: Store, r: Record)
    requires StoreInv(store) && r.lease.None? && AppendTaskEvent(store.db, RecordRequest(r)).result == Ok(Created)
    ensures var after := Perform(store, Append(r));
            && after.db.projections == store.db.projections[r.projection.taskId := r.projection]
            && after.db.leases == store.db.leases
            && (forall id :: FindEvent(store.db.events, id).None? && id != r.eventId ==> FindEvent(after.db.events, id).None?)
  {
    hide StoreInv, AppendTaskEvent;
    CreatedMeansAppended(store.db, RecordRequest(r));
  }

  lemma LeaseNeedsTask(store: Store, t: string)
    requires StoreInv(store) && t in store.db.leases
    ensures t in store.db.projections
  {
  }
}
