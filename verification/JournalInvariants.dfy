// The invariant every Host Journal database keeps, strong enough to be inductive, and
// the proof that every transaction keeps it.
module JournalInvariants {
  import opened Base
  import opened Json
  import opened Domain
  import opened Tables
  import opened Transactions

  ghost predicate UniqueEvents(events: seq<EventRow>) {
    forall i, j :: 0 <= i < j < |events| ==> events[i].eventId != events[j].eventId
  }

  // One stream row against its history: revisions run 1, 2, ... without a gap.
  ghost predicate StreamOk(log: seq<EventRow>, row: StreamRow) {
    && |log| >= 1
    && row.kind == TaskStream
    && row.revision == |log|
    && 0 <= row.createdAtMs <= row.updatedAtMs
    && row.createdAtMs == log[0].recordedAtMs
    && row.updatedAtMs == log[|log| - 1].recordedAtMs
    && (forall k :: 0 <= k < |log| ==> log[k].streamRevision == k + 1 && log[k].streamKind == row.kind)
  }

  ghost predicate ProjectionOk(t: string, row: StreamRow, p: TaskProjection) {
    && p.taskId == t
    && p.WellFormed()
    && p.revision == row.revision
    && p.updatedAtMs == row.updatedAtMs
  }

  ghost predicate StreamInv(
    events: seq<EventRow>, streams: map<string, StreamRow>, projections: map<string, TaskProjection>)
  {
    && (forall i :: 0 <= i < |events| ==> events[i].streamId in streams)
    && (forall t :: t in streams ==> StreamOk(Log(events, t), streams[t]))
    && projections.Keys == streams.Keys
    && (forall t :: t in streams && t in projections ==> ProjectionOk(t, streams[t], projections[t]))
  }

  // Every cause is an earlier event, so the causal graph has no cycle.
  ghost predicate CausesPointBack(events: seq<EventRow>) {
    forall i :: 0 <= i < |events| && events[i].causedBy.Some? ==> CausedEarlier(events, i)
  }

  ghost predicate CausedEarlier(events: seq<EventRow>, i: nat)
    requires i < |events| && events[i].causedBy.Some?
  {
    exists j :: 0 <= j < i && events[j].eventId == events[i].causedBy.value
  }

  ghost predicate EdgesOk(e: EventRow, edges: map<string, map<Digest, Role>>) {
    && e.eventId in edges
    && e.payloadDigest in edges[e.eventId]
    && forall d :: d in edges[e.eventId] ==> (edges[e.eventId][d] == Payload <==> d == e.payloadDigest)
  }

  ghost predicate EdgeInv(
    events: seq<EventRow>, edges: map<string, map<Digest, Role>>, objects: map<Digest, ObjectRow>, boundary: int)
  {
    && 1 <= boundary <= |events| + 1
    && (forall i :: 0 <= i < |events| ==> events[i].payloadDigest in objects)
    && (forall i :: boundary - 1 <= i < |events| ==> EdgesOk(events[i], edges))
    && (forall e :: e in edges ==> FindEvent(events, e).Some? && edges[e].Keys <= objects.Keys)
  }

  ghost predicate ExtensionOk(log: seq<EventRow>, ns: string, x: ExtensionRow) {
    && 1 <= x.revision <= |log|
    && log[x.revision - 1].eventId == x.eventId
    && log[x.revision - 1].kind.Extension?
    && log[x.revision - 1].kind.ns == ns
    && !x.legacy
  }

  ghost predicate ExtensionInv(
    events: seq<EventRow>, extensions: map<ExtensionKey, ExtensionRow>, objects: map<Digest, ObjectRow>)
  {
    forall key :: key in extensions ==>
      && ExtensionOk(Log(events, key.taskId), key.ns, extensions[key])
      && extensions[key].stateDigest in objects
  }

  ghost predicate LeaseInv(leases: map<string, LeaseRow>, projections: map<string, TaskProjection>) {
    forall t :: t in leases ==> t in projections && leases[t].revision >= 1 && leases[t].expiresAtMs >= 1
  }

  ghost predicate RepliesEarlier(board: seq<BoardRow>, i: nat)
    requires i < |board| && board[i].replyTo.Some?
  {
    exists j :: 0 <= j < i && board[j].clientMessageId == board[i].replyTo.value
  }

  // Client identities are unique and every reply answers an earlier message.
  ghost predicate BoardInv(board: seq<BoardRow>, objects: map<Digest, ObjectRow>) {
    && (forall i, j :: 0 <= i < j < |board| ==> board[i].clientMessageId != board[j].clientMessageId)
    && (forall i :: 0 <= i < |board| ==> board[i].messageDigest in objects)
    && (forall i :: 0 <= i < |board| && board[i].replyTo.Some? ==> RepliesEarlier(board, i))
  }

  ghost predicate EditionOk(rows: seq<PublicationRow>, head: EditionRow) {
    && |rows| >= 1
    && head.revision == |rows|
    && 0 <= head.createdAtMs <= head.updatedAtMs
    && head.digest == rows[|rows| - 1].digest
    && (forall k :: 0 <= k < |rows| ==>
          && rows[k].revision == k + 1
          && rows[k].expectedRevision == k
          && rows[k].date == head.date
          && rows[k].timezone == head.timezone)
  }

  ghost predicate UniquePublications(publications: seq<PublicationRow>) {
    forall i, j :: 0 <= i < j < |publications| ==>
      publications[i].clientPublishId != publications[j].clientPublishId
  }

  ghost predicate PublicationOk(
    row: PublicationRow, editions: map<string, EditionRow>, objects: map<Digest, ObjectRow>)
  {
    && row.editionId in editions
    && row.digest in objects
    && objects[row.digest].kind == NEWS_OBJECT_KIND
  }

  ghost predicate NewsInv(
    publications: seq<PublicationRow>, editions: map<string, EditionRow>, objects: map<Digest, ObjectRow>)
  {
    && UniquePublications(publications)
    && (forall i :: 0 <= i < |publications| ==> PublicationOk(publications[i], editions, objects))
    && (forall ed :: ed in editions ==> EditionOk(Publications(publications, ed), editions[ed]))
  }

  ghost predicate Inv(db: Db) {
    && UniqueEvents(db.events)
    && StreamInv(db.events, db.streams, db.projections)
    && CausesPointBack(db.events)
    && EdgeInv(db.events, db.edges, db.objects, db.boundary)
    && ExtensionInv(db.events, db.extensions, db.objects)
    && LeaseInv(db.leases, db.projections)
    && BoardInv(db.board, db.objects)
    && NewsInv(db.publications, db.editions, db.objects)
  }

  lemma EmptyInv()
    ensures Inv(EMPTY)
  {
  }

  // Object rows: no transaction changes a kind, a length or a first-seen time, or drops
  // a row; a validation timing only moves from on-access to startup.
  ghost predicate ObjectsGrow(before: map<Digest, ObjectRow>, after: map<Digest, ObjectRow>) {
    forall d :: d in before ==>
      d in after && (after[d] == before[d] || after[d] == before[d].(timing := Startup))
  }

  ghost predicate Holds(objects: map<Digest, ObjectRow>, o: StoredObject) {
    && o.digest in objects
    && objects[o.digest].kind == o.kind
    && objects[o.digest].byteLength == o.byteLength
  }

  // After an admission the admitted objects are startup rows and other rows stand.
  ghost predicate AdmittedAll(
    before: map<Digest, ObjectRow>, admitted: seq<StoredObject>, after: map<Digest, ObjectRow>)
  {
    && ObjectsGrow(before, after)
    && (forall o :: o in admitted ==> Holds(after, o) && after[o.digest].timing == Startup)
    && (forall d :: d in after ==> d in Digests(admitted) || (d in before && after[d] == before[d]))
  }

  lemma DigestsSnoc(admitted: seq<StoredObject>, o: StoredObject)
    ensures Digests(admitted + [o]) == Digests(admitted) + {o.digest}
  {
    var longer := admitted + [o];
    forall d | d in Digests(admitted) + {o.digest}
      ensures d in Digests(longer)
    {
      if d in Digests(admitted) {
        var i :| 0 <= i < |admitted| && admitted[i].digest == d;
        assert longer[i].digest == d;
      } else {
        assert longer[|admitted|].digest == d;
      }
    }
  }

  lemma AdmitOneStep(
    before: map<Digest, ObjectRow>, admitted: seq<StoredObject>, middle: map<Digest, ObjectRow>, o: StoredObject, atMs: int)
    requires AdmittedAll(before, admitted, middle)
    requires AdmitObject(middle, o, atMs, Startup).Ok?
    ensures AdmittedAll(before, admitted + [o], AdmitObject(middle, o, atMs, Startup).value)
  {
    DigestsSnoc(admitted, o);
  }

  lemma {:induction false} AdmitAllSpec(
    objects: map<Digest, ObjectRow>, admitted: seq<StoredObject>, atMs: int)
    requires AdmitAll(objects, admitted, atMs).Ok?
    ensures AdmittedAll(objects, admitted, AdmitAll(objects, admitted, atMs).value)
  {
    if |admitted| > 0 {
      var init := admitted[..|admitted| - 1];
      var last := admitted[|admitted| - 1];
      AdmitAllSpec(objects, init, atMs);
      AdmitOneStep(objects, init, AdmitAll(objects, init, atMs).value, last, atMs);
      assert admitted == init + [last];
    }
  }

  // A stream row after its next event.
  ghost predicate StreamAdvances(row: EventRow, stream: StreamRow, streams: map<string, StreamRow>) {
    && row.streamKind == stream.kind == TaskStream
    && row.streamRevision == stream.revision
    && row.recordedAtMs == stream.updatedAtMs
    && 0 <= stream.createdAtMs <= stream.updatedAtMs
    && if row.streamId in streams
       then stream.revision == streams[row.streamId].revision + 1
            && stream.createdAtMs == streams[row.streamId].createdAtMs
       else stream.revision == 1 && stream.createdAtMs == row.recordedAtMs
  }

  lemma StreamOkSnoc(log: seq<EventRow>, before: StreamRow, row: EventRow, stream: StreamRow)
    requires StreamOk(log, before)
    requires row.streamKind == stream.kind == TaskStream && row.streamRevision == stream.revision
    requires row.recordedAtMs == stream.updatedAtMs && stream.createdAtMs <= stream.updatedAtMs
    requires stream.revision == before.revision + 1 && stream.createdAtMs == before.createdAtMs
    ensures StreamOk(log + [row], stream)
  {
    var longer := log + [row];
    assert longer[0] == log[0] && longer[|longer| - 1] == row;
    forall k | 0 <= k < |longer|
      ensures longer[k].streamRevision == k + 1 && longer[k].streamKind == stream.kind
    {
      if k < |log| {
        assert longer[k] == log[k];
      }
    }
  }

  lemma StreamsAfterAppend(
    events: seq<EventRow>, streams: map<string, StreamRow>, projections: map<string, TaskProjection>,
    row: EventRow, stream: StreamRow, projection: TaskProjection)
    requires StreamInv(events, streams, projections)
    requires ProjectionOk(row.streamId, stream, projection) && StreamAdvances(row, stream, streams)
    ensures StreamInv(events + [row], streams[row.streamId := stream], projections[row.streamId := projection])
  {
    hide TaskProjection.WellFormed, StreamOk, StreamAdvances, Log, ProjectionOk;
    var streams' := streams[row.streamId := stream];
    forall t | t in streams'
      ensures StreamOk(Log(events + [row], t), streams'[t])
    {
      StreamAfterAppend(events, streams, row, stream, t);
    }
  }

  lemma StreamAfterAppend(
    events: seq<EventRow>, streams: map<string, StreamRow>, row: EventRow, stream: StreamRow, t: string)
    requires forall i :: 0 <= i < |events| ==> events[i].streamId in streams
    requires t in streams ==> StreamOk(Log(events, t), streams[t])
    requires StreamAdvances(row, stream, streams) && (t in streams || t == row.streamId)
    ensures StreamOk(Log(events + [row], t), if t == row.streamId then stream else streams[t])
  {
    LogSnoc(events, row, t);
    if t == row.streamId {
      if t in streams {
        StreamOkSnoc(Log(events, t), streams[t], row, stream);
      } else {
        LogEmpty(events, t);
        assert Log(events + [row], t) == [row];
      }
    }
  }

  lemma CausesAfterAppend(events: seq<EventRow>, row: EventRow)
    requires CausesPointBack(events)
    requires row.causedBy.Some? ==> FindEvent(events, row.causedBy.value).Some?
    ensures CausesPointBack(events + [row])
  {
    var after := events + [row];
    forall i | 0 <= i < |after| && after[i].causedBy.Some?
      ensures CausedEarlier(after, i)
    {
      if i < |events| {
        assert CausedEarlier(events, i);
        var j :| 0 <= j < i && events[j].eventId == events[i].causedBy.value;
        assert after[j].eventId == after[i].causedBy.value;
      } else {
        var j := FindEvent(events, row.causedBy.value).value;
        assert after[j].eventId == after[i].causedBy.value;
      }
    }
  }

  lemma FindEventKept(events: seq<EventRow>, row: EventRow, id: string)
    requires FindEvent(events, id).Some? || row.eventId == id
    ensures FindEvent(events + [row], id).Some?
  {
    var i := if FindEvent(events, id).Some? then FindEvent(events, id).value else |events|;
    assert (events + [row])[i].eventId == id;
  }

  lemma EdgesAfterAppend(
    events: seq<EventRow>, edges: map<string, map<Digest, Role>>, objects: map<Digest, ObjectRow>, boundary: int,
    row: EventRow, added: map<Digest, Role>, after: map<Digest, ObjectRow>)
    requires EdgeInv(events, edges, objects, boundary)
    requires FindEvent(events, row.eventId).None?
    requires ObjectsGrow(objects, after) && added.Keys <= after.Keys
    requires EdgesOk(row, map[row.eventId := added])
    ensures EdgeInv(events + [row], edges[row.eventId := added], after, boundary)
  {
    var edges' := edges[row.eventId := added];
    forall e | e in edges'
      ensures FindEvent(events + [row], e).Some? && edges'[e].Keys <= after.Keys
    {
      FindEventKept(events, row, e);
    }
    forall i | boundary - 1 <= i < |events + [row]|
      ensures EdgesOk((events + [row])[i], edges')
    {
      if i < |events| {
        assert EdgesOk(events[i], edges);
      }
    }
  }

  lemma ExtensionsAfterAppend(
    events: seq<EventRow>, extensions: map<ExtensionKey, ExtensionRow>, objects: map<Digest, ObjectRow>,
    row: EventRow, after: map<Digest, ObjectRow>)
    requires ExtensionInv(events, extensions, objects) && ObjectsGrow(objects, after)
    ensures ExtensionInv(events + [row], extensions, after)
  {
    forall key | key in extensions
      ensures ExtensionOk(Log(events + [row], key.taskId), key.ns, extensions[key]) && extensions[key].stateDigest in after
    {
      LogSnoc(events, row, key.taskId);
    }
  }

  lemma BoardAfterGrowth(board: seq<BoardRow>, objects: map<Digest, ObjectRow>, after: map<Digest, ObjectRow>)
    requires BoardInv(board, objects) && ObjectsGrow(objects, after)
    ensures BoardInv(board, after)
  {
  }

  lemma NewsAfterGrowth(
    publications: seq<PublicationRow>, editions: map<string, EditionRow>,
    objects: map<Digest, ObjectRow>, after: map<Digest, ObjectRow>)
    requires NewsInv(publications, editions, objects) && ObjectsGrow(objects, after)
    ensures NewsInv(publications, editions, after)
  {
  }

  lemma TasksAfterGrowth(db: Db, after: map<Digest, ObjectRow>)
    requires EdgeInv(db.events, db.edges, db.objects, db.boundary)
    requires ExtensionInv(db.events, db.extensions, db.objects)
    requires ObjectsGrow(db.objects, after)
    ensures EdgeInv(db.events, db.edges, after, db.boundary)
    ensures ExtensionInv(db.events, db.extensions, after)
  {
  }

  // What a created append did, field by field.
  ghost predicate AppendedBy(db: Db, a: AppendRequest, after: Db) {
    && Preflight(a).None?
    && FindEvent(db.events, a.event.eventId).None?
    && AdmissionRefusal(db, a).None?
    && AdmittedAll(db.objects, [a.payloadObject] + a.referencedObjects, after.objects)
    && EventEdges(a.payloadObject, a.referencedObjects).Some?
    && AdmittedStream(db, a).createdAtMs <= AdmittedStream(db, a).updatedAtMs
    && after == Admitted(db, a, after.objects, EventEdges(a.payloadObject, a.referencedObjects).value)
  }

  lemma CreatedMeansAppended(db: Db, a: AppendRequest)
    requires AppendTaskEvent(db, a).result == Ok(Created)
    ensures AppendedBy(db, a, AppendTaskEvent(db, a).db)
  {
    AdmitAllSpec(db.objects, [a.payloadObject] + a.referencedObjects, a.event.recordedAtMs);
  }

  // Any other outcome leaves the database alone, or consumes the caller's own lease.
  lemma NotCreatedMeansKept(db: Db, a: AppendRequest)
    requires AppendTaskEvent(db, a).result != Ok(Created)
    ensures var after := AppendTaskEvent(db, a).db;
            || after == db
            || (&& a.expectedLease.Some?
                && after == db.(leases := WithoutLease(db.leases, a.expectedLease.value.taskId))
                && LeaseMatches(db, a.expectedLease.value))
    ensures AppendTaskEvent(db, a).result.Err? ==> AppendTaskEvent(db, a).db == db
  {
  }

  lemma EdgeKeys(payload: StoredObject, referenced: seq<StoredObject>)
    requires EventEdges(payload, referenced).Some?
    ensures EventEdges(payload, referenced).value.Keys == Digests([payload] + referenced)
  {
    var admitted := [payload] + referenced;
    forall d | d in Digests(referenced) + {payload.digest}
      ensures d in Digests(admitted)
    {
      if d == payload.digest {
        assert admitted[0].digest == d;
      } else {
        var i :| 0 <= i < |referenced| && referenced[i].digest == d;
        assert admitted[i + 1].digest == d;
      }
    }
    forall d | d in Digests(admitted)
      ensures d in Digests(referenced) + {payload.digest}
    {
      var i :| 0 <= i < |admitted| && admitted[i].digest == d;
      if i > 0 {
        assert referenced[i - 1].digest == d;
      }
    }
  }

  lemma AdmittedKeys(before: map<Digest, ObjectRow>, admitted: seq<StoredObject>, after: map<Digest, ObjectRow>)
    requires AdmittedAll(before, admitted, after)
    ensures Digests(admitted) <= after.Keys
  {
    forall d | d in Digests(admitted)
      ensures d in after
    {
      var i :| 0 <= i < |admitted| && admitted[i].digest == d;
      assert Holds(after, admitted[i]);
    }
  }

  lemma AppendedEdges(a: AppendRequest, objects: map<Digest, ObjectRow>, after: map<Digest, ObjectRow>)
    requires AdmittedAll(objects, [a.payloadObject] + a.referencedObjects, after)
    requires EventEdges(a.payloadObject, a.referencedObjects).Some?
    requires a.event.payloadDigest == a.payloadObject.digest
    ensures EventEdges(a.payloadObject, a.referencedObjects).value.Keys <= after.Keys
    ensures EdgesOk(AdmittedRow(a), map[a.event.eventId := EventEdges(a.payloadObject, a.referencedObjects).value])
  {
    EdgeKeys(a.payloadObject, a.referencedObjects);
    AdmittedKeys(objects, [a.payloadObject] + a.referencedObjects, after);
  }

  lemma AppendedKeepsStreams(db: Db, a: AppendRequest, after: Db)
    requires StreamInv(db.events, db.streams, db.projections) && AppendedBy(db, a, after)
    ensures StreamInv(after.events, after.streams, after.projections)
  {
    StreamsAfterAppend(db.events, db.streams, db.projections, AdmittedRow(a), AdmittedStream(db, a), a.projection);
  }

  lemma AppendedPointer(db: Db, a: AppendRequest, after: Db, x: ExtensionState)
    requires StreamInv(db.events, db.streams, db.projections) && AppendedBy(db, a, after)
    requires a.extensionState == Some(x)
    ensures ExtensionOk(Log(after.events, a.event.streamId), x.ns,
                        ExtensionRow(x.stored.digest, a.event.eventId, a.projection.revision, false))
    ensures x.stored.digest in after.objects
  {
    var log := Log(db.events, a.event.streamId);
    LogSnoc(db.events, AdmittedRow(a), a.event.streamId);
    if a.event.streamId in db.streams {
      assert StreamOk(log, db.streams[a.event.streamId]);
    } else {
      LogEmpty(db.events, a.event.streamId);
    }
    assert (log + [AdmittedRow(a)])[a.projection.revision - 1] == AdmittedRow(a);
    assert x.stored in [a.payloadObject] + a.referencedObjects;
    assert Holds(after.objects, x.stored);
  }

  lemma ExtensionsAfterPointer(
    events: seq<EventRow>, extensions: map<ExtensionKey, ExtensionRow>, objects: map<Digest, ObjectRow>,
    key: ExtensionKey, x: ExtensionRow)
    requires ExtensionInv(events, extensions, objects)
    requires ExtensionOk(Log(events, key.taskId), key.ns, x) && x.stateDigest in objects
    ensures ExtensionInv(events, extensions[key := x], objects)
  {
  }

  lemma AppendedKeepsExtensions(db: Db, a: AppendRequest, after: Db)
    requires StreamInv(db.events, db.streams, db.projections) && AppendedBy(db, a, after)
    requires ExtensionInv(db.events, db.extensions, db.objects)
    ensures ExtensionInv(after.events, after.extensions, after.objects)
  {
    ExtensionsAfterAppend(db.events, db.extensions, db.objects, AdmittedRow(a), after.objects);
    if a.extensionState.Some? {
      var x := a.extensionState.value;
      AppendedPointer(db, a, after, x);
      ExtensionsAfterPointer(
        after.events, db.extensions, after.objects, ExtensionKey(a.event.streamId, x.ns),
        ExtensionRow(x.stored.digest, a.event.eventId, a.projection.revision, false));
    }
  }

  lemma AppendedKeepsEdges(db: Db, a: AppendRequest, after: Db)
    requires EdgeInv(db.events, db.edges, db.objects, db.boundary) && AppendedBy(db, a, after)
    ensures EdgeInv(after.events, after.edges, after.objects, after.boundary)
  {
    AppendedEdges(a, db.objects, after.objects);
    EdgesAfterAppend(db.events, db.edges, db.objects, db.boundary, AdmittedRow(a),
                     EventEdges(a.payloadObject, a.referencedObjects).value, after.objects);
  }

  lemma AppendedKeepsLeases(db: Db, a: AppendRequest, after: Db)
    requires LeaseInv(db.leases, db.projections) && AppendedBy(db, a, after)
    ensures LeaseInv(after.leases, after.projections)
  {
  }

  lemma AppendedKeepsIdentities(db: Db, a: AppendRequest, after: Db)
    requires UniqueEvents(db.events) && CausesPointBack(db.events) && AppendedBy(db, a, after)
    ensures UniqueEvents(after.events) && CausesPointBack(after.events)
  {
    CausesAfterAppend(db.events, AdmittedRow(a));
  }

  lemma AppendedKeepsInv(db: Db, a: AppendRequest, after: Db)
    requires Inv(db) && AppendedBy(db, a, after)
    ensures Inv(after)
  {
    AppendedKeepsIdentities(db, a, after);
    AppendedKeepsStreams(db, a, after);
    AppendedKeepsExtensions(db, a, after);
    AppendedKeepsEdges(db, a, after);
    AppendedKeepsLeases(db, a, after);
    BoardAfterGrowth(db.board, db.objects, after.objects);
    NewsAfterGrowth(db.publications, db.editions, db.objects, after.objects);
  }

  // Theorem: every append keeps the invariant, whatever the request.
  lemma AppendKeepsInv(db: Db, a: AppendRequest)
    requires Inv(db)
    ensures Inv(AppendTaskEvent(db, a).db)
  {
    var out := AppendTaskEvent(db, a);
    if out.result == Ok(Created) {
      CreatedMeansAppended(db, a);
      AppendedKeepsInv(db, a, out.db);
    } else {
      NotCreatedMeansKept(db, a);
    }
  }

  lemma LeasesOnly(db: Db, leases: map<string, LeaseRow>)
    requires Inv(db) && LeaseInv(leases, db.projections)
    ensures Inv(db.(leases := leases))
  {
  }

  // The only thing an acquisition writes is one lease row, for the caller.
  lemma AcquireEffect(db: Db, taskId: string, ownerId: string, nowMs: int, ttlMs: int)
    ensures var out := AcquireLease(db, taskId, ownerId, nowMs, ttlMs);
            match out.result
            case Err(_) => out.db == db
            case Ok(lease) =>
              && out.db == db.(leases := db.leases[taskId := lease.row])
              && taskId in db.projections
              && lease.taskId == taskId
              && lease.row.ownerId == ownerId
              && lease.row.expiresAtMs == nowMs + ttlMs > nowMs >= 0
              && lease.row.revision == (if taskId in db.leases then db.leases[taskId].revision + 1 else 1)
              && (taskId in db.leases ==>
                    db.leases[taskId].ownerId == ownerId || db.leases[taskId].expiresAtMs <= nowMs)
  {
  }

  lemma LeaseInvTaken(
    leases: map<string, LeaseRow>, projections: map<string, TaskProjection>, taskId: string, row: LeaseRow)
    requires LeaseInv(leases, projections) && taskId in projections && row.revision >= 1 && row.expiresAtMs >= 1
    ensures LeaseInv(leases[taskId := row], projections)
  {
  }

  lemma AcquireKeepsInv(db: Db, taskId: string, ownerId: string, nowMs: int, ttlMs: int)
    requires Inv(db)
    ensures Inv(AcquireLease(db, taskId, ownerId, nowMs, ttlMs).db)
  {
    AcquireEffect(db, taskId, ownerId, nowMs, ttlMs);
    var out := AcquireLease(db, taskId, ownerId, nowMs, ttlMs);
    if out.result.Ok? {
      assert taskId in db.leases ==> db.leases[taskId].revision >= 1;
      LeaseInvTaken(db.leases, db.projections, taskId, out.result.value.row);
      LeasesOnly(db, db.leases[taskId := out.result.value.row]);
    }
  }

  lemma ReleaseKeepsInv(db: Db, lease: LeaseRecord)
    requires Inv(db)
    ensures Inv(ReleaseLease(db, lease).db)
  {
    if LeaseMatches(db, lease) {
      LeasesOnly(db, WithoutLease(db.leases, lease.taskId));
    }
  }

  lemma BoardAfterPost(board: seq<BoardRow>, objects: map<Digest, ObjectRow>, row: BoardRow, after: map<Digest, ObjectRow>)
    requires BoardInv(board, objects) && ObjectsGrow(objects, after) && row.messageDigest in after
    requires FindMessage(board, row.clientMessageId).None?
    requires row.replyTo.Some? ==> FindMessage(board, row.replyTo.value).Some?
    ensures BoardInv(board + [row], after)
  {
    var longer := board + [row];
    forall i | 0 <= i < |longer| && longer[i].replyTo.Some?
      ensures RepliesEarlier(longer, i)
    {
      if i < |board| {
        assert RepliesEarlier(board, i);
        var j :| 0 <= j < i && board[j].clientMessageId == board[i].replyTo.value;
        assert longer[j].clientMessageId == longer[i].replyTo.value;
      } else {
        var j := FindMessage(board, row.replyTo.value).value;
        assert longer[j].clientMessageId == longer[i].replyTo.value;
      }
    }
  }

  // What a post does: a created message is appended with its object, nothing else moves.
  lemma PostEffect(db: Db, b: BoardRequest)
    ensures var out := AppendBoardMessage(db, b);
            if out.result != Ok(Created) then out.db == db
            else
              && AdmitObject(db.objects, b.stored, b.row.recordedAtMs, OnAccess).Ok?
              && out.db == db.(objects := AdmitObject(db.objects, b.stored, b.row.recordedAtMs, OnAccess).value,
                               board := db.board + [b.row])
              && b.stored.digest == b.row.messageDigest
              && FindMessage(db.board, b.row.clientMessageId).None?
              && (b.row.replyTo.Some? ==> FindMessage(db.board, b.row.replyTo.value).Some?)
  {
  }

  lemma OneAdmission(objects: map<Digest, ObjectRow>, o: StoredObject, atMs: int, timing: Timing)
    requires AdmitObject(objects, o, atMs, timing).Ok?
    ensures ObjectsGrow(objects, AdmitObject(objects, o, atMs, timing).value)
    ensures Holds(AdmitObject(objects, o, atMs, timing).value, o)
  {
  }

  lemma BoardKeepsInv(db: Db, b: BoardRequest)
    requires Inv(db)
    ensures Inv(AppendBoardMessage(db, b).db)
  {
    PostEffect(db, b);
    if AppendBoardMessage(db, b).result == Ok(Created) {
      var after := AppendBoardMessage(db, b).db;
      OneAdmission(db.objects, b.stored, b.row.recordedAtMs, OnAccess);
      BoardAfterPost(db.board, db.objects, b.row, after.objects);
      TasksAfterGrowth(db, after.objects);
      NewsAfterGrowth(db.publications, db.editions, db.objects, after.objects);
    }
  }

  // A publication that continues its edition: the next revision under unchanged metadata.
  ghost predicate Continues(row: PublicationRow, head: EditionRow, editions: map<string, EditionRow>) {
    && row.revision == row.expectedRevision + 1 == head.revision
    && head.digest == row.digest
    && head.date == row.date
    && head.timezone == row.timezone
    && 0 <= head.createdAtMs <= head.updatedAtMs
    && if row.editionId !in editions then row.expectedRevision == 0
       else
         && editions[row.editionId].revision == row.expectedRevision
         && editions[row.editionId].date == row.date
         && editions[row.editionId].timezone == row.timezone
  }

  lemma EditionOkSnoc(rows: seq<PublicationRow>, before: EditionRow, row: PublicationRow, head: EditionRow)
    requires EditionOk(rows, before)
    requires row.expectedRevision == before.revision && row.revision == row.expectedRevision + 1 == head.revision
    requires head.digest == row.digest && 0 <= head.createdAtMs <= head.updatedAtMs
    requires head.date == row.date == before.date && head.timezone == row.timezone == before.timezone
    ensures EditionOk(rows + [row], head)
  {
    var longer := rows + [row];
    forall k | 0 <= k < |longer|
      ensures longer[k].revision == k + 1 && longer[k].expectedRevision == k
      ensures longer[k].date == head.date && longer[k].timezone == head.timezone
    {
      if k < |rows| {
        assert longer[k] == rows[k];
      }
    }
  }

  lemma EditionOkFirst(row: PublicationRow, head: EditionRow)
    requires row.expectedRevision == 0 && row.revision == 1 == head.revision
    requires head.digest == row.digest && 0 <= head.createdAtMs <= head.updatedAtMs
    requires head.date == row.date && head.timezone == row.timezone
    ensures EditionOk([row], head)
  {
  }

  lemma EditionAfterPublish(
    publications: seq<PublicationRow>, editions: map<string, EditionRow>, row: PublicationRow, head: EditionRow)
    requires Continues(row, head, editions)
    requires forall i :: 0 <= i < |publications| ==> publications[i].editionId in editions
    requires row.editionId in editions ==>
               EditionOk(Publications(publications, row.editionId), editions[row.editionId])
    ensures EditionOk(Publications(publications + [row], row.editionId), head)
  {
    var rows := Publications(publications, row.editionId);
    assert Publications(publications + [row], row.editionId) == rows + [row] by {
      PublicationsSnoc(publications, row, row.editionId);
    }
    if row.editionId in editions {
      EditionOkSnoc(rows, editions[row.editionId], row, head);
    } else {
      PublicationsEmpty(publications, row.editionId);
      EditionOkFirst(row, head);
      assert rows + [row] == [row];
    }
  }

  lemma EditionsAfterPublish(
    publications: seq<PublicationRow>, editions: map<string, EditionRow>, row: PublicationRow, head: EditionRow)
    requires Continues(row, head, editions)
    requires forall i :: 0 <= i < |publications| ==> publications[i].editionId in editions
    requires forall ed :: ed in editions ==> EditionOk(Publications(publications, ed), editions[ed])
    ensures forall ed :: ed in editions[row.editionId := head] ==>
              EditionOk(Publications(publications + [row], ed), editions[row.editionId := head][ed])
  {
    EditionAfterPublish(publications, editions, row, head);
    forall ed | ed in editions && ed != row.editionId
      ensures EditionOk(Publications(publications + [row], ed), editions[ed])
    {
      PublicationsSnoc(publications, row, ed);
    }
  }

  lemma RowsAfterPublish(
    publications: seq<PublicationRow>, editions: map<string, EditionRow>, objects: map<Digest, ObjectRow>,
    row: PublicationRow, head: EditionRow, after: map<Digest, ObjectRow>)
    requires UniquePublications(publications) && FindPublication(publications, row.clientPublishId).None?
    requires forall i :: 0 <= i < |publications| ==> PublicationOk(publications[i], editions, objects)
    requires ObjectsGrow(objects, after) && PublicationOk(row, editions[row.editionId := head], after)
    ensures UniquePublications(publications + [row])
    ensures forall i :: 0 <= i < |publications + [row]| ==>
              PublicationOk((publications + [row])[i], editions[row.editionId := head], after)
  {
    forall i | 0 <= i < |publications + [row]|
      ensures PublicationOk((publications + [row])[i], editions[row.editionId := head], after)
    {
      if i < |publications| {
        assert PublicationOk(publications[i], editions, objects);
      }
    }
  }

  // What a publication does: the edition's next revision, its row and its object.
  lemma PublishEffect(db: Db, n: NewsRequest)
    ensures var out := AppendNewsPublication(db, n);
            if out.result != Ok(Created) then out.db == db
            else
              && NewsRequestValid(n)
              && FindPublication(db.publications, n.clientPublishId).None?
              && AdmitObject(db.objects, n.stored, n.recordedAtMs, OnAccess).Ok?
              && out.db == db.(objects := AdmitObject(db.objects, n.stored, n.recordedAtMs, OnAccess).value,
                               editions := db.editions[n.editionId := PublishedEdition(db, n)],
                               publications := db.publications + [PublishedRow(n)])
              && PublishedEdition(db, n).createdAtMs <= n.recordedAtMs
              && (n.editionId in db.editions ==>
                    && db.editions[n.editionId].revision == n.expectedRevision
                    && db.editions[n.editionId].date == n.date
                    && db.editions[n.editionId].timezone == n.timezone)
              && (n.editionId !in db.editions ==> n.expectedRevision == 0)
  {
  }

  lemma NewsKeepsInv(db: Db, n: NewsRequest)
    requires Inv(db)
    ensures Inv(AppendNewsPublication(db, n).db)
  {
    PublishEffect(db, n);
    if AppendNewsPublication(db, n).result == Ok(Created) {
      var after := AppendNewsPublication(db, n).db;
      OneAdmission(db.objects, n.stored, n.recordedAtMs, OnAccess);
      if n.editionId in db.editions {
        assert EditionOk(Publications(db.publications, n.editionId), db.editions[n.editionId]);
      }
      RowsAfterPublish(db.publications, db.editions, db.objects, PublishedRow(n), PublishedEdition(db, n), after.objects);
      EditionsAfterPublish(db.publications, db.editions, PublishedRow(n), PublishedEdition(db, n));
      TasksAfterGrowth(db, after.objects);
      BoardAfterGrowth(db.board, db.objects, after.objects);
    }
  }
}
