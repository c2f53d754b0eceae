// What each transaction answers, and what it leaves, said of the rows alone: when a request
// is accepted, when it is a repetition, and which error a refusal gives.
module Answers {
  import opened Base
  import opened Json
  import opened Domain
  import opened Tables
  import opened Transactions
  import opened JournalInvariants
  import Text

  // ---- Task events ----

  // The request describes one event of one task.
  predicate WellStated(a: AppendRequest) {
    && a.event.streamKind == TaskStream
    && a.projection.WellFormed()
    && a.event.streamId == a.projection.taskId
    && a.event.payloadDigest == a.payloadObject.digest
    && a.payloadObject.kind == "host-event-payload"
    && a.projection.revision == a.expectedRevision + 1
    && a.event.recordedAtMs == a.projection.updatedAtMs
    && (a.extensionState.Some? ==>
          && a.event.kind.Extension? && a.event.kind.ns == a.extensionState.value.ns
          && a.extensionState.value.stored.kind == "host-extension-state"
          && a.extensionState.value.stored in a.referencedObjects)
  }

  // A transition brings a lease of its task and the time it was checked; a creation neither.
  predicate WellFenced(a: AppendRequest) {
    if a.expectedRevision < 1 then a.expectedLease.None? && a.leaseCheckedAtMs.None?
    else
      && a.expectedLease.Some? && a.expectedLease.value.taskId == a.projection.taskId
      && a.leaseCheckedAtMs.Some? && a.leaseCheckedAtMs.value >= 0
  }

  // The lease brought is the very row, and the row has not expired when it is checked.
  predicate LeaseLive(db: Db, a: AppendRequest) {
    a.expectedLease.Some? && a.leaseCheckedAtMs.Some? ==>
      var lease := a.expectedLease.value;
      lease.taskId in db.leases && db.leases[lease.taskId] == lease.row && a.leaseCheckedAtMs.value < lease.row.expiresAtMs
  }

  // The row holds the event: identity, stream, kind, payload, time and cause.
  predicate HoldsEvent(row: EventRow, e: HostEvent) {
    && row.eventId == e.eventId
    && row.streamId == e.streamId && row.streamKind == e.streamKind
    && row.kind == e.kind
    && row.payloadDigest == e.payloadDigest
    && row.recordedAtMs == e.recordedAtMs
    && row.causedBy == e.causedBy
  }

  // Edges that name exactly the payload as payload and each reference as reference.
  ghost predicate NamesObjects(edges: map<Digest, Role>, a: AppendRequest) {
    && a.payloadObject.digest in edges && edges[a.payloadObject.digest] == Payload
    && (forall o :: o in a.referencedObjects ==> o.digest in edges && edges[o.digest] == Reference)
    && (forall d :: d in edges ==>
          d == a.payloadObject.digest || exists o :: o in a.referencedObjects && o.digest == d)
  }

  ghost predicate HoldsEdges(db: Db, a: AppendRequest) {
    a.event.eventId in db.edges && NamesObjects(db.edges[a.event.eventId], a)
  }

  predicate HoldsPointer(db: Db, a: AppendRequest) {
    a.extensionState.Some? ==>
      var key := ExtensionKey(a.event.streamId, a.extensionState.value.ns);
      && key in db.extensions
      && db.extensions[key].stateDigest == a.extensionState.value.stored.digest
      && db.extensions[key].eventId == a.event.eventId
      && db.extensions[key].revision == a.projection.revision
      && !db.extensions[key].legacy
  }

  predicate ReferencesPayload(a: AppendRequest) {
    exists o :: o in a.referencedObjects && o.digest == a.payloadObject.digest
  }

  // ---- The checks before the transaction ----

  lemma PreflightExactly(a: AppendRequest)
    ensures Preflight(a).None? <==> WellStated(a) && WellFenced(a)
    ensures !WellStated(a) ==> Preflight(a) == Some(ValueError)
    ensures WellStated(a) && !WellFenced(a) ==>
              Preflight(a) == Some(if a.expectedRevision > 0 && a.expectedLease.None? then LeaseConflict else ValueError)
  {
    hide TaskProjection.WellFormed;
  }

  lemma EdgesExactly(a: AppendRequest, edges: map<Digest, Role>)
    ensures EventEdges(a.payloadObject, a.referencedObjects).None? <==> ReferencesPayload(a)
    ensures NamesObjects(edges, a) <==> EventEdges(a.payloadObject, a.referencedObjects) == Some(edges)
  {
    ListedDigests(a.referencedObjects);
    assert forall i :: 0 <= i < |a.referencedObjects| ==> a.referencedObjects[i] in a.referencedObjects;
    if o :| o in a.referencedObjects && o.digest == a.payloadObject.digest {
      var i :| 0 <= i < |a.referencedObjects| && a.referencedObjects[i] == o;
    } else if NamesObjects(edges, a) {
      assert edges == EventEdges(a.payloadObject, a.referencedObjects).value;
    }
  }

  lemma ListedDigests(objects: seq<StoredObject>)
    ensures forall o :: o in objects ==> o.digest in Digests(objects)
    ensures forall d :: d in Digests(objects) ==> exists o :: o in objects && o.digest == d
  {
    forall o | o in objects
      ensures o.digest in Digests(objects)
    {
      var i :| 0 <= i < |objects| && objects[i] == o;
    }
  }

  // ---- Repetitions ----

  // Theorem: a request whose identity is known is answered as existing if and only if the
  // row holds exactly this event, its edges are exactly these objects, the namespace's
  // pointer is the one this event set, and the lease is live. Then only the lease goes.
  // Any difference is refused, and a refusal changes nothing.
  lemma ExistingExactly(db: Db, a: AppendRequest, i: nat)
    requires UniqueEvents(db.events) && i < |db.events| && db.events[i].eventId == a.event.eventId
    ensures var out := AppendTaskEvent(db, a);
            && (out.result == Ok(Existing) <==>
                  && WellStated(a) && WellFenced(a)
                  && HoldsEvent(db.events[i], a.event)
                  && (i + 1 >= db.boundary ==> HoldsEdges(db, a))
                  && HoldsPointer(db, a)
                  && LeaseLive(db, a))
            && (out.result == Ok(Existing) ==>
                  out.db == if a.expectedLease.None? then db else db.(leases := db.leases - {a.projection.taskId}))
            && (out.result != Ok(Existing) ==> out.result.Err? && out.db == db)
            && (WellStated(a) && WellFenced(a) && !HoldsEvent(db.events[i], a.event) ==> out.result == Err(EventConflict))
            && (WellStated(a) && WellFenced(a) && !ReferencesPayload(a) && i + 1 >= db.boundary && !HoldsEdges(db, a) ==>
                  out.result == Err(EventConflict))
  {
    hide TaskProjection.WellFormed, EventEdges, NamesObjects, Preflight, WellStated, ReferencesPayload;
    PreflightExactly(a);
    assert FindEvent(db.events, a.event.eventId).value == i;
    EdgesExactly(a, EdgesOf(db, a.event.eventId));
    NoEdges(a);
    WellStatedNames(a);
  }

  lemma WellStatedNames(a: AppendRequest)
    ensures WellStated(a) ==>
              && a.event.streamId == a.projection.taskId && a.event.streamKind == TaskStream
              && a.event.recordedAtMs == a.projection.updatedAtMs && a.event.payloadDigest == a.payloadObject.digest
  {
  }

  lemma NoEdges(a: AppendRequest)
    ensures !NamesObjects(map[], a)
  {
  }

  // Theorem: nothing is answered as existing that is not recorded, event and objects alike.
  lemma ExistingIsRecorded(db: Db, a: AppendRequest)
    requires UniqueEvents(db.events) && AppendTaskEvent(db, a).result == Ok(Existing)
    ensures exists i :: 0 <= i < |db.events| && HoldsEvent(db.events[i], a.event) && (i + 1 >= db.boundary ==> HoldsEdges(db, a))
  {
    hide TaskProjection.WellFormed, EventEdges, ReplayConflict, AdmissionRefusal, HoldsEdges;
    var i := FindEvent(db.events, a.event.eventId).value;
    ExistingExactly(db, a, i);
  }

  // ---- New events ----

  // Two descriptions of one digest agree.
  predicate Agree(o: StoredObject, kind: string, byteLength: nat) {
    o.kind == kind && o.byteLength == byteLength
  }

  // Nothing admitted contradicts a row, or another object admitted with it.
  ghost predicate Consistent(objects: map<Digest, ObjectRow>, admitted: seq<StoredObject>) {
    && (forall o :: o in admitted && o.digest in objects ==> Agree(o, objects[o.digest].kind, objects[o.digest].byteLength))
    && (forall o, p :: o in admitted && p in admitted && o.digest == p.digest ==> Agree(o, p.kind, p.byteLength))
  }

  lemma {:induction false} AdmittedExactly(objects: map<Digest, ObjectRow>, admitted: seq<StoredObject>, atMs: int)
    ensures AdmitAll(objects, admitted, atMs).Ok? <==> Consistent(objects, admitted)
    ensures AdmitAll(objects, admitted, atMs).Err? ==> AdmitAll(objects, admitted, atMs) == Err(JournalCorruption)
  {
    if |admitted| > 0 {
      var init, last := admitted[..|admitted| - 1], admitted[|admitted| - 1];
      assert admitted == init + [last];
      AdmittedExactly(objects, init, atMs);
      if AdmitAll(objects, init, atMs).Ok? {
        AdmitAllSpec(objects, init, atMs);
        OneMore(objects, init, AdmitAll(objects, init, atMs).value, last);
      }
    }
  }

  lemma OneMore(objects: map<Digest, ObjectRow>, init: seq<StoredObject>, middle: map<Digest, ObjectRow>, last: StoredObject)
    requires AdmittedAll(objects, init, middle) && Consistent(objects, init)
    ensures Consistent(objects, init + [last])
            <==> (last.digest in middle ==> Agree(last, middle[last.digest].kind, middle[last.digest].byteLength))
  {
    ListedDigests(init);
    assert last in init + [last];
    assert forall o :: o in init ==> o in init + [last];
    if last.digest in middle && last.digest in Digests(init) {
      var o :| o in init && o.digest == last.digest;
      assert Holds(middle, o);
    }
  }

  predicate Recorded(db: Db, eventId: string) {
    exists i :: 0 <= i < |db.events| && db.events[i].eventId == eventId
  }

  function CurrentRevision(db: Db, t: string): int {
    if t in db.projections then db.projections[t].revision else 0
  }

  predicate Ended(db: Db, t: string) {
    t in db.projections && db.projections[t].state in {Completed, Failed, Cancelled}
  }

  predicate CauseStands(db: Db, a: AppendRequest) {
    a.event.causedBy.Some? ==> Recorded(db, a.event.causedBy.value)
  }

  // Nothing but the bytes and the clock can still refuse a request at the next revision.
  ghost predicate Fits(db: Db, a: AppendRequest) {
    && Consistent(db.objects, [a.payloadObject] + a.referencedObjects)
    && (a.projection.taskId in db.streams ==> db.streams[a.projection.taskId].createdAtMs <= a.projection.updatedAtMs)
    && !ReferencesPayload(a)
  }

  // Theorem: a new identity is admitted if and only if the request is well formed, names the
  // current revision of a task that has not ended, under a live lease, with a recorded cause,
  // consistent objects and a time not before the task's own. The first of revision, end,
  // lease and cause to fail gives the error, and a refusal changes nothing.
  lemma CreatedExactly(db: Db, a: AppendRequest)
    requires StreamInv(db.events, db.streams, db.projections) && !Recorded(db, a.event.eventId)
    ensures var out, t := AppendTaskEvent(db, a), a.projection.taskId;
            && (out.result == Ok(Created) <==>
                  && WellStated(a) && WellFenced(a)
                  && a.expectedRevision == CurrentRevision(db, t)
                  && !Ended(db, t) && LeaseLive(db, a) && CauseStands(db, a) && Fits(db, a))
            && (out.result != Ok(Created) ==> out.result.Err? && out.db == db)
            && (WellStated(a) && WellFenced(a) ==>
                  if a.expectedRevision != CurrentRevision(db, t) then out.result == Err(RevisionConflict)
                  else if Ended(db, t) then out.result == Err(TerminalTaskConflict)
                  else if !LeaseLive(db, a) then out.result == Err(LeaseConflict)
                  else !CauseStands(db, a) ==> out.result == Err(EventConflict))
  {
    hide TaskProjection.WellFormed, EventEdges, Preflight, WellStated, ReferencesPayload, AdmitAll, Consistent, StreamInv;
    var t := a.projection.taskId;
    PreflightExactly(a);
    WellStatedNames(a);
    EdgesExactly(a, map[]);
    AdmittedExactly(db.objects, [a.payloadObject] + a.referencedObjects, a.event.recordedAtMs);
    StreamOfTask(db, t);
    FoundIffRecorded(db, a.event.eventId);
    if a.event.causedBy.Some? {
      FoundIffRecorded(db, a.event.causedBy.value);
    }
  }

  lemma FoundIffRecorded(db: Db, eventId: string)
    ensures FindEvent(db.events, eventId).Some? <==> Recorded(db, eventId)
  {
  }

  lemma StreamOfTask(db: Db, t: string)
    requires StreamInv(db.events, db.streams, db.projections)
    ensures t in db.streams <==> t in db.projections
    ensures t in db.streams ==> db.streams[t].revision == db.projections[t].revision >= 1
  {
    if t in db.streams {
      assert StreamOk(Log(db.events, t), db.streams[t]) && ProjectionOk(t, db.streams[t], db.projections[t]);
    }
  }

  // Rows that are new were first seen now.
  lemma {:induction false} FirstSeenNow(objects: map<Digest, ObjectRow>, admitted: seq<StoredObject>, atMs: int)
    requires AdmitAll(objects, admitted, atMs).Ok?
    ensures var after := AdmitAll(objects, admitted, atMs).value;
            forall d :: d in after && d !in objects ==> after[d].firstSeenAtMs == atMs
  {
    if |admitted| > 0 {
      FirstSeenNow(objects, admitted[..|admitted| - 1], atMs);
    }
  }

  // The object rows after an admission: what was known keeps its first time, what is admitted
  // is validated at startup from now on, and nothing else appears.
  ghost predicate ObjectsAfter(before: map<Digest, ObjectRow>, admitted: seq<StoredObject>, atMs: int, after: map<Digest, ObjectRow>) {
    && (forall d :: d in after <==> d in before || exists o :: o in admitted && o.digest == d)
    && (forall o :: o in admitted ==>
          after[o.digest] ==
          ObjectRow(o.kind, o.byteLength, if o.digest in before then before[o.digest].firstSeenAtMs else atMs, Startup))
    && (forall d :: d in before && (forall o :: o in admitted ==> o.digest != d) ==> after[d] == before[d])
  }

  lemma ObjectsAdmitted(objects: map<Digest, ObjectRow>, admitted: seq<StoredObject>, atMs: int)
    requires AdmitAll(objects, admitted, atMs).Ok?
    ensures ObjectsAfter(objects, admitted, atMs, AdmitAll(objects, admitted, atMs).value)
  {
    hide AdmitAll;
    var after := AdmitAll(objects, admitted, atMs).value;
    AdmitAllSpec(objects, admitted, atMs);
    FirstSeenNow(objects, admitted, atMs);
    ListedDigests(admitted);
    forall o | o in admitted
      ensures o.digest in after
      ensures after[o.digest] ==
              ObjectRow(o.kind, o.byteLength, if o.digest in objects then objects[o.digest].firstSeenAtMs else atMs, Startup)
    {
      assert Holds(after, o) && after[o.digest].timing == Startup;
    }
  }

  // Theorem: what a created append writes, table by table.
  lemma CreatedWrites(db: Db, a: AppendRequest)
    requires StreamInv(db.events, db.streams, db.projections)
    requires AppendTaskEvent(db, a).result == Ok(Created)
    ensures var after, t, e, p := AppendTaskEvent(db, a).db, a.projection.taskId, a.event, a.projection;
            && after.events == db.events + [EventRow(e.eventId, t, TaskStream, p.revision, e.kind, a.payloadObject.digest,
                                                     e.causedBy, p.updatedAtMs)]
            && after.projections == db.projections[t := p]
            && after.streams == db.streams[t := StreamRow(TaskStream, p.revision,
                                                          if t in db.streams then db.streams[t].createdAtMs else p.updatedAtMs,
                                                          p.updatedAtMs)]
            && e.eventId in after.edges && NamesObjects(after.edges[e.eventId], a)
            && after.edges == db.edges[e.eventId := after.edges[e.eventId]]
            && after.extensions == (if a.extensionState.None? then db.extensions else
                                      db.extensions[ExtensionKey(t, a.extensionState.value.ns) :=
                                        ExtensionRow(a.extensionState.value.stored.digest, e.eventId, p.revision, false)])
            && after.leases == (if a.expectedLease.None? then db.leases else db.leases - {t})
            && ObjectsAfter(db.objects, [a.payloadObject] + a.referencedObjects, p.updatedAtMs, after.objects)
            && after.board == db.board && after.editions == db.editions && after.publications == db.publications
            && after.boundary == db.boundary
  {
    hide TaskProjection.WellFormed, EventEdges, Preflight, WellStated, AdmissionRefusal, AdmitAll, StreamInv, ObjectsAfter;
    hide NamesObjects;
    PreflightExactly(a);
    WellStatedNames(a);
    var objects := AdmitAll(db.objects, [a.payloadObject] + a.referencedObjects, a.event.recordedAtMs);
    EdgesExactly(a, EventEdges(a.payloadObject, a.referencedObjects).value);
    ObjectsAdmitted(db.objects, [a.payloadObject] + a.referencedObjects, a.event.recordedAtMs);
    KindOfStream(db, a.projection.taskId);
    CreatedIsNew(db, a);
  }

  lemma CreatedIsNew(db: Db, a: AppendRequest)
    requires AppendTaskEvent(db, a).result == Ok(Created)
    ensures AppendTaskEvent(db, a).db == AdmitTaskEvent(db, a).db && AdmitTaskEvent(db, a).result == Ok(Created)
  {
    hide Preflight, ReplayConflict, AdmitTaskEvent;
  }

  lemma KindOfStream(db: Db, t: string)
    requires StreamInv(db.events, db.streams, db.projections)
    ensures t in db.streams ==> db.streams[t].kind == TaskStream
  {
    if t in db.streams {
      assert StreamOk(Log(db.events, t), db.streams[t]);
    }
  }

  // ---- Leases ----

  // Theorem: an acquisition fails only on bad arguments, an unknown task, or another owner's
  // row that has not expired, and a failure changes nothing. It succeeds with the next
  // revision of the row, or the first, and with the whole time to live from now.
  lemma AcquiredExactly(db: Db, t: string, o: string, nowMs: int, ttlMs: int)
    ensures var out := AcquireLease(db, t, o, nowMs, ttlMs);
            var bad := o == "" || !Text.Trimmed(o) || nowMs < 0 || ttlMs < 1;
            var held := t in db.leases && db.leases[t].ownerId != o && nowMs < db.leases[t].expiresAtMs;
            && (out.result.Ok? <==> !bad && t in db.projections && !held)
            && (out.result.Err? ==>
                  out.db == db && out.result.error == if bad then ValueError else if t !in db.projections then UnknownTask else LeaseHeld)
            && (out.result.Ok? ==>
                  && out.result.value.taskId == t && out.result.value.row.ownerId == o
                  && out.result.value.row.revision == (if t in db.leases then db.leases[t].revision + 1 else 1)
                  && out.result.value.row.expiresAtMs == nowMs + ttlMs
                  && out.db == db.(leases := db.leases[t := out.result.value.row]))
  {
  }

  // ---- The board ----

  // The columns of a message that its sender chose.
  predicate HoldsMessage(row: BoardRow, given: BoardRow) {
    && row.clientMessageId == given.clientMessageId
    && row.author == given.author && row.kind == given.kind && row.topic == given.topic
    && row.messageDigest == given.messageDigest && row.replyTo == given.replyTo
  }

  predicate Said(db: Db, id: string) {
    exists i :: 0 <= i < |db.board| && db.board[i].clientMessageId == id
  }

  predicate WellSaid(b: BoardRequest) {
    && Text.IsLabel(b.row.clientMessageId) && Text.IsLabel(b.row.author)
    && (b.row.topic.Some? ==> Text.IsLabel(b.row.topic.value))
    && b.row.replyTo != Some(b.row.clientMessageId)
    && b.stored.kind == "host-board-message" && b.stored.digest == b.row.messageDigest
    && b.row.recordedAtMs >= 0
  }

  // Theorem: a known message identity is a repetition if and only if every column its sender
  // chose is the same, whatever the time; a new one is appended if and only if what it
  // answers is there and its object agrees with what is known. A refusal changes nothing.
  lemma PostedExactly(db: Db, b: BoardRequest)
    requires BoardInv(db.board, db.objects)
    ensures var out := AppendBoardMessage(db, b);
            && (out.result == Ok(Existing) <==>
                  WellSaid(b) && exists i :: 0 <= i < |db.board| && HoldsMessage(db.board[i], b.row))
            && (out.result == Ok(Created) <==>
                  && WellSaid(b) && !Said(db, b.row.clientMessageId)
                  && (b.row.replyTo.Some? ==> Said(db, b.row.replyTo.value))
                  && Consistent(db.objects, [b.stored]))
            && (out.result == Ok(Created) ==>
                  out.db == db.(board := db.board + [b.row], objects := out.db.objects)
                  && ObjectsSeen(db.objects, b.stored, b.row.recordedAtMs, out.db.objects))
            && (out.result != Ok(Created) ==> out.db == db)
            && (WellSaid(b) && out.result.Err? ==>
                  out.result.error == if Said(db, b.row.clientMessageId)
                                         || (b.row.replyTo.Some? && !Said(db, b.row.replyTo.value))
                                      then EventConflict else JournalCorruption)
  {
    assert b.stored in [b.stored];
    match FindMessage(db.board, b.row.clientMessageId)
    case Some(i) =>
      assert HoldsMessage(db.board[i], b.row) <==> SameMessage(db.board[i], b.row);
      forall j | 0 <= j < |db.board| && db.board[j].clientMessageId == b.row.clientMessageId
        ensures j == i
      {
      }
    case None =>
  }

  // A first sight of an object that is validated when it is read; a known row stays.
  ghost predicate ObjectsSeen(before: map<Digest, ObjectRow>, o: StoredObject, atMs: int, after: map<Digest, ObjectRow>) {
    after == if o.digest in before then before else before[o.digest := ObjectRow(o.kind, o.byteLength, atMs, OnAccess)]
  }

  // ---- The news ----

  predicate WellPublished(n: NewsRequest) {
    && Text.IsLabel(n.clientPublishId) && Text.IsLabel(n.editionId) && Text.IsLabel(n.date) && Text.IsLabel(n.timezone)
    && n.expectedRevision >= 0 && n.stored.kind == "host-news-edition" && n.recordedAtMs >= 0
  }

  predicate HoldsPublication(row: PublicationRow, n: NewsRequest) {
    && row.clientPublishId == n.clientPublishId
    && row.editionId == n.editionId && row.date == n.date && row.timezone == n.timezone
    && row.expectedRevision == n.expectedRevision && row.digest == n.stored.digest
  }

  predicate PublishedBefore(db: Db, id: string) {
    exists i :: 0 <= i < |db.publications| && db.publications[i].clientPublishId == id
  }

  // The edition's current revision is the expected one, and its date and zone do not change.
  predicate NextOfEdition(db: Db, n: NewsRequest) {
    if n.editionId !in db.editions then n.expectedRevision == 0
    else
      var head := db.editions[n.editionId];
      head.revision == n.expectedRevision && head.date == n.date && head.timezone == n.timezone
      && head.createdAtMs <= n.recordedAtMs
  }

  // Theorem: the same of a publication: a repetition is the same in every column the
  // publisher chose, a new one continues its edition, and then both tables move together.
  lemma PublishedExactly(db: Db, n: NewsRequest)
    requires NewsInv(db.publications, db.editions, db.objects)
    ensures var out := AppendNewsPublication(db, n);
            && (out.result == Ok(Existing) <==>
                  WellPublished(n) && exists i :: 0 <= i < |db.publications| && HoldsPublication(db.publications[i], n))
            && (out.result == Ok(Created) <==>
                  && WellPublished(n) && !PublishedBefore(db, n.clientPublishId)
                  && NextOfEdition(db, n) && Consistent(db.objects, [n.stored]))
            && (out.result == Ok(Created) ==>
                  && ObjectsSeen(db.objects, n.stored, n.recordedAtMs, out.db.objects)
                  && out.db == db.(objects := out.db.objects,
                                   publications := db.publications
                                     + [PublicationRow(n.clientPublishId, n.editionId, n.date, n.timezone, n.expectedRevision,
                                                       n.expectedRevision + 1, n.stored.digest, n.recordedAtMs)],
                                   editions := db.editions[n.editionId :=
                                     EditionRow(n.date, n.timezone, n.expectedRevision + 1, n.stored.digest,
                                                if n.editionId in db.editions then db.editions[n.editionId].createdAtMs
                                                else n.recordedAtMs, n.recordedAtMs)]))
            && (out.result != Ok(Created) ==> out.db == db)
  {
    assert n.stored in [n.stored];
    match FindPublication(db.publications, n.clientPublishId)
    case Some(i) =>
      assert HoldsPublication(db.publications[i], n) <==> SamePublication(db.publications[i], n);
      forall j | 0 <= j < |db.publications| && db.publications[j].clientPublishId == n.clientPublishId
        ensures j == i
      {
      }
    case None =>
  }
}
