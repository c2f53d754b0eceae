// What each Host Journal transaction does to the database, as total functions:
// a rejected transaction returns the error and leaves the database as it was.
module Transactions {
  import opened Base
  import opened Json
  import opened Domain
  import opened Tables
  import Text

  datatype Outcome<+T> = Outcome(db: Db, result: Result<T, HostError>)

  datatype HostEvent = HostEvent(
    eventId: string,
    streamId: string,
    streamKind: StreamKind,
    kind: EventKind,
    payloadDigest: Digest,
    recordedAtMs: int,
    causedBy: Option<string>)

  datatype ExtensionState = ExtensionState(ns: string, stored: StoredObject)

  datatype AppendRequest = AppendRequest(
    event: HostEvent,
    expectedRevision: int,
    projection: TaskProjection,
    payloadObject: StoredObject,
    referencedObjects: seq<StoredObject>,
    extensionState: Option<ExtensionState>,
    expectedLease: Option<LeaseRecord>,
    leaseCheckedAtMs: Option<int>)

  const EXTENSION_STATE_KIND := "host-extension-state"
  const BOARD_OBJECT_KIND := "host-board-message"
  const NEWS_OBJECT_KIND := "host-news-edition"

  // Checks made before the transaction begins, in order.
  function Preflight(a: AppendRequest): Option<HostError> {
    if a.event.streamKind != TaskStream then Some(ValueError)
    else if !a.projection.WellFormed() then Some(ValueError)
    else if a.event.streamId != a.projection.taskId then Some(ValueError)
    else if a.event.payloadDigest != a.payloadObject.digest then Some(ValueError)
    else if a.payloadObject.kind != EVENT_OBJECT_KIND then Some(ValueError)
    else if a.projection.revision != a.expectedRevision + 1 then Some(ValueError)
    else if a.event.recordedAtMs != a.projection.updatedAtMs then Some(ValueError)
    else if a.extensionState.Some? && !ExtensionStateFits(a.extensionState.value, a) then Some(ValueError)
    else if a.expectedRevision > 0 && a.expectedLease.None? then Some(LeaseConflict)
    else if a.expectedLease.None? != a.leaseCheckedAtMs.None? then Some(ValueError)
    else if a.expectedLease.Some? && (a.expectedRevision < 1 || a.expectedLease.value.taskId != a.projection.taskId)
    then Some(ValueError)
    else if a.expectedLease.Some? && a.leaseCheckedAtMs.value < 0 then Some(ValueError)
    else None
  }

  predicate ExtensionStateFits(x: ExtensionState, a: AppendRequest) {
    && a.event.kind.Extension?
    && a.event.kind.ns == x.ns
    && x.stored.kind == EXTENSION_STATE_KIND
    && x.stored in a.referencedObjects
  }

  // The object edges of one event; None when the payload is also listed as a reference.
  function EventEdges(payload: StoredObject, referenced: seq<StoredObject>): Option<map<Digest, Role>> {
    if exists i :: 0 <= i < |referenced| && referenced[i].digest == payload.digest then None
    else Some((map d | d in Digests(referenced) :: Reference)[payload.digest := Payload])
  }

  function Digests(objects: seq<StoredObject>): set<Digest> {
    set i | 0 <= i < |objects| :: objects[i].digest
  }

  predicate LeaseValidates(db: Db, lease: LeaseRecord, checkedAtMs: int) {
    && lease.taskId in db.leases
    && db.leases[lease.taskId] == lease.row
    && checkedAtMs < lease.row.expiresAtMs
  }

  // A token deletes the row of its own task, owner and revision; expiry is not looked at.
  predicate LeaseMatches(db: Db, lease: LeaseRecord) {
    && lease.taskId in db.leases
    && db.leases[lease.taskId].ownerId == lease.row.ownerId
    && db.leases[lease.taskId].revision == lease.row.revision
  }

  function AdmitObject(
    objects: map<Digest, ObjectRow>, o: StoredObject, atMs: int, timing: Timing)
    : Result<map<Digest, ObjectRow>, HostError>
  {
    if o.digest in objects then
      var row := objects[o.digest];
      if row.kind != o.kind || row.byteLength != o.byteLength then Err(JournalCorruption)
      else if row.timing == OnAccess && timing == Startup then Ok(objects[o.digest := row.(timing := Startup)])
      else Ok(objects)
    else Ok(objects[o.digest := ObjectRow(o.kind, o.byteLength, atMs, timing)])
  }

  function AdmitAll(
    objects: map<Digest, ObjectRow>, admitted: seq<StoredObject>, atMs: int)
    : Result<map<Digest, ObjectRow>, HostError>
  {
    if |admitted| == 0 then Ok(objects)
    else
      match AdmitAll(objects, admitted[..|admitted| - 1], atMs)
      case Err(e) => Err(e)
      case Ok(most) => AdmitObject(most, admitted[|admitted| - 1], atMs, Startup)
  }

  // Why a known event identity is not an exact replay of this request.
  function ReplayConflict(db: Db, a: AppendRequest, i: nat): Option<HostError>
    requires i < |db.events|
  {
    var row := db.events[i];
    if (row.streamId, row.streamKind, row.kind, row.payloadDigest, row.recordedAtMs, row.causedBy)
       != (a.event.streamId, a.event.streamKind, a.event.kind, a.event.payloadDigest, a.event.recordedAtMs, a.event.causedBy)
    then Some(EventConflict)
    else if i + 1 >= db.boundary && EventEdges(a.payloadObject, a.referencedObjects).None? then Some(ValueError)
    else if i + 1 >= db.boundary && EdgesOf(db, row.eventId) != EventEdges(a.payloadObject, a.referencedObjects).value
    then Some(EventConflict)
    else if a.extensionState.None? then None
    else
      var key := ExtensionKey(a.event.streamId, a.extensionState.value.ns);
      if key !in db.extensions then Some(EventConflict)
      else if db.extensions[key].legacy then Some(JournalCorruption)
      else if db.extensions[key] !=
              ExtensionRow(a.extensionState.value.stored.digest, a.event.eventId, a.projection.revision, false)
      then Some(EventConflict)
      else None
  }

  function EdgesOf(db: Db, eventId: string): map<Digest, Role> {
    if eventId in db.edges then db.edges[eventId] else map[]
  }

  // Why a new event is not admitted, before any object is recorded.
  function AdmissionRefusal(db: Db, a: AppendRequest): Option<HostError> {
    var taskId := a.event.streamId;
    var current := if taskId in db.streams then db.streams[taskId].revision else 0;
    if current != a.expectedRevision then Some(RevisionConflict)
    else if a.expectedRevision > 0 && taskId !in db.projections then Some(JournalCorruption)
    else if a.expectedRevision > 0 && db.projections[taskId].state.Terminal() then Some(TerminalTaskConflict)
    else if a.expectedLease.Some? && a.leaseCheckedAtMs.Some?
            && !LeaseValidates(db, a.expectedLease.value, a.leaseCheckedAtMs.value)
    then Some(LeaseConflict)
    else if a.event.causedBy.Some? && FindEvent(db.events, a.event.causedBy.value).None? then Some(EventConflict)
    else None
  }

  function AdmittedRow(a: AppendRequest): EventRow {
    EventRow(a.event.eventId, a.event.streamId, a.event.streamKind, a.projection.revision, a.event.kind,
             a.event.payloadDigest, a.event.causedBy, a.event.recordedAtMs)
  }

  function AdmittedStream(db: Db, a: AppendRequest): StreamRow {
    var at := a.event.recordedAtMs;
    if a.event.streamId in db.streams
    then db.streams[a.event.streamId].(revision := a.projection.revision, updatedAtMs := at)
    else StreamRow(a.event.streamKind, a.projection.revision, at, at)
  }

  function AdmittedExtensions(db: Db, a: AppendRequest): map<ExtensionKey, ExtensionRow> {
    match a.extensionState
    case None => db.extensions
    case Some(x) =>
      db.extensions[ExtensionKey(a.event.streamId, x.ns) :=
        ExtensionRow(x.stored.digest, a.event.eventId, a.projection.revision, false)]
  }

  function WithoutLease(leases: map<string, LeaseRow>, taskId: string): map<string, LeaseRow> {
    leases - {taskId}
  }

  // The database after a new event, with its objects, edges, projection and pointer.
  function Admitted(db: Db, a: AppendRequest, objects: map<Digest, ObjectRow>, edges: map<Digest, Role>): Db {
    db.(streams := db.streams[a.event.streamId := AdmittedStream(db, a)],
        events := db.events + [AdmittedRow(a)],
        edges := db.edges[a.event.eventId := edges],
        projections := db.projections[a.projection.taskId := a.projection],
        extensions := AdmittedExtensions(db, a),
        leases := if a.expectedLease.Some? then WithoutLease(db.leases, a.projection.taskId) else db.leases,
        objects := objects)
  }

  function AppendTaskEvent(db: Db, a: AppendRequest): Outcome<EventAdmission> {
    match Preflight(a)
    case Some(e) => Outcome(db, Err(e))
    case None =>
      match FindEvent(db.events, a.event.eventId)
      case Some(i) => ReplayTaskEvent(db, a, i)
      case None => AdmitTaskEvent(db, a)
  }

  function ReplayTaskEvent(db: Db, a: AppendRequest, i: nat): Outcome<EventAdmission>
    requires i < |db.events|
  {
    match ReplayConflict(db, a, i)
    case Some(e) => Outcome(db, Err(e))
    case None =>
      if a.expectedLease.None? || a.leaseCheckedAtMs.None? then Outcome(db, Ok(Existing))
      else if !LeaseValidates(db, a.expectedLease.value, a.leaseCheckedAtMs.value) then Outcome(db, Err(LeaseConflict))
      else Outcome(db.(leases := WithoutLease(db.leases, a.expectedLease.value.taskId)), Ok(Existing))
  }

  function AdmitTaskEvent(db: Db, a: AppendRequest): Outcome<EventAdmission> {
    match AdmissionRefusal(db, a)
    case Some(e) => Outcome(db, Err(e))
    case None =>
      match AdmitAll(db.objects, [a.payloadObject] + a.referencedObjects, a.event.recordedAtMs)
      case Err(e) => Outcome(db, Err(e))
      case Ok(objects) =>
        // CHECK(updated_at_ms >= created_at_ms) on streams.
        if AdmittedStream(db, a).updatedAtMs < AdmittedStream(db, a).createdAtMs then Outcome(db, Err(IntegrityError))
        else
          match EventEdges(a.payloadObject, a.referencedObjects)
          case None => Outcome(db, Err(ValueError))
          case Some(edges) => Outcome(Admitted(db, a, objects, edges), Ok(Created))
  }

  function AcquireLease(db: Db, taskId: string, ownerId: string, nowMs: int, ttlMs: int): Outcome<LeaseRecord> {
    if !Text.IsLabel(ownerId) || nowMs < 0 || ttlMs < 1 then Outcome(db, Err(ValueError))
    else if taskId !in db.projections then Outcome(db, Err(UnknownTask))
    else if taskId in db.leases && db.leases[taskId].ownerId != ownerId && nowMs < db.leases[taskId].expiresAtMs
    then Outcome(db, Err(LeaseHeld))
    else
      var revision := if taskId in db.leases then db.leases[taskId].revision + 1 else 1;
      var row := LeaseRow(ownerId, revision, nowMs + ttlMs);
      Outcome(db.(leases := db.leases[taskId := row]), Ok(LeaseRecord(taskId, row)))
  }

  function ReleaseLease(db: Db, lease: LeaseRecord): Outcome<()> {
    if !LeaseMatches(db, lease) then Outcome(db, Err(LeaseConflict))
    else Outcome(db.(leases := WithoutLease(db.leases, lease.taskId)), Ok(()))
  }

  datatype BoardRequest = BoardRequest(row: BoardRow, stored: StoredObject)

  // The columns a repeated post must repeat; its time may differ.
  predicate SameMessage(kept: BoardRow, given: BoardRow) {
    && kept.author == given.author
    && kept.kind == given.kind
    && kept.topic == given.topic
    && kept.messageDigest == given.messageDigest
    && kept.replyTo == given.replyTo
  }

  predicate BoardRequestValid(b: BoardRequest) {
    && Text.IsLabel(b.row.clientMessageId)
    && Text.IsLabel(b.row.author)
    && (b.row.topic.Some? ==> Text.IsLabel(b.row.topic.value))
    && b.row.replyTo != Some(b.row.clientMessageId)
    && b.stored.kind == BOARD_OBJECT_KIND
    && b.stored.digest == b.row.messageDigest
    && b.row.recordedAtMs >= 0
  }

  function AppendBoardMessage(db: Db, b: BoardRequest): Outcome<EventAdmission> {
    if !BoardRequestValid(b) then Outcome(db, Err(ValueError))
    else
      match FindMessage(db.board, b.row.clientMessageId)
      case Some(i) =>
        if SameMessage(db.board[i], b.row) then Outcome(db, Ok(Existing)) else Outcome(db, Err(EventConflict))
      case None =>
        if b.row.replyTo.Some? && FindMessage(db.board, b.row.replyTo.value).None? then Outcome(db, Err(EventConflict))
        else
          match AdmitObject(db.objects, b.stored, b.row.recordedAtMs, OnAccess)
          case Err(e) => Outcome(db, Err(e))
          case Ok(objects) => Outcome(db.(objects := objects, board := db.board + [b.row]), Ok(Created))
  }

  datatype NewsRequest = NewsRequest(
    clientPublishId: string,
    editionId: string,
    date: string,
    timezone: string,
    expectedRevision: int,
    stored: StoredObject,
    recordedAtMs: int)

  predicate NewsRequestValid(n: NewsRequest) {
    && Text.IsLabel(n.clientPublishId)
    && Text.IsLabel(n.editionId)
    && Text.IsLabel(n.date)
    && Text.IsLabel(n.timezone)
    && n.expectedRevision >= 0
    && n.stored.kind == NEWS_OBJECT_KIND
    && n.recordedAtMs >= 0
  }

  predicate SamePublication(kept: PublicationRow, n: NewsRequest) {
    && kept.editionId == n.editionId
    && kept.date == n.date
    && kept.timezone == n.timezone
    && kept.expectedRevision == n.expectedRevision
    && kept.digest == n.stored.digest
  }

  function PublishedRow(n: NewsRequest): PublicationRow {
    PublicationRow(n.clientPublishId, n.editionId, n.date, n.timezone, n.expectedRevision, n.expectedRevision + 1,
                   n.stored.digest, n.recordedAtMs)
  }

  function PublishedEdition(db: Db, n: NewsRequest): EditionRow {
    if n.editionId in db.editions
    then db.editions[n.editionId].(revision := n.expectedRevision + 1, digest := n.stored.digest,
                                   updatedAtMs := n.recordedAtMs)
    else EditionRow(n.date, n.timezone, n.expectedRevision + 1, n.stored.digest, n.recordedAtMs, n.recordedAtMs)
  }

  function AppendNewsPublication(db: Db, n: NewsRequest): Outcome<EventAdmission> {
    if !NewsRequestValid(n) then Outcome(db, Err(ValueError))
    else
      match FindPublication(db.publications, n.clientPublishId)
      case Some(i) =>
        if SamePublication(db.publications[i], n) then Outcome(db, Ok(Existing)) else Outcome(db, Err(EventConflict))
      case None =>
        var known := n.editionId in db.editions;
        if (if known then db.editions[n.editionId].revision else 0) != n.expectedRevision
        then Outcome(db, Err(RevisionConflict))
        else if known && (db.editions[n.editionId].date != n.date || db.editions[n.editionId].timezone != n.timezone)
        then Outcome(db, Err(EventConflict))
        else
          match AdmitObject(db.objects, n.stored, n.recordedAtMs, OnAccess)
          case Err(e) => Outcome(db, Err(e))
          case Ok(objects) =>
            // CHECK(updated_at_ms >= created_at_ms) on news_editions.
            if n.recordedAtMs < PublishedEdition(db, n).createdAtMs then Outcome(db, Err(IntegrityError))
            else Outcome(db.(objects := objects,
                             editions := db.editions[n.editionId := PublishedEdition(db, n)],
                             publications := db.publications + [PublishedRow(n)]), Ok(Created))
  }
}
