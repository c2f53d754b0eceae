// The rows of the Host Journal database and the lookups its queries make.
module Tables {
  import opened Base
  import opened Json
  import opened Domain

  datatype StreamKind = TaskStream | GoalStream

  datatype StreamRow = StreamRow(kind: StreamKind, revision: int, createdAtMs: int, updatedAtMs: int)

  // The `sequence` column is the position in the table plus one.
  datatype EventRow = EventRow(
    eventId: string,
    streamId: string,
    streamKind: StreamKind,
    streamRevision: int,
    kind: EventKind,
    payloadDigest: Digest,
    causedBy: Option<string>,
    recordedAtMs: int)

  datatype Role = Payload | Reference

  datatype Timing = Startup | OnAccess

  datatype ObjectRow = ObjectRow(kind: string, byteLength: nat, firstSeenAtMs: int, timing: Timing)

  datatype ExtensionKey = ExtensionKey(taskId: string, ns: string)

  datatype ExtensionRow = ExtensionRow(stateDigest: Digest, eventId: string, revision: int, legacy: bool)

  datatype LeaseRow = LeaseRow(ownerId: string, revision: int, expiresAtMs: int)

  datatype LeaseRecord = LeaseRecord(taskId: string, row: LeaseRow)

  datatype MessageKind = Note | Question | Proposal | Warning | Reply

  datatype BoardRow = BoardRow(
    clientMessageId: string,
    author: string,
    kind: MessageKind,
    topic: Option<string>,
    messageDigest: Digest,
    replyTo: Option<string>,
    recordedAtMs: int)

  datatype EditionRow = EditionRow(
    date: string, timezone: string, revision: int, digest: Digest, createdAtMs: int, updatedAtMs: int)

  datatype PublicationRow = PublicationRow(
    clientPublishId: string,
    editionId: string,
    date: string,
    timezone: string,
    expectedRevision: int,
    revision: int,
    digest: Digest,
    recordedAtMs: int)

  datatype Db = Db(
    streams: map<string, StreamRow>,
    events: seq<EventRow>,
    edges: map<string, map<Digest, Role>>,
    projections: map<string, TaskProjection>,
    extensions: map<ExtensionKey, ExtensionRow>,
    leases: map<string, LeaseRow>,
    objects: map<Digest, ObjectRow>,
    board: seq<BoardRow>,
    editions: map<string, EditionRow>,
    publications: seq<PublicationRow>,
    boundary: int)

  // A fresh database of the current schema version.
  const EMPTY := Db(map[], [], map[], map[], map[], map[], map[], [], map[], [], 1)

  // The row of one event identity.
  function FindEvent(events: seq<EventRow>, eventId: string): (r: Option<nat>)
    ensures r.Some? ==> r.value < |events| && events[r.value].eventId == eventId
    ensures r.None? ==> forall i :: 0 <= i < |events| ==> events[i].eventId != eventId
  {
    if |events| == 0 then None
    else if events[|events| - 1].eventId == eventId then Some(|events| - 1)
    else FindEvent(events[..|events| - 1], eventId)
  }

  // The history of one stream, oldest first.
  function Log(events: seq<EventRow>, streamId: string): seq<EventRow> {
    if |events| == 0 then []
    else
      var last := events[|events| - 1];
      var before := Log(events[..|events| - 1], streamId);
      if last.streamId == streamId then before + [last] else before
  }

  // The row that `WHERE stream_id = ? AND stream_revision = ?` selects.
  function EventAt(db: Db, taskId: string, revision: int): Option<EventRow> {
    var log := Log(db.events, taskId);
    if 1 <= revision <= |log| then Some(log[revision - 1]) else None
  }

  function Publications(rows: seq<PublicationRow>, editionId: string): seq<PublicationRow> {
    if |rows| == 0 then []
    else
      var last := rows[|rows| - 1];
      var before := Publications(rows[..|rows| - 1], editionId);
      if last.editionId == editionId then before + [last] else before
  }

  function FindMessage(board: seq<BoardRow>, id: string): (r: Option<nat>)
    ensures r.Some? ==> r.value < |board| && board[r.value].clientMessageId == id
    ensures r.None? ==> forall i :: 0 <= i < |board| ==> board[i].clientMessageId != id
  {
    if |board| == 0 then None
    else if board[|board| - 1].clientMessageId == id then Some(|board| - 1)
    else FindMessage(board[..|board| - 1], id)
  }

  function FindPublication(rows: seq<PublicationRow>, id: string): (r: Option<nat>)
    ensures r.Some? ==> r.value < |rows| && rows[r.value].clientPublishId == id
    ensures r.None? ==> forall i :: 0 <= i < |rows| ==> rows[i].clientPublishId != id
  {
    if |rows| == 0 then None
    else if rows[|rows| - 1].clientPublishId == id then Some(|rows| - 1)
    else FindPublication(rows[..|rows| - 1], id)
  }

  lemma LogSnoc(events: seq<EventRow>, e: EventRow, streamId: string)
    ensures Log(events + [e], streamId) ==
            if e.streamId == streamId then Log(events, streamId) + [e] else Log(events, streamId)
  {
    assert (events + [e])[..|events|] == events;
  }

  // Appending rows only extends every history.
  lemma {:induction false} LogPrefix(events: seq<EventRow>, more: seq<EventRow>, streamId: string)
    requires events <= more
    ensures Log(events, streamId) <= Log(more, streamId)
    decreases |more|
  {
    if |more| > |events| {
      LogPrefix(events, more[..|more| - 1], streamId);
    } else {
      assert events == more;
    }
  }

  lemma EventAtStable(db: Db, later: Db, taskId: string, revision: int)
    requires db.events <= later.events
    requires EventAt(db, taskId, revision).Some?
    ensures EventAt(later, taskId, revision) == EventAt(db, taskId, revision)
  {
    LogPrefix(db.events, later.events, taskId);
  }

  // A history holds exactly the stream's own rows.
  lemma {:induction false} LogMembers(events: seq<EventRow>, streamId: string)
    ensures forall k :: 0 <= k < |Log(events, streamId)| ==>
              Log(events, streamId)[k].streamId == streamId && Log(events, streamId)[k] in events
    ensures forall i :: 0 <= i < |events| && events[i].streamId == streamId ==>
              events[i] in Log(events, streamId)
  {
    if |events| > 0 {
      LogMembers(events[..|events| - 1], streamId);
    }
  }

  lemma {:induction false} LogEmpty(events: seq<EventRow>, streamId: string)
    requires forall i :: 0 <= i < |events| ==> events[i].streamId != streamId
    ensures Log(events, streamId) == []
  {
    if |events| > 0 {
      LogEmpty(events[..|events| - 1], streamId);
    }
  }

  lemma PublicationsSnoc(rows: seq<PublicationRow>, p: PublicationRow, editionId: string)
    ensures Publications(rows + [p], editionId) ==
            if p.editionId == editionId then Publications(rows, editionId) + [p] else Publications(rows, editionId)
  {
    assert (rows + [p])[..|rows|] == rows;
  }

  lemma {:induction false} PublicationsMembers(rows: seq<PublicationRow>, editionId: string)
    ensures forall k :: 0 <= k < |Publications(rows, editionId)| ==>
              Publications(rows, editionId)[k].editionId == editionId && Publications(rows, editionId)[k] in rows
    ensures forall i :: 0 <= i < |rows| && rows[i].editionId == editionId ==>
              rows[i] in Publications(rows, editionId)
  {
    if |rows| > 0 {
      PublicationsMembers(rows[..|rows| - 1], editionId);
    }
  }

  lemma {:induction false} PublicationsEmpty(rows: seq<PublicationRow>, editionId: string)
    requires forall i :: 0 <= i < |rows| ==> rows[i].editionId != editionId
    ensures Publications(rows, editionId) == []
  {
    if |rows| > 0 {
      PublicationsEmpty(rows[..|rows| - 1], editionId);
    }
  }
}
