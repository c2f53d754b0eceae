// The Host Journal as the object the repository writes: tables that a transaction
// updates one by one, with a rollback that undoes all of them when it fails.
module HostJournal {
  import opened Base
  import opened Json
  import opened Domain
  import opened Tables
  import T = Transactions
  import I = JournalInvariants
  import Text

  class Journal {
    var streams: map<string, StreamRow>
    var events: seq<EventRow>
    var edges: map<string, map<Digest, Role>>
    var projections: map<string, TaskProjection>
    var extensions: map<ExtensionKey, ExtensionRow>
    var leases: map<string, LeaseRow>
    var objects: map<Digest, ObjectRow>
    var board: seq<BoardRow>
    var editions: map<string, EditionRow>
    var publications: seq<PublicationRow>
    var boundary: int

    function View(): Db
      reads this
    {
      Db(streams, events, edges, projections, extensions, leases, objects, board, editions, publications, boundary)
    }

    ghost predicate Valid()
      reads this
    {
      I.Inv(View())
    }

    // A fresh database of the current schema.
    constructor ()
      ensures Valid() && View() == EMPTY
    {
      streams, events, edges, projections := map[], [], map[], map[];
      extensions, leases, objects := map[], map[], map[];
      board, editions, publications, boundary := [], map[], [], 1;
      new;
      I.EmptyInv();
    }

    // ROLLBACK: every table is what it was when the transaction began.
    method Restore(saved: Db)
      modifies this
      ensures View() == saved
    {
      match saved
      case Db(s, ev, ed, p, x, l, o, b, ns, ps, from) =>
        streams, events, edges, projections, extensions, leases := s, ev, ed, p, x, l;
        objects, board, editions, publications, boundary := o, b, ns, ps, from;
    }

    method AdmitObject(o: StoredObject, atMs: int, timing: Timing) returns (r: Result<(), HostError>)
      modifies this`objects
      ensures match T.AdmitObject(old(objects), o, atMs, timing)
              case Ok(after) => r == Ok(()) && objects == after
              case Err(e) => r == Err(e) && objects == old(objects)
    {
      if o.digest in objects {
        var row := objects[o.digest];
        if row.kind != o.kind || row.byteLength != o.byteLength {
          return Err(JournalCorruption);
        }
        if row.timing == OnAccess && timing == Startup {
          objects := objects[o.digest := row.(timing := Startup)];
        }
        return Ok(());
      }
      objects := objects[o.digest := ObjectRow(o.kind, o.byteLength, atMs, timing)];
      return Ok(());
    }

    // The payload first, then each reference in the caller's order.
    method AdmitObjects(payload: StoredObject, referenced: seq<StoredObject>, atMs: int)
      returns (r: Result<(), HostError>)
      modifies this`objects
      ensures match T.AdmitAll(old(objects), [payload] + referenced, atMs)
              case Ok(after) => r == Ok(()) && objects == after
              case Err(e) => r == Err(e)
    {
      ghost var before := objects;
      ghost var all := [payload] + referenced;
      assert all[..0] == [] && all[..1] == [payload] && [payload][..0] == [];
      r := AdmitObject(payload, atMs, Startup);
      if r.Err? {
        AdmitAllFails(before, all, 1, atMs);
        return;
      }
      var i := 0;
      while i < |referenced|
        invariant 0 <= i <= |referenced|
        invariant T.AdmitAll(before, all[..i + 1], atMs) == Ok(objects)
      {
        assert all[..i + 2][..i + 1] == all[..i + 1] && all[..i + 2][i + 1] == referenced[i];
        r := AdmitObject(referenced[i], atMs, Startup);
        if r.Err? {
          AdmitAllFails(before, all, i + 2, atMs);
          return;
        }
        i := i + 1;
      }
      assert all[..|all|] == all;
      r := Ok(());
    }

    // Append one Task Event, or recognise an exact replay, in one transaction.
    method AppendTaskEvent(a: T.AppendRequest) returns (r: Result<EventAdmission, HostError>)
      requires Valid()
      modifies this
      ensures Valid()
      ensures T.Outcome(View(), r) == T.AppendTaskEvent(old(View()), a)
    {
      I.AppendKeepsInv(View(), a);
      r := AppendOrRollBack(a);
    }

    method AppendOrRollBack(a: T.AppendRequest) returns (r: Result<EventAdmission, HostError>)
      modifies this
      ensures View() == T.AppendTaskEvent(old(View()), a).db
      ensures r == T.AppendTaskEvent(old(View()), a).result
    {
      var refused := T.Preflight(a);
      if refused.Some? {
        return Err(refused.value);
      }
      var saved := View();
      var known := FindEvent(events, a.event.eventId);
      if known.Some? {
        r := ReplayInTransaction(a, known.value);
      } else {
        r := AdmitInTransaction(a);
      }
      if r.Err? {
        I.NotCreatedMeansKept(saved, a);
        Restore(saved);
      }
    }

    method ReplayInTransaction(a: T.AppendRequest, i: nat) returns (r: Result<EventAdmission, HostError>)
      requires T.Preflight(a).None? && i < |events|
      modifies this
      ensures r == T.ReplayTaskEvent(old(View()), a, i).result
      ensures r.Ok? ==> View() == T.ReplayTaskEvent(old(View()), a, i).db
    {
      var conflict := T.ReplayConflict(View(), a, i);
      if conflict.Some? {
        return Err(conflict.value);
      }
      if a.expectedLease.Some? {
        var lease := a.expectedLease.value;
        if !T.LeaseValidates(View(), lease, a.leaseCheckedAtMs.value) {
          return Err(LeaseConflict);
        }
        r := ConsumeExactLease(lease);
        if r.Err? {
          return;
        }
      }
      return Ok(Existing);
    }

    method AdmitInTransaction(a: T.AppendRequest) returns (r: Result<EventAdmission, HostError>)
      requires T.Preflight(a).None?
      modifies this
      ensures r == T.AdmitTaskEvent(old(View()), a).result
      ensures r.Ok? ==> View() == T.AdmitTaskEvent(old(View()), a).db
    {
      var taskId := a.event.streamId;
      var current := if taskId in streams then streams[taskId].revision else 0;
      if current != a.expectedRevision {
        return Err(RevisionConflict);
      }
      if a.expectedRevision > 0 {
        if taskId !in projections {
          return Err(JournalCorruption);
        }
        if projections[taskId].state.Terminal() {
          return Err(TerminalTaskConflict);
        }
      }
      if a.expectedLease.Some? && !T.LeaseValidates(View(), a.expectedLease.value, a.leaseCheckedAtMs.value) {
        return Err(LeaseConflict);
      }
      if a.event.causedBy.Some? {
        var cause := FindEvent(events, a.event.causedBy.value);
        if cause.None? {
          return Err(EventConflict);
        }
      }
      var admitted := AdmitObjects(a.payloadObject, a.referencedObjects, a.event.recordedAtMs);
      if admitted.Err? {
        return Err(admitted.error);
      }
      r := WriteEvent(a);
    }

    // The stream row of an admitted event; its creation time never moves.
    method WriteStream(a: T.AppendRequest) returns (r: Result<(), HostError>)
      modifies this`streams
      ensures var row := T.AdmittedStream(old(View()), a);
              if row.updatedAtMs < row.createdAtMs then r == Err(IntegrityError)
              else r.Ok? && streams == old(streams)[a.event.streamId := row]
    {
      var taskId := a.event.streamId;
      var at := a.event.recordedAtMs;
      if taskId !in streams {
        streams := streams[taskId := StreamRow(a.event.streamKind, a.projection.revision, at, at)];
      } else {
        var row := streams[taskId];
        if at < row.createdAtMs {
          return Err(IntegrityError);
        }
        streams := streams[taskId := StreamRow(row.kind, a.projection.revision, row.createdAtMs, at)];
      }
      return Ok(());
    }

    method WritePointer(a: T.AppendRequest)
      modifies this`extensions
      ensures extensions == T.AdmittedExtensions(old(View()), a)
    {
      if a.extensionState.Some? {
        var x := a.extensionState.value;
        extensions := extensions[ExtensionKey(a.event.streamId, x.ns) :=
          ExtensionRow(x.stored.digest, a.event.eventId, a.projection.revision, false)];
      }
    }

    // The rows of an admitted event: stream, event, edges, projection, pointer, lease.
    method WriteEvent(a: T.AppendRequest) returns (r: Result<EventAdmission, HostError>)
      requires a.expectedLease.Some? ==> T.LeaseMatches(View(), a.expectedLease.value)
      requires a.expectedLease.Some? ==> a.expectedLease.value.taskId == a.projection.taskId
      modifies this`streams, this`events, this`edges, this`projections, this`extensions, this`leases
      ensures r == if T.AdmittedStream(old(View()), a).updatedAtMs < T.AdmittedStream(old(View()), a).createdAtMs
                   then Err(IntegrityError)
                   else if T.EventEdges(a.payloadObject, a.referencedObjects).None? then Err(ValueError)
                   else Ok(Created)
      ensures r.Ok? ==> View() == T.Admitted(old(View()), a, old(objects),
                                             T.EventEdges(a.payloadObject, a.referencedObjects).value)
    {
      var written := WriteStream(a);
      if written.Err? {
        return Err(written.error);
      }
      events := events + [EventRow(a.event.eventId, a.event.streamId, a.event.streamKind, a.projection.revision,
                                   a.event.kind, a.event.payloadDigest, a.event.causedBy, a.event.recordedAtMs)];
      var added := T.EventEdges(a.payloadObject, a.referencedObjects);
      if added.None? {
        return Err(ValueError);
      }
      edges := edges[a.event.eventId := added.value];
      projections := projections[a.projection.taskId := a.projection];
      WritePointer(a);
      if a.expectedLease.Some? {
        var _ := ConsumeExactLease(a.expectedLease.value);
      }
      return Ok(Created);
    }

    method ConsumeExactLease(lease: LeaseRecord) returns (r: Result<EventAdmission, HostError>)
      modifies this`leases
      ensures T.LeaseMatches(old(View()), lease) ==> r.Ok? && leases == T.WithoutLease(old(leases), lease.taskId)
      ensures !T.LeaseMatches(old(View()), lease) ==> r == Err(LeaseConflict) && leases == old(leases)
    {
      if lease.taskId in leases && leases[lease.taskId].ownerId == lease.row.ownerId
         && leases[lease.taskId].revision == lease.row.revision
      {
        leases := leases - {lease.taskId};
        return Ok(Created);
      }
      return Err(LeaseConflict);
    }

    method AcquireLease(taskId: string, ownerId: string, nowMs: int, ttlMs: int)
      returns (r: Result<LeaseRecord, HostError>)
      requires Valid()
      modifies this
      ensures Valid()
      ensures T.Outcome(View(), r) == T.AcquireLease(old(View()), taskId, ownerId, nowMs, ttlMs)
    {
      I.AcquireKeepsInv(View(), taskId, ownerId, nowMs, ttlMs);
      r := AcquireInTransaction(taskId, ownerId, nowMs, ttlMs);
    }

    method AcquireInTransaction(taskId: string, ownerId: string, nowMs: int, ttlMs: int)
      returns (r: Result<LeaseRecord, HostError>)
      modifies this`leases
      ensures View() == T.AcquireLease(old(View()), taskId, ownerId, nowMs, ttlMs).db
      ensures r == T.AcquireLease(old(View()), taskId, ownerId, nowMs, ttlMs).result
    {
      if !Text.IsLabel(ownerId) || nowMs < 0 || ttlMs < 1 {
        return Err(ValueError);
      }
      if taskId !in projections {
        return Err(UnknownTask);
      }
      var revision := 1;
      if taskId in leases {
        var row := leases[taskId];
        if row.ownerId != ownerId && nowMs < row.expiresAtMs {
          return Err(LeaseHeld);
        }
        revision := row.revision + 1;
      }
      var row := LeaseRow(ownerId, revision, nowMs + ttlMs);
      leases := leases[taskId := row];
      return Ok(LeaseRecord(taskId, row));
    }

    method ReleaseLease(lease: LeaseRecord) returns (r: Result<(), HostError>)
      requires Valid()
      modifies this
      ensures Valid()
      ensures T.Outcome(View(), r) == T.ReleaseLease(old(View()), lease)
    {
      I.ReleaseKeepsInv(View(), lease);
      var consumed := ConsumeExactLease(lease);
      return if consumed.Ok? then Ok(()) else Err(consumed.error);
    }

    method AppendBoardMessage(b: T.BoardRequest) returns (r: Result<EventAdmission, HostError>)
      requires Valid()
      modifies this
      ensures Valid()
      ensures T.Outcome(View(), r) == T.AppendBoardMessage(old(View()), b)
    {
      I.BoardKeepsInv(View(), b);
      r := PostInTransaction(b);
    }

    method PostInTransaction(b: T.BoardRequest) returns (r: Result<EventAdmission, HostError>)
      modifies this`objects, this`board
      ensures View() == T.AppendBoardMessage(old(View()), b).db
      ensures r == T.AppendBoardMessage(old(View()), b).result
    {
      if !T.BoardRequestValid(b) {
        return Err(ValueError);
      }
      var known := FindMessage(board, b.row.clientMessageId);
      if known.Some? {
        return if T.SameMessage(board[known.value], b.row) then Ok(Existing) else Err(EventConflict);
      }
      if b.row.replyTo.Some? {
        var parent := FindMessage(board, b.row.replyTo.value);
        if parent.None? {
          return Err(EventConflict);
        }
      }
      var admitted := AdmitObject(b.stored, b.row.recordedAtMs, OnAccess);
      if admitted.Err? {
        return Err(admitted.error);
      }
      board := board + [b.row];
      return Ok(Created);
    }

    method AppendNewsPublication(n: T.NewsRequest) returns (r: Result<EventAdmission, HostError>)
      requires Valid()
      modifies this
      ensures Valid()
      ensures T.Outcome(View(), r) == T.AppendNewsPublication(old(View()), n)
    {
      I.NewsKeepsInv(View(), n);
      if !T.NewsRequestValid(n) {
        return Err(ValueError);
      }
      var saved := View();
      r := PublishInTransaction(n);
      if r.Err? {
        Restore(saved);
      }
    }

    method PublishInTransaction(n: T.NewsRequest) returns (r: Result<EventAdmission, HostError>)
      requires T.NewsRequestValid(n)
      modifies this
      ensures r == T.AppendNewsPublication(old(View()), n).result
      ensures r.Ok? ==> View() == T.AppendNewsPublication(old(View()), n).db
    {
      var known := FindPublication(publications, n.clientPublishId);
      if known.Some? {
        return if T.SamePublication(publications[known.value], n) then Ok(Existing) else Err(EventConflict);
      }
      var current := if n.editionId in editions then editions[n.editionId].revision else 0;
      if current != n.expectedRevision {
        return Err(RevisionConflict);
      }
      if n.editionId in editions && (editions[n.editionId].date != n.date || editions[n.editionId].timezone != n.timezone) {
        return Err(EventConflict);
      }
      var revision := n.expectedRevision + 1;
      var admitted := AdmitObject(n.stored, n.recordedAtMs, OnAccess);
      if admitted.Err? {
        return Err(admitted.error);
      }
      if n.editionId !in editions {
        editions := editions[n.editionId :=
          EditionRow(n.date, n.timezone, revision, n.stored.digest, n.recordedAtMs, n.recordedAtMs)];
      } else {
        var head := editions[n.editionId];
        if n.recordedAtMs < head.createdAtMs {
          return Err(IntegrityError);
        }
        editions := editions[n.editionId :=
          EditionRow(head.date, head.timezone, revision, n.stored.digest, head.createdAtMs, n.recordedAtMs)];
      }
      publications := publications + [
        PublicationRow(n.clientPublishId, n.editionId, n.date, n.timezone, n.expectedRevision, revision,
                       n.stored.digest, n.recordedAtMs)];
      return Ok(Created);
    }
  }

  // Once a prefix of the objects is refused, so is the whole list.
  lemma {:induction false} AdmitAllFails(objects: map<Digest, ObjectRow>, all: seq<StoredObject>, n: nat, atMs: int)
    requires n <= |all| && T.AdmitAll(objects, all[..n], atMs).Err?
    ensures T.AdmitAll(objects, all, atMs) == T.AdmitAll(objects, all[..n], atMs)
    decreases |all|
  {
    if n < |all| {
      var shorter := all[..|all| - 1];
      assert shorter[..n] == all[..n];
      AdmitAllFails(objects, shorter, n, atMs);
    } else {
      assert all[..n] == all;
    }
  }
}
