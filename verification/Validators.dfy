// The integrity queries the Host runs when it opens a journal, stated as the SQL states
// them (MIN, MAX, COUNT and joins over the tables), and the proof that a journal which
// keeps the invariant answers every one of them with "no row".
module Validators {
  import opened Tables
  import opened Transactions
  import opened JournalInvariants

  function RowsOf(events: seq<EventRow>, s: string): set<nat> {
    set i: nat | i < |events| && events[i].streamId == s
  }

  ghost predicate IsMaxRevision(events: seq<EventRow>, s: string, m: int) {
    && (exists i :: i in RowsOf(events, s) && events[i].streamRevision == m)
    && (forall i :: i in RowsOf(events, s) ==> events[i].streamRevision <= m)
  }

  ghost predicate IsMinRevision(events: seq<EventRow>, s: string, m: int) {
    && (exists i :: i in RowsOf(events, s) && events[i].streamRevision == m)
    && (forall i :: i in RowsOf(events, s) ==> events[i].streamRevision >= m)
  }

  // validate_invariants, query by query.
  ghost predicate StreamsMatchHistory(db: Db) {
    forall s :: s in db.streams ==> IsMaxRevision(db.events, s, db.streams[s].revision)
  }

  ghost predicate HistoriesContiguous(db: Db) {
    forall s :: RowsOf(db.events, s) != {} ==>
      IsMinRevision(db.events, s, 1) && IsMaxRevision(db.events, s, |RowsOf(db.events, s)|)
  }

  ghost predicate KindsMatch(db: Db) {
    forall i :: 0 <= i < |db.events| && db.events[i].streamId in db.streams ==>
      db.events[i].streamKind == db.streams[db.events[i].streamId].kind
  }

  ghost predicate ProjectionsMatch(db: Db) {
    && (forall s :: s in db.streams && db.streams[s].kind == TaskStream ==> s in db.projections)
    && (forall t :: t in db.projections && t in db.streams ==>
          db.streams[t].kind == TaskStream && db.streams[t].revision == db.projections[t].revision)
    && (forall t :: t in db.projections ==> db.projections[t].WellFormed())
  }

  ghost predicate CausesExist(db: Db) {
    forall i :: 0 <= i < |db.events| && db.events[i].causedBy.Some? ==>
      FindEvent(db.events, db.events[i].causedBy.value).Some?
  }

  ghost predicate PayloadEdge(db: Db, e: EventRow) {
    && (exists d :: d in EdgesOf(db, e.eventId) && EdgesOf(db, e.eventId)[d] == Payload)
    && (forall d :: d in EdgesOf(db, e.eventId) && EdgesOf(db, e.eventId)[d] == Payload ==> d == e.payloadDigest)
  }

  ghost predicate PayloadEdgesExact(db: Db) {
    && 1 <= db.boundary <= |db.events| + 1
    && forall i :: db.boundary - 1 <= i < |db.events| ==> PayloadEdge(db, db.events[i])
  }

  ghost predicate PointerJoins(db: Db, key: ExtensionKey)
    requires key in db.extensions
  {
    var x := db.extensions[key];
    && x.stateDigest in db.objects
    && key.taskId in db.projections
    && x.revision <= db.projections[key.taskId].revision
    && !x.legacy
    && FindEvent(db.events, x.eventId).Some?
    && var e := db.events[FindEvent(db.events, x.eventId).value];
       e.streamId == key.taskId && e.streamRevision == x.revision && e.kind.Extension? && e.kind.ns == key.ns
  }

  ghost predicate PointersExact(db: Db) {
    forall key :: key in db.extensions ==> PointerJoins(db, key)
  }

  // validate_news_invariants.
  function PublicationRowsOf(rows: seq<PublicationRow>, ed: string): set<nat> {
    set i: nat | i < |rows| && rows[i].editionId == ed
  }

  ghost predicate EditionContiguous(publications: seq<PublicationRow>, ed: string) {
    var rows := PublicationRowsOf(publications, ed);
    && (exists i :: i in rows && publications[i].revision == 1)
    && (exists i :: i in rows && publications[i].revision == |rows|)
    && (forall i :: i in rows ==> 1 <= publications[i].revision <= |rows|)
  }

  ghost predicate PublicationsContiguous(db: Db) {
    forall ed :: PublicationRowsOf(db.publications, ed) != {} ==> EditionContiguous(db.publications, ed)
  }

  ghost predicate PublicationsMatch(db: Db) {
    forall i :: 0 <= i < |db.publications| ==>
      var p := db.publications[i];
      && p.editionId in db.editions
      && p.date == db.editions[p.editionId].date
      && p.timezone == db.editions[p.editionId].timezone
      && p.revision == p.expectedRevision + 1
      && p.revision <= db.editions[p.editionId].revision
      && p.digest in db.objects
      && db.objects[p.digest].kind == NEWS_OBJECT_KIND
  }

  ghost predicate HeadsMatch(db: Db) {
    forall ed :: ed in db.editions ==>
      exists i :: && 0 <= i < |db.publications|
                  && db.publications[i].editionId == ed
                  && db.publications[i].revision == db.editions[ed].revision
                  && db.publications[i].digest == db.editions[ed].digest
  }

  // validate_board_invariants; sequences are positions, so they cannot have a gap.
  ghost predicate BoardMatches(db: Db) {
    forall i :: 0 <= i < |db.board| && db.board[i].replyTo.Some? ==>
      && FindMessage(db.board, db.board[i].replyTo.value).Some?
      && db.board[i].replyTo.value != db.board[i].clientMessageId
  }

  ghost predicate OpensCleanly(db: Db) {
    && StreamsMatchHistory(db)
    && HistoriesContiguous(db)
    && KindsMatch(db)
    && ProjectionsMatch(db)
    && CausesExist(db)
    && PayloadEdgesExact(db)
    && PointersExact(db)
    && PublicationsContiguous(db)
    && PublicationsMatch(db)
    && HeadsMatch(db)
    && BoardMatches(db)
  }

  // COUNT(*) of a stream is the length of its history.
  lemma {:induction false} CountIsLogLength(events: seq<EventRow>, s: string)
    ensures |RowsOf(events, s)| == |Log(events, s)|
  {
    if |events| > 0 {
      var init := events[..|events| - 1];
      var n: nat := |events| - 1;
      CountIsLogLength(init, s);
      var added: set<nat> := if events[n].streamId == s then {n} else {};
      assert RowsOf(events, s) == RowsOf(init, s) + added;
    } else {
      assert RowsOf(events, s) == {};
    }
  }

  lemma {:induction false} CountIsPublicationsLength(rows: seq<PublicationRow>, ed: string)
    ensures |PublicationRowsOf(rows, ed)| == |Publications(rows, ed)|
  {
    if |rows| > 0 {
      var init := rows[..|rows| - 1];
      var n: nat := |rows| - 1;
      CountIsPublicationsLength(init, ed);
      var added: set<nat> := if rows[n].editionId == ed then {n} else {};
      assert PublicationRowsOf(rows, ed) == PublicationRowsOf(init, ed) + added;
    } else {
      assert PublicationRowsOf(rows, ed) == {};
    }
  }

  // A row of the table sits in its stream's history at its own revision.
  lemma RowInLog(events: seq<EventRow>, row: StreamRow, s: string, i: nat)
    requires StreamOk(Log(events, s), row) && i in RowsOf(events, s)
    ensures 1 <= events[i].streamRevision <= row.revision
    ensures Log(events, s)[events[i].streamRevision - 1] == events[i]
  {
    LogMembers(events, s);
    var k :| 0 <= k < |Log(events, s)| && Log(events, s)[k] == events[i];
  }

  lemma LogRowExists(events: seq<EventRow>, row: StreamRow, s: string, k: nat)
    requires StreamOk(Log(events, s), row) && k < |Log(events, s)|
    ensures exists i :: i in RowsOf(events, s) && events[i] == Log(events, s)[k] && events[i].streamRevision == k + 1
  {
    LogMembers(events, s);
    var e := Log(events, s)[k];
    var i: nat :| i < |events| && events[i] == e;
    assert i in RowsOf(events, s);
  }

  lemma StreamExtremes(events: seq<EventRow>, row: StreamRow, s: string)
    requires StreamOk(Log(events, s), row)
    ensures IsMaxRevision(events, s, row.revision) && IsMinRevision(events, s, 1)
    ensures |RowsOf(events, s)| == row.revision
  {
    CountIsLogLength(events, s);
    LogRowExists(events, row, s, 0);
    LogRowExists(events, row, s, row.revision - 1);
    forall i | i in RowsOf(events, s)
      ensures 1 <= events[i].streamRevision <= row.revision
    {
      RowInLog(events, row, s, i);
    }
  }

  lemma HistoryQueriesPass(db: Db)
    requires StreamInv(db.events, db.streams, db.projections)
    ensures StreamsMatchHistory(db) && HistoriesContiguous(db)
  {
    forall s | s in db.streams
      ensures IsMaxRevision(db.events, s, db.streams[s].revision)
      ensures IsMinRevision(db.events, s, 1) && IsMaxRevision(db.events, s, |RowsOf(db.events, s)|)
    {
      StreamExtremes(db.events, db.streams[s], s);
    }
    forall s | RowsOf(db.events, s) != {}
      ensures s in db.streams
    {
      var i :| i in RowsOf(db.events, s);
    }
  }

  lemma KindQueryPasses(db: Db)
    requires StreamInv(db.events, db.streams, db.projections)
    ensures KindsMatch(db)
  {
    forall i: nat | i < |db.events|
      ensures db.events[i].streamKind == db.streams[db.events[i].streamId].kind
    {
      var s := db.events[i].streamId;
      assert StreamOk(Log(db.events, s), db.streams[s]);
      assert i in RowsOf(db.events, s);
      RowInLog(db.events, db.streams[s], s, i);
    }
  }

  lemma ProjectionQueriesPass(db: Db)
    requires StreamInv(db.events, db.streams, db.projections)
    ensures ProjectionsMatch(db)
  {
    forall t | t in db.streams
      ensures db.streams[t].kind == TaskStream && ProjectionOk(t, db.streams[t], db.projections[t])
    {
      assert StreamOk(Log(db.events, t), db.streams[t]);
    }
  }

  lemma CauseQueryPasses(db: Db)
    requires CausesPointBack(db.events)
    ensures CausesExist(db)
  {
    forall i | 0 <= i < |db.events| && db.events[i].causedBy.Some?
      ensures FindEvent(db.events, db.events[i].causedBy.value).Some?
    {
      assert CausedEarlier(db.events, i);
    }
  }

  lemma EdgeQueryPasses(db: Db)
    requires EdgeInv(db.events, db.edges, db.objects, db.boundary)
    ensures PayloadEdgesExact(db)
  {
    forall i | db.boundary - 1 <= i < |db.events|
      ensures PayloadEdge(db, db.events[i])
    {
      assert EdgesOk(db.events[i], db.edges);
      assert db.events[i].payloadDigest in EdgesOf(db, db.events[i].eventId);
    }
  }

  lemma PointerQueryPasses(db: Db, key: ExtensionKey, x: ExtensionRow, log: seq<EventRow>)
    requires key in db.extensions && db.extensions[key] == x && log == Log(db.events, key.taskId)
    requires UniqueEvents(db.events) && ExtensionOk(log, key.ns, x) && x.stateDigest in db.objects
    requires key.taskId in db.streams && StreamOk(log, db.streams[key.taskId])
    requires key.taskId in db.projections && db.projections[key.taskId].revision == |log|
    ensures PointerJoins(db, key)
  {
    LogMembers(db.events, key.taskId);
    FindEventUnique(db.events, log[x.revision - 1]);
  }

  lemma PointerQueriesPass(db: Db)
    requires UniqueEvents(db.events) && StreamInv(db.events, db.streams, db.projections)
    requires ExtensionInv(db.events, db.extensions, db.objects)
    ensures PointersExact(db)
  {
    forall key | key in db.extensions
      ensures PointerJoins(db, key)
    {
      var t := key.taskId;
      var log := Log(db.events, t);
      assert ExtensionOk(log, key.ns, db.extensions[key]);
      LogMembers(db.events, t);
      assert log[0].streamId == t && log[0] in db.events;
      assert StreamOk(log, db.streams[t]) && ProjectionOk(t, db.streams[t], db.projections[t]);
      PointerQueryPasses(db, key, db.extensions[key], log);
    }
  }

  lemma FindEventUnique(events: seq<EventRow>, e: EventRow)
    requires UniqueEvents(events) && e in events
    ensures FindEvent(events, e.eventId).Some? && events[FindEvent(events, e.eventId).value] == e
  {
    var i :| 0 <= i < |events| && events[i] == e;
    var j := FindEvent(events, e.eventId).value;
    assert i == j;
  }

  ghost predicate PublicationFits(p: PublicationRow, head: EditionRow) {
    && 1 <= p.revision <= head.revision
    && p.revision == p.expectedRevision + 1
    && p.date == head.date
    && p.timezone == head.timezone
  }

  ghost predicate PublicationsOfEdition(publications: seq<PublicationRow>, ed: string, head: EditionRow) {
    var rows := PublicationRowsOf(publications, ed);
    && |rows| == head.revision
    && (exists i :: i in rows && publications[i].revision == 1)
    && (exists i :: i in rows && publications[i].revision == head.revision && publications[i].digest == head.digest)
    && (forall i :: i in rows ==> PublicationFits(publications[i], head))
  }

  lemma EditionQueries(publications: seq<PublicationRow>, ed: string, head: EditionRow)
    requires EditionOk(Publications(publications, ed), head)
    ensures PublicationsOfEdition(publications, ed, head)
  {
    var rows := Publications(publications, ed);
    PublicationsMembers(publications, ed);
    CountIsPublicationsLength(publications, ed);
    var first: nat :| first < |publications| && publications[first] == rows[0];
    var last: nat :| last < |publications| && publications[last] == rows[|rows| - 1];
    assert first in PublicationRowsOf(publications, ed) && last in PublicationRowsOf(publications, ed);
    forall i | i in PublicationRowsOf(publications, ed)
      ensures PublicationFits(publications[i], head)
    {
      var k :| 0 <= k < |rows| && rows[k] == publications[i];
    }
  }

  lemma EditionContiguousIfListed(publications: seq<PublicationRow>, ed: string, head: EditionRow)
    requires PublicationsOfEdition(publications, ed, head)
    ensures EditionContiguous(publications, ed)
  {
  }

  lemma NewsQueriesPass(db: Db)
    requires NewsInv(db.publications, db.editions, db.objects)
    ensures PublicationsContiguous(db) && PublicationsMatch(db) && HeadsMatch(db)
  {
    forall ed | ed in db.editions
      ensures PublicationsOfEdition(db.publications, ed, db.editions[ed])
    {
      EditionQueries(db.publications, ed, db.editions[ed]);
    }
    PublicationQueriesPass(db);
    forall ed | PublicationRowsOf(db.publications, ed) != {}
      ensures EditionContiguous(db.publications, ed)
    {
      var i :| i in PublicationRowsOf(db.publications, ed);
      assert PublicationOk(db.publications[i], db.editions, db.objects);
      EditionContiguousIfListed(db.publications, ed, db.editions[ed]);
    }
  }

  lemma PublicationQueriesPass(db: Db)
    requires forall i :: 0 <= i < |db.publications| ==> PublicationOk(db.publications[i], db.editions, db.objects)
    requires forall ed :: ed in db.editions ==> PublicationsOfEdition(db.publications, ed, db.editions[ed])
    ensures PublicationsMatch(db) && HeadsMatch(db)
  {
    forall i: nat | i < |db.publications|
      ensures db.publications[i].editionId in db.editions
      ensures PublicationFits(db.publications[i], db.editions[db.publications[i].editionId])
    {
      var p := db.publications[i];
      assert PublicationOk(p, db.editions, db.objects);
      assert i in PublicationRowsOf(db.publications, p.editionId);
      assert PublicationsOfEdition(db.publications, p.editionId, db.editions[p.editionId]);
    }
  }

  lemma BoardQueriesPass(db: Db)
    requires BoardInv(db.board, db.objects)
    ensures BoardMatches(db)
  {
    forall i | 0 <= i < |db.board| && db.board[i].replyTo.Some?
      ensures FindMessage(db.board, db.board[i].replyTo.value).Some?
      ensures db.board[i].replyTo.value != db.board[i].clientMessageId
    {
      assert RepliesEarlier(db.board, i);
      var j :| 0 <= j < i && db.board[j].clientMessageId == db.board[i].replyTo.value;
      assert db.board[j].clientMessageId != db.board[i].clientMessageId;
    }
  }

  // Theorem: opening a journal that keeps the invariant never reports corruption.
  lemma InvariantOpensCleanly(db: Db)
    requires Inv(db)
    ensures OpensCleanly(db)
  {
    HistoryQueriesPass(db);
    KindQueryPasses(db);
    ProjectionQueriesPass(db);
    CauseQueryPasses(db);
    EdgeQueryPasses(db);
    PointerQueriesPass(db);
    NewsQueriesPass(db);
    BoardQueriesPass(db);
  }
}
