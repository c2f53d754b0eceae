// What is true of every store the Host can reach from a fresh database, whoever acts, in
// whatever order, and wherever they stop.
module Reachable {
  import opened Base
  import opened Json
  import opened Tables
  import opened Transactions
  import opened JournalInvariants
  import opened Storage
  import opened Evolution
  import opened Snapshots
  import V = Validators

  // Every digest a row of the journal holds.
  ghost predicate Journalled(db: Db, d: Digest) {
    || d in db.objects
    || (exists i :: 0 <= i < |db.events| && db.events[i].payloadDigest == d)
    || Referenced(db.edges, d)
    || (exists key :: key in db.extensions && db.extensions[key].stateDigest == d)
    || (exists i :: 0 <= i < |db.board| && db.board[i].messageDigest == d)
    || (exists i :: 0 <= i < |db.publications| && db.publications[i].digest == d)
    || (exists e :: e in db.editions && db.editions[e].digest == d)
  }

  lemma JournalledIsAdmitted(db: Db, d: Digest)
    requires Inv(db) && Journalled(db, d)
    ensures d in db.objects
  {
    hide StreamInv, UniqueEvents, CausesPointBack, LeaseInv, Log;
    if e :| e in db.editions && db.editions[e].digest == d {
      EditionAdmitted(db, e);
    }
  }

  lemma EditionAdmitted(db: Db, e: string)
    requires NewsInv(db.publications, db.editions, db.objects) && e in db.editions
    ensures db.editions[e].digest in db.objects
  {
    var rows := Publications(db.publications, e);
    PublicationsMembers(db.publications, e);
    assert EditionOk(rows, db.editions[e]);
    assert rows[|rows| - 1] in db.publications;
    var i :| 0 <= i < |db.publications| && db.publications[i] == rows[|rows| - 1];
    assert PublicationOk(db.publications[i], db.editions, db.objects);
  }

  // Theorem: every journalled digest names stored bytes of the recorded kind and length,
  // and is validated at startup exactly when some event names it.
  lemma JournalledIsStored(acts: seq<Action>, d: Digest)
    requires Journalled(Run(FRESH, acts).db, d)
    ensures var store := Run(FRESH, acts);
            && d in store.cas
            && d in store.db.objects
            && DescribesBytes(d, store.db.objects[d])
            && (store.db.objects[d].timing == Startup <==> Referenced(store.db.edges, d))
  {
    hide Inv, HistoryInv, DescribesBytes, Journalled, Run;
    var store := Run(FRESH, acts);
    FreshStoreInv();
    RunKeeps(FRESH, acts);
    JournalledIsAdmitted(store.db, d);
  }

  // Bytes without a row are what some writer put before it stopped or was refused.
  lemma {:induction false} OnlyPutsStore(acts: seq<Action>, d: Digest)
    requires d in Run(FRESH, acts).cas
    ensures exists i :: 0 <= i < |acts| && acts[i].Put? && Address(acts[i].kind, acts[i].payload) == d
  {
    hide Disciplined, AppendTaskEvent, AcquireLease, ReleaseLease, AppendBoardMessage, AppendNewsPublication;
    if |acts| > 0 {
      var init := acts[..|acts| - 1];
      if d in Run(FRESH, init).cas {
        OnlyPutsStore(init, d);
        var i :| 0 <= i < |init| && init[i].Put? && Address(init[i].kind, init[i].payload) == d;
        assert acts[i] == init[i];
      } else {
        assert acts[|acts| - 1].Put?;
      }
    }
  }

  // Theorem: the kind and the length recorded for a digest never change, its row is never
  // dropped, and it never leaves the startup set.
  lemma MetadataNeverChanges(acts: seq<Action>, i: nat, j: nat, d: Digest)
    requires i <= j <= |acts| && d in Run(FRESH, acts[..i]).db.objects
    ensures var before, after := Run(FRESH, acts[..i]).db.objects, Run(FRESH, acts[..j]).db.objects;
            && d in after
            && after[d].kind == before[d].kind
            && after[d].byteLength == before[d].byteLength
            && after[d].firstSeenAtMs == before[d].firstSeenAtMs
            && (before[d].timing == Startup ==> after[d].timing == Startup)
  {
    hide StoreInv, TasksAdvance, EdgesKept, Run;
    FreshStoreInv();
    RunExtends(FRESH, acts, i, j);
  }

  // Theorem: reopening a reachable store reports no corruption. Every startup query of the
  // journal passes, and every task's materialised projection is the one its head event
  // rebuilds.
  lemma ReopeningPasses(acts: seq<Action>)
    ensures V.OpensCleanly(Run(FRESH, acts).db)
    ensures var store := Run(FRESH, acts);
            forall t :: t in store.db.projections ==> Rebuilds(store, t)
  {
    hide Inv, StoreInv, V.OpensCleanly, Run, Rebuilds;
    var store := Run(FRESH, acts);
    FreshStoreInv();
    RunKeeps(FRESH, acts);
    InvOfStore(store);
    V.InvariantOpensCleanly(store.db);
    forall t | t in store.db.projections
      ensures Rebuilds(store, t)
    {
      HeadRebuilds(store, t);
    }
  }

  // The head event reads back and carries the materialised projection.
  ghost predicate Rebuilds(store: Store, t: string) {
    && t in store.db.streams && t in store.db.projections
    && EventAt(store.db, t, store.db.streams[t].revision).Some?
    && var read := ReadPointer(store.cas, EventAt(store.db, t, store.db.streams[t].revision).value);
    && read.Ok?
    && read.value.projection == store.db.projections[t]
  }

  lemma InvOfStore(store: Store)
    requires StoreInv(store)
    ensures Inv(store.db)
  {
    hide Inv;
  }

  lemma HeadRebuilds(store: Store, t: string)
    requires StoreInv(store) && t in store.db.projections
    ensures Rebuilds(store, t)
  {
    hide StoreInv, Snapshot, ReadPointer;
    HeadSnapshot(store, t);
    EventsUpToHead(store, t, Revision(store, t));
    EventsReadBack(store, t, Revision(store, t));
  }

  // A chain of events each of which was caused by the next.
  ghost predicate CausalChain(events: seq<EventRow>, chain: seq<nat>) {
    && (forall k :: 0 <= k < |chain| ==> chain[k] < |events|)
    && (forall k :: 0 < k < |chain| ==> events[chain[k - 1]].causedBy == Some(events[chain[k]].eventId))
  }

  // Theorem: no event is its own cause, at any distance.
  lemma {:induction false} CausesFormNoCycle(db: Db, chain: seq<nat>)
    requires Inv(db) && CausalChain(db.events, chain) && |chain| >= 2
    ensures chain[|chain| - 1] < chain[0]
    decreases |chain|
  {
    hide StreamInv, EdgeInv, ExtensionInv, LeaseInv, BoardInv, NewsInv;
    assert db.events[chain[0]].causedBy == Some(db.events[chain[1]].eventId);
    assert CausedEarlier(db.events, chain[0]);
    var j :| 0 <= j < chain[0] && db.events[j].eventId == db.events[chain[0]].causedBy.value;
    assert j == chain[1];
    if |chain| > 2 {
      var rest := chain[1..];
      assert forall k :: 0 <= k < |rest| ==> rest[k] == chain[k + 1];
      CausesFormNoCycle(db, rest);
    }
  }

  ghost predicate ReplyChain(board: seq<BoardRow>, chain: seq<nat>) {
    && (forall k :: 0 <= k < |chain| ==> chain[k] < |board|)
    && (forall k :: 0 < k < |chain| ==> board[chain[k - 1]].replyTo == Some(board[chain[k]].clientMessageId))
  }

  lemma {:induction false} RepliesFormNoCycle(db: Db, chain: seq<nat>)
    requires Inv(db) && ReplyChain(db.board, chain) && |chain| >= 2
    ensures chain[|chain| - 1] < chain[0]
    decreases |chain|
  {
    hide StreamInv, EdgeInv, ExtensionInv, LeaseInv, NewsInv, UniqueEvents, CausesPointBack;
    assert db.board[chain[0]].replyTo == Some(db.board[chain[1]].clientMessageId);
    assert RepliesEarlier(db.board, chain[0]);
    var j :| 0 <= j < chain[0] && db.board[j].clientMessageId == db.board[chain[0]].replyTo.value;
    assert j == chain[1];
    if |chain| > 2 {
      var rest := chain[1..];
      assert forall k :: 0 <= k < |rest| ==> rest[k] == chain[k + 1];
      RepliesFormNoCycle(db, rest);
    }
  }
}
