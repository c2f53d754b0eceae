// Following `task.list` cursors to the end.
module TaskWalk {
  import opened Base
  import opened Domain
  import opened Tables
  import opened JournalInvariants
  import opened Storage
  import opened Evolution
  import opened Workers
  import opened Snapshots
  import opened HostStorage
  import opened Descriptors
  import opened ContinuityRecords
  import Continuity
  import opened Keyset
  import opened TaskList
  import C = TaskCursor
  import Base64
  import Text

  // The keys of the tasks that belong to the list, past a cursor.
  ghost function MatchingKeys(store: Store, q: Query, after: Option<Key>): set<Key> {
    set t | t in store.db.streams && MatchesNow(store, q, t) && Past(after, KeyOf(store.db, t)) :: KeyOf(store.db, t)
  }

  lemma MatchingExact(store: Store, q: Query, after: Option<Key>, k: Key)
    ensures k in MatchingKeys(store, q, after) <==>
              k.taskId in store.db.streams && MatchesNow(store, q, k.taskId)
              && k == KeyOf(store.db, k.taskId) && Past(after, k)
  {
    hide MatchesNow;
  }

  lemma BornDescribedStable(before: Store, after: Store, t: string)
    requires Evolves(before, after) && BornDescribed(before.db, t)
    ensures BornDescribed(after.db, t)
  {
    EventAtStable(before.db, after.db, t, 1);
    var e := EventAt(before.db, t, 1).value;
    var d :| d in before.db.edges[e.eventId] && before.db.edges[e.eventId][d] == Reference
             && d in before.db.objects && before.db.objects[d].kind == DESCRIPTOR_OBJECT_KIND;
    assert d in after.db.edges[e.eventId] && after.db.edges[e.eventId][d] == Reference;
  }

  lemma SameHead(before: Store, after: Store, t: string)
    requires StoreInv(after) && Evolves(before, after)
    requires t in before.db.projections && Revision(before, t) == Revision(after, t)
    ensures t in after.db.projections && after.db.projections[t] == before.db.projections[t] && t in after.db.streams
  {
    assert TaskAdvances(TasksOf(before), TasksOf(after), t);
    StoreTasks(after);
  }

  // A task that has not advanced still belongs to the list.
  lemma MatchesNowStable(before: Store, after: Store, q: Query, t: string)
    requires StoreInv(before) && StoreInv(after) && Evolves(before, after) && MatchesNow(before, q, t)
    requires Revision(before, t) == Revision(after, t)
    ensures MatchesNow(after, q, t)
  {
    hide StoreInv, Evolves, DescriptorIn, CheckpointAt, SnapshotAt, BornDescribed, InWorkspace;
    var r := Revision(before, t);
    SameHead(before, after, t);
    BornDescribedStable(before, after, t);
    SnapshotStable(before, after, t, r);
    CheckpointStable(before, after, t, r);
    EvolvesParts(before, after);
    DescriptorStable(before.cas, after.cas, SnapshotAt(before.db, t, r).value);
  }

  // While nothing moves, matching throughout is matching.
  lemma ThroughoutIsNow(store: Store, q: Query, t: string)
    requires StoreInv(store) && MatchesNow(store, q, t)
    ensures MatchesThroughout(store, store, q, t)
  {
    hide StoreInv, Evolves, MatchesNow;
    forall met | Between(store, met, store)
      ensures MatchesNow(met, q, t)
    {
      RevisionMonotone(store, met, t);
      RevisionMonotone(met, store, t);
      MatchesNowStable(store, met, q, t);
    }
  }

  lemma KeysMember(items: seq<Item>, k: Key)
    ensures k in Keys(items) <==> exists i :: 0 <= i < |items| && items[i].key == k
  {
    if k in Keys(items) {
      var i :| 0 <= i < |Keys(items)| && Keys(items)[i] == k;
      assert items[i].key == k;
    }
    if exists i :: 0 <= i < |items| && items[i].key == k {
      var i :| 0 <= i < |items| && items[i].key == k;
      assert Keys(items)[i] == k;
    }
  }

  // A page of an unmoving store, key by key.
  lemma QuietKeys(store: Store, q: Query, limit: int, after: Option<Key>, items: seq<Item>, more: bool, k: Key)
    requires StoreInv(store) && PageTells(store, store, q, limit, after, items, more) && AllMatch(store, q, items) && limit >= 1
    ensures k in Keys(items) <==>
              k in MatchingKeys(store, q, after) && (more ==> !Precedes(items[|items| - 1].key, k))
  {
    hide StoreInv, MatchesThroughout, MatchesNow, ItemTells, Precedes;
    MatchingExact(store, q, after, k);
    KeysMember(items, k);
    if k in Keys(items) {
      var i :| 0 <= i < |items| && items[i].key == k;
      assert AllMatch(store, q, items);
    } else if k in MatchingKeys(store, q, after) {
      ThroughoutIsNow(store, q, k.taskId);
    }
  }

  // An ascending run that skips nothing before its end is a prefix of the order.
  lemma PrefixOfOrder(keys: set<Key>, s: seq<Key>)
    requires TotalOrder(Precedes) && Ascending(s, Precedes) && |s| > 0
    requires forall k :: k in s ==> k in keys
    requires forall k :: k in keys && !Precedes(s[|s| - 1], k) ==> k in s
    ensures s <= Ordered(keys, Precedes)
  {
    hide Precedes, Ordered, TotalOrder;
    var last := s[|s| - 1];
    var rest := Keyset.After(keys, Precedes, last);
    OrderedExact(rest, Precedes);
    var tail := Ordered(rest, Precedes);
    forall k
      ensures k in s + tail <==> k in keys
    {
      if k in keys && !Precedes(last, k) {
        assert k in s;
      }
    }
    forall k | k in tail
      ensures Precedes(last, k)
    {
    }
    JoinAscending(s, tail);
    OrderedUnique(keys, Precedes, s + tail);
  }

  lemma JoinAscending(s: seq<Key>, tail: seq<Key>)
    requires TotalOrder(Precedes) && Ascending(s, Precedes) && Ascending(tail, Precedes) && |s| > 0
    requires forall k :: k in tail ==> Precedes(s[|s| - 1], k)
    ensures Ascending(s + tail, Precedes)
  {
    hide Precedes, TotalOrder;
    var all := s + tail;
    forall i, j | 0 <= i < j < |all|
      ensures Precedes(all[i], all[j])
    {
      if j < |s| {
        assert all[i] == s[i] && all[j] == s[j];
      } else if |s| <= i {
        assert all[i] == tail[i - |s|] && all[j] == tail[j - |s|];
      } else {
        assert all[j] == tail[j - |s|] && all[j] in tail && all[i] == s[i];
        if i < |s| - 1 {
          Transitive(Precedes, s[i], s[|s| - 1], all[j]);
        }
      }
    }
  }

  // Which set an ascending list of keys must be the first of.
  lemma FirstOfFilter(keys: set<Key>, s: seq<Key>, limit: nat, more: bool, extra: Key)
    requires TotalOrder(Precedes) && Ascending(s, Precedes) && limit >= 1 && |s| <= limit
    requires more ==> |s| == limit && extra in keys && Precedes(s[limit - 1], extra)
    requires forall k :: k in s <==> k in keys && (more ==> !Precedes(s[|s| - 1], k))
    ensures s == First(keys, Precedes, limit)
    ensures more <==> |keys| > limit
  {
    hide Precedes, Ordered;
    OrderedExact(keys, Precedes);
    if more {
      PrefixOfOrder(keys, s);
      assert extra in Ordered(keys, Precedes) && extra !in s;
      assert Ordered(keys, Precedes) != s;
    } else {
      OrderedUnique(keys, Precedes, s);
    }
  }

  lemma QuietShape(store: Store, q: Query, limit: int, after: Option<Key>, items: seq<Item>, more: bool, further: seq<Item>)
    requires StoreInv(store) && limit >= 1 && PageTells(store, store, q, limit, after, items, more)
    requires more <==> |further| == 1
    requires more ==> Past(after, further[0].key)
    requires AllMatch(store, q, items + further)
    ensures AllMatch(store, q, items) && Ascending(Keys(items), Precedes)
    ensures more ==> further[0].key in MatchingKeys(store, q, after)
  {
    hide StoreInv, MatchesNow, Precedes, ItemTells, MatchesThroughout;
    forall i | 0 <= i < |items|
      ensures MatchesNow(store, q, items[i].key.taskId) && items[i].key.taskId in store.db.streams
      ensures items[i].key == KeyOf(store.db, items[i].key.taskId)
    {
      assert (items + further)[i] == items[i];
    }
    if more {
      assert (items + further)[|items|] == further[0];
      MatchingExact(store, q, after, further[0].key);
    }
  }

  // Theorem: an undisturbed page is the first `limit` keys of the simple filter, and says
  // there is more exactly when there is.
  lemma QuietPageIsFilter(
    store: Store, q: Query, limit: int, after: Option<Key>, items: seq<Item>, more: bool, further: seq<Item>)
    requires StoreInv(store) && limit >= 1 && PageTells(store, store, q, limit, after, items, more)
    requires more <==> |further| == 1
    requires more ==> Past(after, further[0].key) && Precedes(items[limit - 1].key, further[0].key)
    requires AllMatch(store, q, items + further)
    ensures TotalOrder(Precedes)
    ensures Keys(items) == First(MatchingKeys(store, q, after), Precedes, limit)
    ensures more <==> |MatchingKeys(store, q, after)| > limit
  {
    PrecedesIsOrder();
    hide StoreInv, Precedes, Scanned, AllMatch, MatchingKeys, Past, First, Ascending;
    QuietShape(store, q, limit, after, items, more, further);
    forall k
      ensures k in Keys(items) <==> k in MatchingKeys(store, q, after) && (more ==> !Precedes(items[|items| - 1].key, k))
    {
      QuietKeys(store, q, limit, after, items, more, k);
    }
    FirstOfFilter(MatchingKeys(store, q, after), Keys(items), limit, more,
                  if more then further[0].key else Key(0, ""));
  }

  // What following cursors knows: everything told is in order, and nothing that matched
  // throughout is missing up to the cursor.
  ghost predicate Walked(start: Store, end: Store, q: Query, reach: Reach, all: seq<Item>) {
    Scanned(start, end, q, None, reach, all)
  }

  // A page continues the walk.
  lemma PageJoins(
    start: Store, asked: Store, end: Store, q: Query, limit: int, reach: Reach, all: seq<Item>, items: seq<Item>, more: bool)
    requires StoreInv(start) && StoreInv(asked) && StoreInv(end) && Evolves(start, asked) && Evolves(asked, end)
    requires TotalOrder(Precedes) && !reach.Everything? && limit >= 1
    requires Walked(start, asked, q, reach, all)
    requires PageTells(asked, end, q, limit, Cursor(None, reach), items, more)
    ensures Walked(start, end, q, if more then UpTo(items[limit - 1].key) else Everything, all + items)
  {
    hide StoreInv, Evolves, Precedes, AllTell, MatchesThroughout;
    var reach' := if more then UpTo(items[limit - 1].key) else Everything;
    ScannedStable(start, asked, end, q, None, reach, all);
    AllTellJoin(end, q, all, items);
    assert Keys(all + items) == Keys(all) + Keys(items);
    assert more ==> Keys(items)[limit - 1] == items[limit - 1].key;
    JoinedOrder(reach, reach', all, items);
    forall t | t in start.db.streams && MatchesThroughout(start, end, q, t) && Within(reach', KeyOf(start.db, t))
      ensures KeyOf(start.db, t) in Keys(all + items)
    {
      var k := KeyOf(start.db, t);
      if Past(Cursor(None, reach), k) {
        EvolvesReflexive(end);
        BetweenNarrow(start, asked, end, end, q, t);
        KeyStable(start, asked, t);
        assert k in Keys(items);
      } else {
        PastCursor(None, reach, k);
        assert k in Keys(all);
      }
    }
  }

  lemma AllTellJoin(store: Store, q: Query, all: seq<Item>, items: seq<Item>)
    requires AllTell(store, q, all) && AllTell(store, q, items)
    ensures AllTell(store, q, all + items)
  {
    hide ItemTells;
  }

  lemma JoinedOrder(reach: Reach, reach': Reach, all: seq<Item>, items: seq<Item>)
    requires TotalOrder(Precedes) && !reach.Everything? && !reach'.Nothing?
    requires Ascending(Keys(all), Precedes) && forall k :: k in Keys(all) ==> Within(reach, k)
    requires Ascending(Keys(items), Precedes)
    requires forall k :: k in Keys(items) ==> Past(Cursor(None, reach), k) && Within(reach', k)
    requires reach'.UpTo? ==> reach'.key in Keys(items)
    ensures Ascending(Keys(all + items), Precedes)
    ensures forall k :: k in Keys(all + items) ==> Past(None, k) && Within(reach', k)
  {
    hide Precedes;
    var one, two := Keys(all), Keys(items);
    assert Keys(all + items) == one + two;
    forall i, j | 0 <= i < j < |one + two|
      ensures Precedes((one + two)[i], (one + two)[j])
    {
      if i < |one| <= j {
        assert one[i] in one && two[j - |one|] in two;
        AcrossCursor(None, reach, one[i], two[j - |one|]);
      }
    }
    forall k | k in one
      ensures Within(reach', k)
    {
      if reach'.UpTo? {
        AcrossCursor(None, reach, k, reach'.key);
        Asymmetric(Precedes, k, reach'.key);
      }
    }
  }

  // Every stored task is a position a cursor can carry.
  lemma KeyedPosition(store: Store, k: Key)
    requires StoreInv(store) && Keyed(store, k)
    ensures k.createdAtMs >= 0 && "task:" <= k.taskId && Text.Trimmed(k.taskId)
  {
    hide HistoryInv, TimingInv, ObjectsStored;
    var t := k.taskId;
    assert t in store.db.projections;
    assert ProjectionOk(t, store.db.streams[t], store.db.projections[t]) && StreamOk(Log(store.db.events, t), store.db.streams[t]);
  }

  // The arguments `task.list` accepts, apart from the cursor.
  predicate QueryValid(q: Query, limit: int) {
    && 1 <= limit <= 100
    && (q.goalId.Some? ==> HasIdentity(q.goalId.value, "goal:"))
    && (q.workspaceId.Some? ==> Text.IsLabel(q.workspaceId.value) && |q.workspaceId.value| <= 512)
  }

  // One call of `task.list`: the cursor text is parsed, a page is listed, and the cursor of
  // its last task is written when there is more.
  method ListPage(host: Continuity.ExternalContinuity, q: Query, limit: int, cursor: Option<string>)
    returns (r: Result<(seq<Item>, Option<string>), HostError>, ghost further: seq<Item>)
    requires host.Valid()
    modifies host.storage`cas, host.storage`others, host.storage.journal
    ensures host.storage.OnlyRead()
    ensures !QueryValid(q, limit) || C.Parse(cursor, q).Err? ==>
              r == Err(ToolArgumentError) && host.storage.State() == old(host.storage.State())
    ensures r.Ok? ==>
              && 1 <= limit <= 100
              && (q.goalId.Some? ==> "goal:" <= q.goalId.value && Text.Trimmed(q.goalId.value))
              && (q.workspaceId.Some? ==> q.workspaceId.value != "" && Text.Trimmed(q.workspaceId.value) && |q.workspaceId.value| <= 512)
    ensures r.Ok? ==>
              && QueryValid(q, limit) && C.Parse(cursor, q).Ok?
              && PageTells(old(host.storage.State()), host.storage.State(), q, limit, C.Parse(cursor, q).value, r.value.0, r.value.1.Some?)
              && (r.value.1.Some? ==>
                    && |r.value.0| == limit
                    && Keyed(host.storage.State(), r.value.0[limit - 1].key)
                    && r.value.0[limit - 1].key.createdAtMs >= 0
                    && r.value.1 == Some(C.CursorOf(r.value.0[limit - 1].key, q)))
    ensures r.Ok? && old(host.storage.others) != [] ==> |host.storage.others| < |old(host.storage.others)|
    ensures old(host.storage.others) == [] && r.Ok? ==> AllMatch(old(host.storage.State()), q, r.value.0 + further)
    ensures old(host.storage.others) == [] && (forall t :: Listed(old(host.storage.State()).db, t, q) ==> Wholesome(old(host.storage.State()), t))
            && QueryValid(q, limit) && C.Parse(cursor, q).Ok?
            ==> r.Ok?
  {
    hide StoreInv, Evolves, Precedes, PageTells, AllMatch, ItemTells, Keyed, C.Parse, C.CursorOf, Wholesome, Listed, QueryValid;
    EvolvesReflexive(host.storage.State());
    further := [];
    if !QueryValid(q, limit) {
      return Err(ToolArgumentError), further;
    }
    QueryInRange(q, limit);
    var after := C.Parse(cursor, q);
    if after.Err? {
      ParseError(cursor, q);
      return Err(ToolArgumentError), further;
    }
    ghost var asked := host.storage.State();
    var page, rest := ListTasks(host, q, limit, after.value);
    if page.Err? {
      return Err(page.error), further;
    }
    further := rest;
    PageShape(asked, host.storage.State(), q, limit, after.value, page.value.0, page.value.1);
    if !page.value.1 {
      return Ok((page.value.0, None)), further;
    }
    KeyedPosition(host.storage.State(), page.value.0[limit - 1].key);
    return Ok((page.value.0, Some(C.CursorOf(page.value.0[limit - 1].key, q)))), further;
  }

  lemma QueryInRange(q: Query, limit: int)
    requires QueryValid(q, limit)
    ensures 1 <= limit <= 100
    ensures q.goalId.Some? ==> "goal:" <= q.goalId.value && Text.Trimmed(q.goalId.value)
    ensures q.workspaceId.Some? ==> q.workspaceId.value != "" && Text.Trimmed(q.workspaceId.value) && |q.workspaceId.value| <= 512
  {
  }

  lemma ParseError(cursor: Option<string>, q: Query)
    requires C.Parse(cursor, q).Err?
    ensures C.Parse(cursor, q) == Err(ToolArgumentError)
  {
    hide Base64.Decode, C.ReadObject, C.AsciiText;
  }

  // A position whose cursor text the Host refuses.
  predicate TooLong(k: Key, q: Query) {
    k.createdAtMs >= 0 && |C.CursorOf(k, q)| > C.MAX_CURSOR
  }

  lemma CursorComesBack(store: Store, k: Key, q: Query)
    requires StoreInv(store) && Keyed(store, k)
    ensures k.createdAtMs >= 0
    ensures C.Parse(Some(C.CursorOf(k, q)), q) == if TooLong(k, q) then Err(ToolArgumentError) else Ok(Some(k))
  {
    hide StoreInv, C.CursorOf, C.Parse;
    KeyedPosition(store, k);
    C.CursorRoundTrip(k, q, q);
  }

  // Theorem: following the cursors ends. It yields tasks in order, each told once, among
  // them every task that matched throughout; undisturbed, exactly the tasks of the simple
  // filter. It breaks off at a task whose cursor text is too long; where every task reads
  // and nobody disturbs it, it fails exactly there.
  method FollowCursors(host: Continuity.ExternalContinuity, q: Query, limit: int)
    returns (r: Result<seq<Item>, HostError>, ghost stuck: Option<Key>)
    requires host.Valid()
    modifies host.storage`cas, host.storage`others, host.storage.journal
    ensures host.storage.OnlyRead()
    ensures !QueryValid(q, limit) ==> r == Err(ToolArgumentError) && stuck.None?
    ensures r.Ok? ==> Walked(old(host.storage.State()), host.storage.State(), q, Everything, r.value)
    ensures r.Ok? ==> NewestFirst(Keys(r.value)) && AllTell(host.storage.State(), q, r.value)
    ensures TotalOrder(Precedes)
    ensures stuck.Some? ==>
              r == Err(ToolArgumentError) && Keyed(host.storage.State(), stuck.value) && TooLong(stuck.value, q)
    ensures old(host.storage.others) == [] && QueryValid(q, limit)
            && (forall t :: Listed(old(host.storage.State()).db, t, q) ==> Wholesome(old(host.storage.State()), t))
            ==> (r.Err? <==> stuck.Some?)
    ensures old(host.storage.others) == [] && r.Ok? ==>
              Keys(r.value) == Ordered(MatchingKeys(old(host.storage.State()), q, None), Precedes)
  {
    hide StoreInv, Evolves, Precedes, Walked, PageTells, AllMatch, Rows, ItemTells, Ordered, MatchingKeys, Past, Wholesome, Listed;
    hide Keyed, TooLong, C.Parse, C.CursorOf, QueryValid, TotalOrder, NewestFirst, AllTell;
    ghost var start := host.storage.State();
    EvolvesReflexive(start);
    PrecedesIsOrder();
    StartWalk(start, q);
    stuck := None;
    var all: seq<Item> := [];
    var cursor: Option<string> := None;
    ghost var after: Option<Key> := None;
    ghost var reach := Nothing;
    NoCursor(q);
    var more := true;
    while more
      invariant host.storage.OnlyRead()
      invariant !reach.Everything? <==> more
      invariant after == Cursor(None, reach) && (after.None? <==> cursor.None?)
      invariant after.Some? ==> Keyed(host.storage.State(), after.value) && after.value.createdAtMs >= 0
      invariant after.Some? ==> cursor == Some(C.CursorOf(after.value, q))
      invariant !more ==> QueryValid(q, limit)
      invariant Walked(start, host.storage.State(), q, reach, all)
      invariant old(host.storage.others) == [] ==> AllMatch(start, q, all)
      decreases more, |host.storage.others|, |Rows(host.storage.State().db, q, after)|
    {
      ghost var asked, undisturbed := host.storage.State(), host.storage.others == [];
      if after.Some? {
        CursorComesBack(asked, after.value, q);
      }
      var page, further := ListPage(host, q, limit, cursor);
      EvolvesTransitive(start, asked, host.storage.State());
      if page.Err? {
        if QueryValid(q, limit) && after.Some? && TooLong(after.value, q) {
          stuck := after;
        }
        return Err(page.error), stuck;
      }
      QueryInRange(q, limit);
      PageShape(asked, host.storage.State(), q, limit, after, page.value.0, page.value.1.Some?);
      PageJoins(start, asked, host.storage.State(), q, limit, reach, all, page.value.0, page.value.1.Some?);
      if old(host.storage.others) == [] {
        AllMatchJoin(start, q, all, page.value.0, further);
      }
      if undisturbed {
        StartWalk(asked, q);
        AllMatchJoin(asked, q, [], page.value.0, further);
        if page.value.1.Some? {
          LastKeyIsRow(asked, q, after, page.value.0, limit);
          RowsShrink(asked.db, q, after, page.value.0[limit - 1].key);
        }
      }
      all := all + page.value.0;
      cursor := page.value.1;
      more := cursor.Some?;
      reach := if more then UpTo(page.value.0[limit - 1].key) else Everything;
      after := Cursor(None, reach);
    }
    if old(host.storage.others) == [] {
      WholeWalk(start, q, all);
    }
    WalkTells(start, host.storage.State(), q, all);
    return Ok(all), stuck;
  }

  lemma WalkTells(start: Store, end: Store, q: Query, all: seq<Item>)
    requires Walked(start, end, q, Everything, all)
    ensures NewestFirst(Keys(all)) && AllTell(end, q, all)
  {
    ScannedAscends(start, end, q, None, Everything, all);
    hide Scanned, AllTell;
    AscendingIsNewestFirst(Keys(all));
    ScannedTells(start, end, q, all);
  }

  lemma ScannedTells(start: Store, end: Store, q: Query, all: seq<Item>)
    requires Scanned(start, end, q, None, Everything, all)
    ensures AllTell(end, q, all)
  {
    hide Complete, AllTell;
  }

  lemma NoCursor(q: Query)
    ensures C.Parse(None, q) == Ok(None)
  {
  }

  lemma StartWalk(start: Store, q: Query)
    ensures Walked(start, start, q, Nothing, []) && AllMatch(start, q, [])
  {
  }

  lemma PageShape(start: Store, end: Store, q: Query, limit: int, after: Option<Key>, items: seq<Item>, more: bool)
    requires PageTells(start, end, q, limit, after, items, more)
    ensures more ==> |items| == limit
    ensures forall i :: 0 <= i < |items| ==> Past(after, items[i].key) && Keyed(end, items[i].key)
  {
    hide Precedes, Complete, Past, Keyed;
    forall i | 0 <= i < |items|
      ensures Past(after, items[i].key)
    {
      assert Keys(items)[i] in Keys(items);
    }
  }

  lemma AllMatchJoin(store: Store, q: Query, all: seq<Item>, items: seq<Item>, further: seq<Item>)
    requires AllMatch(store, q, all) && AllMatch(store, q, items + further)
    ensures AllMatch(store, q, all + items) && AllMatch(store, q, items)
  {
    hide MatchesNow;
    forall i | 0 <= i < |all + items|
      ensures MatchesNow(store, q, (all + items)[i].key.taskId) && (all + items)[i].key.taskId in store.db.streams
      ensures (all + items)[i].key == KeyOf(store.db, (all + items)[i].key.taskId)
    {
      if |all| <= i {
        assert (items + further)[i - |all|] == (all + items)[i];
      }
    }
    assert (items + further)[..|items|] == items;
  }

  lemma LastKeyIsRow(store: Store, q: Query, after: Option<Key>, items: seq<Item>, limit: int)
    requires AllMatch(store, q, items) && 1 <= limit == |items| && Past(after, items[limit - 1].key)
    ensures items[limit - 1].key in Rows(store.db, q, after)
  {
    hide Listed, Precedes, ExternalHead, CheckpointAt;
    RowsExact(store.db, q, after, items[limit - 1].key);
  }

  lemma WholeWalk(store: Store, q: Query, all: seq<Item>)
    requires StoreInv(store) && TotalOrder(Precedes) && Walked(store, store, q, Everything, all) && AllMatch(store, q, all)
    ensures Keys(all) == Ordered(MatchingKeys(store, q, None), Precedes)
  {
    hide StoreInv, Precedes, AllTell, MatchesThroughout, MatchesNow, Ordered;
    forall k
      ensures k in Keys(all) <==> k in MatchingKeys(store, q, None)
    {
      MatchingExact(store, q, None, k);
      KeysMember(all, k);
      if k !in Keys(all) && k in MatchingKeys(store, q, None) {
        ThroughoutIsNow(store, q, k.taskId);
      }
    }
    OrderedUnique(MatchingKeys(store, q, None), Precedes, Keys(all));
  }
}
