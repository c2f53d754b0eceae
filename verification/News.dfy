// Daily news editions: publishing a revision, and walking the editions by (date
// descending, identity ascending) while others publish.
module News {
  import opened Base
  import opened Json
  import opened Domain
  import opened Tables
  import opened Transactions
  import opened JournalInvariants
  import opened Storage
  import opened Evolution
  import opened HostStorage
  import opened Admissions
  import opened Continuity
  import opened Keyset
  import T = Transactions
  import Text

  datatype EditionKey = EditionKey(date: string, id: string)

  predicate Precedes(a: EditionKey, b: EditionKey) {
    Text.Before(b.date, a.date) || (a.date == b.date && Text.Before(a.id, b.id))
  }

  lemma PrecedesIsOrder()
    ensures TotalOrder(Precedes)
  {
    forall a: EditionKey
      ensures !Precedes(a, a)
    {
      Text.BeforeIrreflexive(a.date);
      Text.BeforeIrreflexive(a.id);
    }
    forall a: EditionKey, b: EditionKey | a != b
      ensures Precedes(a, b) || Precedes(b, a)
    {
      Text.BeforeTotal(a.date, b.date);
      Text.BeforeTotal(a.id, b.id);
    }
    forall a: EditionKey, b: EditionKey, c: EditionKey | Precedes(a, b) && Precedes(b, c)
      ensures Precedes(a, c)
    {
      Text.BeforeIrreflexive(a.date);
      if a.date == b.date == c.date {
        Text.BeforeTransitive(a.id, b.id, c.id);
      } else if a.date != b.date && b.date != c.date {
        Text.BeforeTransitive(c.date, b.date, a.date);
      }
    }
  }

  datatype Range = Range(fromDate: Option<string>, toDate: Option<string>)

  predicate InRange(date: string, range: Range) {
    && (range.fromDate.Some? ==> Text.AtMost(range.fromDate.value, date))
    && (range.toDate.Some? ==> Text.AtMost(date, range.toDate.value))
  }

  predicate Past(after: Option<EditionKey>, k: EditionKey) {
    after.Some? ==> Precedes(after.value, k)
  }

  function EditionKeys(db: Db, range: Range, after: Option<EditionKey>): set<EditionKey> {
    set id | id in db.editions && InRange(db.editions[id].date, range) && Past(after, EditionKey(db.editions[id].date, id))
      :: EditionKey(db.editions[id].date, id)
  }

  lemma KeysExact(db: Db, range: Range, after: Option<EditionKey>, k: EditionKey)
    ensures k in EditionKeys(db, range, after) <==>
              k.id in db.editions && db.editions[k.id].date == k.date && InRange(k.date, range) && Past(after, k)
  {
  }

  // The later date first, and within one date the smaller identity.
  ghost predicate NewestFirst(s: seq<EditionKey>) {
    forall i, j :: 0 <= i < j < |s| ==>
      if s[i].date == s[j].date then Text.Before(s[i].id, s[j].id) else Text.Before(s[j].date, s[i].date)
  }

  lemma AscendingIsNewestFirst(s: seq<EditionKey>)
    requires Ascending(s, Precedes)
    ensures NewestFirst(s)
  {
    forall i, j | 0 <= i < j < |s|
      ensures if s[i].date == s[j].date then Text.Before(s[i].id, s[j].id) else Text.Before(s[j].date, s[i].date)
    {
      assert Precedes(s[i], s[j]);
      Text.BeforeIrreflexive(s[i].date);
    }
  }

  // What a page is cut from: the editions with their own dates, within the range, after the cursor.
  lemma KeysExactly(db: Db, range: Range, after: Option<EditionKey>, k: EditionKey)
    ensures k in EditionKeys(db, range, after) <==>
              && k.id in db.editions && db.editions[k.id].date == k.date
              && (range.fromDate.None? || range.fromDate.value == k.date || Text.Before(range.fromDate.value, k.date))
              && (range.toDate.None? || range.toDate.value == k.date || Text.Before(k.date, range.toDate.value))
              && (after.None? || NewestFirst([after.value, k]))
  {
    KeysExact(db, range, after, k);
    if after.Some? {
      var s := [after.value, k];
      Text.BeforeIrreflexive(k.date);
      assert NewestFirst(s) ==> if s[0].date == s[1].date then Text.Before(s[0].id, s[1].id) else Text.Before(s[1].date, s[0].date);
    }
  }

  // An edition keeps its identity and date for ever.
  lemma EditionKept(before: Store, after: Store, id: string)
    requires StoreInv(before) && StoreInv(after) && Evolves(before, after) && id in before.db.editions
    ensures id in after.db.editions && after.db.editions[id].date == before.db.editions[id].date
  {
    hide StoreInv, Evolves;
    EvolvesPublications(before, after);
    EditionRows(before, id);
    EditionRows(after, id);
    var p := Publications(before.db.publications, id);
    PublicationsMembers(before.db.publications, id);
    PublicationsMembers(after.db.publications, id);
    assert p[0] in before.db.publications && p[0].editionId == id;
    var i :| 0 <= i < |before.db.publications| && before.db.publications[i] == p[0];
    assert after.db.publications[i] == p[0];
    assert p[0] in Publications(after.db.publications, id);
  }

  lemma EvolvesPublications(before: Store, after: Store)
    requires Evolves(before, after)
    ensures before.db.publications <= after.db.publications
  {
  }

  lemma EditionRows(store: Store, id: string)
    requires StoreInv(store)
    ensures id in store.db.editions ==>
              var rows := Publications(store.db.publications, id);
              |rows| >= 1 && forall k :: 0 <= k < |rows| ==> rows[k].date == store.db.editions[id].date
    ensures forall i :: 0 <= i < |store.db.publications| ==> store.db.publications[i].editionId in store.db.editions
  {
    if id in store.db.editions {
      assert EditionOk(Publications(store.db.publications, id), store.db.editions[id]);
    }
    forall i | 0 <= i < |store.db.publications|
      ensures store.db.publications[i].editionId in store.db.editions
    {
      assert PublicationOk(store.db.publications[i], store.db.editions, store.db.objects);
    }
  }

  // news_editions and the page cut from it: one row more than is shown.
  method ListEditions(storage: Host, limit: int, after: Option<EditionKey>, range: Range)
    returns (r: Result<(seq<EditionKey>, bool), HostError>)
    requires storage.Valid()
    modifies storage`cas, storage`others, storage.journal
    ensures storage.OnlyRead()
    ensures TotalOrder(Precedes)
    ensures r.Ok? <==> 1 <= limit <= 100
                       && (range.fromDate.Some? && range.toDate.Some? ==> Text.AtMost(range.fromDate.value, range.toDate.value))
    ensures r.Ok? ==>
              && r.value.0 == First(EditionKeys(storage.State().db, range, after), Precedes, limit)
              && (r.value.1 <==> |EditionKeys(storage.State().db, range, after)| > limit)
              && NewestFirst(r.value.0) && |r.value.0| <= limit
    ensures old(storage.others) != [] && r.Ok? ==> |storage.others| < |old(storage.others)|
  {
    hide StoreInv, Evolves, Precedes, EditionKeys;
    EvolvesReflexive(storage.State());
    PrecedesIsOrder();
    if limit < 1 || limit > 100 {
      return Err(ValueError);
    }
    if range.fromDate.Some? && range.toDate.Some? && !Text.AtMost(range.fromDate.value, range.toDate.value) {
      return Err(ValueError);
    }
    storage.Yield();
    var keys := EditionKeys(storage.journal.View(), range, after);
    OrderedExact(keys, Precedes);
    var rows := First(keys, Precedes, limit + 1);
    AscendingIsNewestFirst(rows);
    return Ok((if |rows| > limit then rows[..limit] else rows, |rows| > limit));
  }

  // Every edition of the range that stood when the walk began, up to its cursor, is told.
  ghost predicate Told(start: Db, range: Range, reach: Option<EditionKey>, done: bool, told: seq<EditionKey>) {
    forall k :: k in EditionKeys(start, range, None) && (done || (reach.Some? && !Precedes(reach.value, k))) ==> k in told
  }

  // Following nextCursor: each page continues after the last row of the one before.
  method FollowEditions(storage: Host, limit: int, range: Range) returns (told: seq<EditionKey>)
    requires storage.Valid() && 1 <= limit <= 100
    requires range.fromDate.Some? && range.toDate.Some? ==> Text.AtMost(range.fromDate.value, range.toDate.value)
    modifies storage`cas, storage`others, storage.journal
    ensures storage.OnlyRead()
    ensures TotalOrder(Precedes)
    // In order, each once; nothing that stood at the start is missed, and nothing told
    // lies outside the range.
    ensures Ascending(told, Precedes) && NewestFirst(told)
    ensures forall k :: k in EditionKeys(old(storage.State()).db, range, None) ==> k in told
    ensures forall k :: k in told ==> k in EditionKeys(storage.State().db, range, None)
    ensures old(storage.others) == [] ==> told == Ordered(EditionKeys(old(storage.State()).db, range, None), Precedes)
  {
    hide StoreInv, Evolves, Precedes, EditionKeys;
    ghost var start := storage.State();
    EvolvesReflexive(start);
    PrecedesIsOrder();
    told := [];
    var after: Option<EditionKey> := None;
    var more := true;
    while more
      invariant storage.OnlyRead()
      invariant Ascending(told, Precedes)
      invariant more && after.None? ==> told == []
      invariant more && after.Some? ==> forall k :: k in told ==> !Precedes(after.value, k)
      invariant Told(start.db, range, after, !more, told)
      invariant forall k :: k in told ==> k in EditionKeys(storage.State().db, range, None)
      decreases more, |storage.others|, |EditionKeys(storage.State().db, range, after)|
    {
      ghost var before := storage.State();
      var page := ListEditions(storage, limit, after, range);
      ghost var asked := storage.State();
      EvolvesTransitive(start, before, asked);
      KeysKept(before, asked, range, told);
      PageFollows(start, asked, range, after, told, page.value.0, limit, page.value.1);
      if page.value.1 {
        KeysShrink(asked.db, range, after, page.value.0[limit - 1]);
      }
      told := told + page.value.0;
      more := page.value.1;
      if more {
        after := Some(page.value.0[limit - 1]);
      }
    }
    AscendingIsNewestFirst(told);
    if start == storage.State() {
      OrderedUnique(EditionKeys(start.db, range, None), Precedes, told);
    }
  }

  lemma KeysKept(before: Store, after: Store, range: Range, told: seq<EditionKey>)
    requires StoreInv(before) && StoreInv(after) && Evolves(before, after)
    requires forall k :: k in told ==> k in EditionKeys(before.db, range, None)
    ensures forall k :: k in told ==> k in EditionKeys(after.db, range, None)
  {
    hide StoreInv, Evolves, Precedes;
    forall k | k in told
      ensures k in EditionKeys(after.db, range, None)
    {
      KeysExact(before.db, range, None, k);
      EditionKept(before, after, k.id);
      KeysExact(after.db, range, None, k);
    }
  }

  lemma KeysShrink(db: Db, range: Range, after: Option<EditionKey>, k: EditionKey)
    requires TotalOrder(Precedes) && k in EditionKeys(db, range, after)
    ensures |EditionKeys(db, range, Some(k))| < |EditionKeys(db, range, after)|
  {
    hide Precedes;
    forall j | j in EditionKeys(db, range, Some(k))
      ensures j in EditionKeys(db, range, after) - {k}
    {
      KeysExact(db, range, Some(k), j);
      KeysExact(db, range, after, k);
      if after.Some? {
        Transitive(Precedes, after.value, k, j);
      }
      KeysExact(db, range, after, j);
    }
    SubsetSize(EditionKeys(db, range, Some(k)), EditionKeys(db, range, after) - {k});
  }

  // The rows of a page are in order, past the cursor, and skip nothing before their end.
  lemma PageShape(keys: set<EditionKey>, limit: int, rows: seq<EditionKey>, more: bool)
    requires TotalOrder(Precedes) && limit >= 1
    requires rows == First(keys, Precedes, limit) && (more <==> |keys| > limit)
    ensures Ascending(rows, Precedes) && (more ==> |rows| == limit)
    ensures forall k :: k in rows ==> k in keys
    ensures forall k :: k in keys && (more ==> !Precedes(rows[limit - 1], k)) ==> k in rows
  {
    hide Precedes, Ordered;
    OrderedExact(keys, Precedes);
    var all := Ordered(keys, Precedes);
    forall k | k in rows
      ensures k in keys
    {
      assert k in all;
    }
    forall k | k in keys && (more ==> !Precedes(rows[limit - 1], k))
      ensures k in rows
    {
      assert k in all;
      var j :| 0 <= j < |all| && all[j] == k;
      assert more ==> rows[limit - 1] == all[limit - 1];
      assert j < |rows|;
      assert rows[j] == k;
    }
  }

  lemma PageFollows(
    start: Store, asked: Store, range: Range, after: Option<EditionKey>, told: seq<EditionKey>,
    rows: seq<EditionKey>, limit: int, more: bool)
    requires StoreInv(start) && StoreInv(asked) && Evolves(start, asked) && TotalOrder(Precedes) && limit >= 1
    requires rows == First(EditionKeys(asked.db, range, after), Precedes, limit)
    requires more <==> |EditionKeys(asked.db, range, after)| > limit
    requires Ascending(told, Precedes) && Told(start.db, range, after, false, told)
    requires after.None? ==> told == []
    requires after.Some? ==> forall k :: k in told ==> !Precedes(after.value, k)
    ensures more ==> |rows| == limit && rows[limit - 1] in EditionKeys(asked.db, range, after)
    ensures Ascending(told + rows, Precedes)
    ensures more ==> forall k :: k in told + rows ==> !Precedes(rows[limit - 1], k)
    ensures Told(start.db, range, if more then Some(rows[limit - 1]) else after, !more, told + rows)
    ensures forall k :: k in rows ==> k in EditionKeys(asked.db, range, None)
  {
    hide StoreInv, Evolves, Precedes, EditionKeys;
    var keys := EditionKeys(asked.db, range, after);
    PageShape(keys, limit, rows, more);
    forall k | k in rows
      ensures k in EditionKeys(asked.db, range, None) && Past(after, k)
    {
      KeysExact(asked.db, range, after, k);
      KeysExact(asked.db, range, None, k);
    }
    forall i, j | 0 <= i < j < |told + rows|
      ensures Precedes((told + rows)[i], (told + rows)[j])
    {
      if i < |told| <= j {
        assert told[i] in told && rows[j - |told|] in rows;
        Transitive(Precedes, told[i], after.value, rows[j - |told|]);
      }
    }
    if more {
      assert rows[limit - 1] in rows;
      forall k | k in told + rows
        ensures !Precedes(rows[limit - 1], k)
      {
        if k in rows {
          var i :| 0 <= i < |rows| && rows[i] == k;
          Asymmetric(Precedes, rows[i], rows[limit - 1]);
        } else {
          Transitive(Precedes, after.value, rows[limit - 1], k);
        }
      }
    }
    forall k | k in EditionKeys(start.db, range, None) && (!more || !Precedes(rows[limit - 1], k))
      ensures k in told + rows
    {
      KeysExact(start.db, range, None, k);
      EditionKept(start, asked, k.id);
      if Past(after, k) {
        KeysExact(asked.db, range, after, k);
      }
    }
  }

  // ---- Publishing ----

  // The publication stands, as the request describes it.
  ghost predicate Published(store: Store, n: NewsRequest) {
    var i := FindPublication(store.db.publications, n.clientPublishId);
    && i.Some?
    && var row := store.db.publications[i.value];
    && row.editionId == n.editionId && row.date == n.date && row.timezone == n.timezone
    && row.expectedRevision == n.expectedRevision && row.digest == n.stored.digest
    && store.db.publications[i.value].revision == n.expectedRevision + 1
  }

  lemma UniqueIds(store: Store)
    requires StoreInv(store)
    ensures UniquePublications(store.db.publications)
    ensures forall i :: 0 <= i < |store.db.publications| ==>
              store.db.publications[i].revision == store.db.publications[i].expectedRevision + 1
  {
    forall i | 0 <= i < |store.db.publications|
      ensures store.db.publications[i].revision == store.db.publications[i].expectedRevision + 1
    {
      var p := store.db.publications[i];
      PublicationsMembers(store.db.publications, p.editionId);
      assert PublicationOk(p, store.db.editions, store.db.objects);
      assert EditionOk(Publications(store.db.publications, p.editionId), store.db.editions[p.editionId]);
      assert p in Publications(store.db.publications, p.editionId);
    }
  }

  lemma PublishedStable(before: Store, after: Store, n: NewsRequest)
    requires StoreInv(after) && Evolves(before, after) && Published(before, n)
    ensures Published(after, n)
  {
    hide StoreInv;
    UniqueIds(after);
    var i := FindPublication(before.db.publications, n.clientPublishId).value;
    assert after.db.publications[i] == before.db.publications[i];
    var j := FindPublication(after.db.publications, n.clientPublishId).value;
    assert i == j;
  }

  lemma AcceptedPublication(met: Store, n: NewsRequest)
    requires StoreInv(met) && T.AppendNewsPublication(met.db, n).result.Ok?
    ensures Published(Perform(met, Publish(n)), n)
    ensures T.AppendNewsPublication(met.db, n).result == Ok(Existing) ==> Perform(met, Publish(n)) == met
  {
    hide StoreInv;
    PublishEffect(met.db, n);
    UniqueIds(met);
    if T.AppendNewsPublication(met.db, n).result == Ok(Created) {
      assert (met.db.publications + [PublishedRow(n)])[|met.db.publications|] == PublishedRow(n);
    }
  }

  // publish, after the edition is normalized: the object, the row, the read that answers.
  // An exact repetition is answered as existing; an undisturbed one changes nothing but the
  // object store, which already holds the object.
  method PublishEdition(storage: Host, n: NewsRequest, payload: Value) returns (r: Result<EventAdmission, HostError>)
    requires storage.Valid() && n.stored == Described(NEWS_OBJECT_KIND, payload)
    modifies storage`cas, storage`others, storage`mine, storage.journal
    ensures storage.Advanced() && old(storage.mine) <= storage.mine
    ensures r.Ok? ==> Published(storage.State(), n)
    ensures old(storage.others) == [] && NewsRequestValid(n) && Published(old(storage.State()), n)
            ==> r == Ok(Existing) && storage.State().db == old(storage.State()).db
    ensures old(storage.others) == [] && NewsRequestValid(n)
            && FindPublication(old(storage.State()).db.publications, n.clientPublishId).Some?
            && !Published(old(storage.State()), n)
            ==> r == Err(EventConflict) && storage.State().db == old(storage.State()).db
    // Undisturbed, a new client identity is admitted exactly at the edition's current
    // revision, date and time zone, and no earlier than the edition began.
    ensures old(storage.others) == [] && NewsRequestValid(n)
            && FindPublication(old(storage.State()).db.publications, n.clientPublishId).None?
            ==> && (r == Ok(Created) <==> Current(old(storage.State()).db, n))
                && (RevisionOf(old(storage.State()).db, n.editionId) != n.expectedRevision ==>
                      r == Err(RevisionConflict) && storage.State().db == old(storage.State()).db)
  {
    hide StoreInv, Evolves, Published, T.AppendNewsPublication, Disciplined, Available, Current, RevisionOf;
    ghost var start := storage.State();
    EvolvesReflexive(start);
    assert Text.IsLabel(NEWS_OBJECT_KIND);
    if !NewsRequestValid(n) {
      return Err(ValueError);
    }
    var stored := storage.PutObject(NEWS_OBJECT_KIND, payload);
    ghost var written := storage.State();
    PutKeepsDb(start, NEWS_OBJECT_KIND, payload);
    r := storage.AppendNewsPublication(n);
    ghost var met, appended := storage.mine[|storage.mine| - 1].store, storage.State();
    EvolvesTransitive(start, written, appended);
    ReplayOutcome(met, n);
    if FindPublication(met.db.publications, n.clientPublishId).None? {
      FreshOutcome(met, n, payload);
    }
    if met.db == start.db {
      SamePublished(start, met, n);
    }
    if r.Err? {
      return;
    }
    AcceptedPublication(met, n);
    storage.Yield();
    EvolvesTransitive(start, appended, storage.State());
    PublishedStable(appended, storage.State(), n);
  }

  function RevisionOf(db: Db, editionId: string): int {
    if editionId in db.editions then db.editions[editionId].revision else 0
  }

  // The publication is the edition's next, for the day and place the edition is of.
  predicate Current(db: Db, n: NewsRequest) {
    && RevisionOf(db, n.editionId) == n.expectedRevision
    && (n.editionId in db.editions ==>
          && db.editions[n.editionId].date == n.date && db.editions[n.editionId].timezone == n.timezone
          && db.editions[n.editionId].createdAtMs <= n.recordedAtMs)
  }

  lemma FreshOutcome(met: Store, n: NewsRequest, payload: Value)
    requires StoreInv(met) && NewsRequestValid(n) && n.stored == Described(NEWS_OBJECT_KIND, payload)
    requires FindPublication(met.db.publications, n.clientPublishId).None?
    ensures T.AppendNewsPublication(met.db, n).result == Ok(Created) <==> Current(met.db, n)
    ensures T.AppendNewsPublication(met.db, n).result != Ok(Existing)
    ensures RevisionOf(met.db, n.editionId) != n.expectedRevision ==>
              T.AppendNewsPublication(met.db, n) == T.Outcome(met.db, Err(RevisionConflict))
  {
    hide StoreInv, Open;
    assert Text.IsLabel(NEWS_OBJECT_KIND);
    OpenAddress(NEWS_OBJECT_KIND, payload);
    StoredObjects(met);
    AdmissionSucceeds(met.db.objects, n.stored, n.recordedAtMs, OnAccess, met.cas);
  }

  lemma SamePublished(one: Store, two: Store, n: NewsRequest)
    requires one.db == two.db
    ensures Published(one, n) <==> Published(two, n)
  {
  }

  // A known client identity decides the outcome by itself.
  lemma ReplayOutcome(met: Store, n: NewsRequest)
    requires StoreInv(met) && NewsRequestValid(n)
    ensures FindPublication(met.db.publications, n.clientPublishId).Some? ==>
              && Perform(met, Publish(n)) == met
              && T.AppendNewsPublication(met.db, n).result == (if Published(met, n) then Ok(Existing) else Err(EventConflict))
    ensures Published(met, n) ==> FindPublication(met.db.publications, n.clientPublishId).Some?
  {
    hide StoreInv;
    UniqueIds(met);
  }
}
