// The `task.list` scan: external-continuity tasks in (created descending, identity
// ascending) order, read in batches while tasks advance and appear.
module TaskList {
  import opened Base
  import opened Json
  import opened Domain
  import opened Tables
  import opened Transactions
  import opened JournalInvariants
  import opened Storage
  import opened Evolution
  import opened Workers
  import opened Snapshots
  import opened HostStorage
  import opened Descriptors
  import opened ContinuityRecords
  import opened Continuity
  import opened Keyset
  import Text

  const SCAN_BATCH := 256

  datatype Query = Query(goalId: Option<string>, workspaceId: Option<string>, includeTerminal: bool)

  datatype Key = Key(createdAtMs: int, taskId: string)

  predicate Precedes(a: Key, b: Key) {
    a.createdAtMs > b.createdAtMs || (a.createdAtMs == b.createdAtMs && Text.Before(a.taskId, b.taskId))
  }

  lemma PrecedesIsOrder()
    ensures TotalOrder(Precedes)
  {
    forall a: Key
      ensures !Precedes(a, a)
    {
      Text.BeforeIrreflexive(a.taskId);
    }
    forall a: Key, b: Key | a != b
      ensures Precedes(a, b) || Precedes(b, a)
    {
      Text.BeforeTotal(a.taskId, b.taskId);
    }
    forall a: Key, b: Key, c: Key | Precedes(a, b) && Precedes(b, c)
      ensures Precedes(a, c)
    {
      if a.createdAtMs == b.createdAtMs == c.createdAtMs {
        Text.BeforeTransitive(a.taskId, b.taskId, c.taskId);
      }
    }
  }

  // The task created later first, and within one millisecond the smaller identity.
  ghost predicate NewestFirst(s: seq<Key>) {
    forall i, j :: 0 <= i < j < |s| ==>
      if s[i].createdAtMs == s[j].createdAtMs then Text.Before(s[i].taskId, s[j].taskId)
      else s[i].createdAtMs > s[j].createdAtMs
  }

  lemma AscendingIsNewestFirst(s: seq<Key>)
    requires Ascending(s, Precedes)
    ensures NewestFirst(s)
  {
    forall i, j | 0 <= i < j < |s|
      ensures if s[i].createdAtMs == s[j].createdAtMs then Text.Before(s[i].taskId, s[j].taskId)
              else s[i].createdAtMs > s[j].createdAtMs
    {
      assert Precedes(s[i], s[j]);
    }
  }

  function KeyOf(db: Db, t: string): Key
    requires t in db.streams
  {
    Key(db.streams[t].createdAtMs, t)
  }

  // The first event of the task references a descriptor object.
  predicate BornDescribed(db: Db, t: string) {
    match EventAt(db, t, 1)
    case None => false
    case Some(e) =>
      e.eventId in db.edges
      && exists d :: d in db.edges[e.eventId] && db.edges[e.eventId][d] == Reference
                     && d in db.objects && db.objects[d].kind == DESCRIPTOR_OBJECT_KIND
  }

  // The WHERE clause of one batch, without the cursor.
  predicate Listed(db: Db, t: string, q: Query) {
    && t in db.projections && t in db.streams
    && (q.goalId.Some? ==> db.projections[t].goalId == q.goalId.value)
    && (q.includeTerminal || !db.projections[t].state.Terminal())
    && BornDescribed(db, t)
  }

  predicate Past(after: Option<Key>, k: Key) {
    after.Some? ==> Precedes(after.value, k)
  }

  function Rows(db: Db, q: Query, after: Option<Key>): set<Key> {
    set t | t in db.projections && Listed(db, t, q) && Past(after, KeyOf(db, t)) :: KeyOf(db, t)
  }

  predicate InWorkspace(q: Query, checkpoint: Option<CheckpointRecord>) {
    q.workspaceId.Some? ==>
      checkpoint.Some? && checkpoint.value.checkpoint.runtime.Some?
      && checkpoint.value.checkpoint.runtime.value.workspaceId == q.workspaceId.value
  }

  datatype Item = Item(key: Key, projection: TaskProjection, checkpoint: Option<CheckpointRecord>)

  // The key is the position of a task of the store.
  predicate Keyed(store: Store, k: Key) {
    k.taskId in store.db.streams && k == KeyOf(store.db, k.taskId)
  }

  lemma KeyedStable(before: Store, after: Store, k: Key)
    requires StoreInv(before) && StoreInv(after) && Evolves(before, after) && Keyed(before, k)
    ensures Keyed(after, k)
  {
    hide StoreInv, Evolves;
    KeyStable(before, after, k.taskId);
  }

  // The task's descriptor is that of external work for this very task and goal.
  ghost predicate KnownExternal(store: Store, t: string) {
    exists s :: Told(store, t, s) && NamesExternal(store.cas, s)
  }

  // What a listed item says: a revision of its task that passed the filter.
  ghost predicate ItemTells(store: Store, q: Query, item: Item) {
    && Keyed(store, item.key)
    && Recalls(store, item.key.taskId, item.projection)
    && KnownExternal(store, item.key.taskId)
    && (q.goalId.Some? ==> item.projection.goalId == q.goalId.value)
    && (q.includeTerminal || item.projection.state !in {Completed, Failed, Cancelled})
    && CheckpointAt(store, item.key.taskId, item.projection.revision) == Ok(item.checkpoint)
    && (q.workspaceId.Some? ==>
          && item.checkpoint.Some? && item.checkpoint.value.checkpoint.runtime.Some?
          && item.checkpoint.value.checkpoint.runtime.value.workspaceId == q.workspaceId.value)
  }

  lemma KnownExternalStable(before: Store, after: Store, t: string)
    requires StoreInv(before) && StoreInv(after) && Evolves(before, after) && KnownExternal(before, t)
    ensures KnownExternal(after, t)
  {
    hide StoreInv, Evolves, Told, DescriptorIn;
    var s :| Told(before, t, s) && NamesExternal(before.cas, s);
    ToldStable(before, after, t, s);
    EvolvesParts(before, after);
    DescriptorStable(before.cas, after.cas, s);
  }

  // A row stands where it is listed, and belongs to the goal asked for.
  ghost predicate Aimed(store: Store, q: Query, k: Key) {
    Keyed(store, k) && (q.goalId.Some? ==> k.taskId in store.db.projections && store.db.projections[k.taskId].goalId == q.goalId.value)
  }

  lemma AimedStable(before: Store, after: Store, q: Query, k: Key)
    requires StoreInv(before) && StoreInv(after) && Evolves(before, after) && Aimed(before, q, k)
    ensures Aimed(after, q, k)
  {
    hide StoreInv, Keyed;
    KeyedStable(before, after, k);
    if q.goalId.Some? {
      assert TaskAdvances(TasksOf(before), TasksOf(after), k.taskId);
    }
  }

  // The task belongs to the list, as a store has it.
  ghost predicate MatchesNow(store: Store, q: Query, t: string) {
    && Listed(store.db, t, q)
    && ExternalHead(store, t)
    && CheckpointAt(store, t, Revision(store, t)).Ok?
    && InWorkspace(q, CheckpointAt(store, t, Revision(store, t)).value)
  }

  // The task belongs to the list in every store the listing could meet.
  // Theorem: which tasks belong to a list, said of the tables alone: the goal if one is asked
  // for, not ended unless that is asked for, a descriptor among the references of the first
  // event, an external head, and the workspace if one is asked for.
  lemma MatchesExactly(store: Store, q: Query, t: string)
    requires StoreInv(store)
    ensures MatchesNow(store, q, t) <==>
              && t in store.db.projections
              && var p := store.db.projections[t];
              && (q.goalId == None || q.goalId == Some(p.goalId))
              && (q.includeTerminal || p.state !in {Completed, Failed, Cancelled})
              && EventAt(store.db, t, 1).Some?
              && (exists d :: d in EdgesOf(store.db, EventAt(store.db, t, 1).value.eventId)
                              && EdgesOf(store.db, EventAt(store.db, t, 1).value.eventId)[d] == Reference
                              && d in store.db.objects && store.db.objects[d].kind == "task-descriptor")
              && ExternalHead(store, t)
              && CheckpointAt(store, t, p.revision).Ok?
              && (q.workspaceId.Some? ==>
                    var c := CheckpointAt(store, t, p.revision).value;
                    c.Some? && c.value.checkpoint.runtime.Some? && c.value.checkpoint.runtime.value.workspaceId == q.workspaceId.value)
  {
    hide StoreInv, ExternalHead, CheckpointAt, EventAt;
    StoreTasks(store);
  }

  ghost predicate MatchesThroughout(start: Store, end: Store, q: Query, t: string) {
    forall met :: Between(start, met, end) ==> MatchesNow(met, q, t)
  }

  ghost predicate Between(start: Store, met: Store, end: Store) {
    StoreInv(met) && Evolves(start, met) && Evolves(met, end)
  }

  lemma BetweenNarrow(start: Store, start': Store, end': Store, end: Store, q: Query, t: string)
    requires Evolves(start, start') && Evolves(end', end) && MatchesThroughout(start, end, q, t)
    ensures MatchesThroughout(start', end', q, t)
  {
    hide StoreInv, Evolves, MatchesNow;
    forall met | Between(start', met, end')
      ensures MatchesNow(met, q, t)
    {
      EvolvesTransitive(start, start', met);
      EvolvesTransitive(met, end', end);
      assert Between(start, met, end);
    }
  }

  lemma MatchesAtEnds(start: Store, end: Store, q: Query, t: string)
    requires StoreInv(start) && StoreInv(end) && Evolves(start, end) && MatchesThroughout(start, end, q, t)
    ensures MatchesNow(start, q, t) && MatchesNow(end, q, t)
  {
    hide StoreInv, Evolves, MatchesNow;
    EvolvesReflexive(start);
    EvolvesReflexive(end);
    assert Between(start, start, end) && Between(start, end, end);
  }

  // A task keeps its place in the order.
  lemma KeyStable(before: Store, after: Store, t: string)
    requires StoreInv(before) && StoreInv(after) && Evolves(before, after) && t in before.db.streams
    ensures t in after.db.streams && KeyOf(after.db, t) == KeyOf(before.db, t)
  {
    StoreTasks(before);
    StoreTasks(after);
    TaskKept(before, after, t);
    LogPrefix(before.db.events, after.db.events, t);
    StreamCreated(before, t);
    StreamCreated(after, t);
  }

  lemma StreamCreated(store: Store, t: string)
    requires StoreInv(store) && t in store.db.streams
    ensures |Log(store.db.events, t)| >= 1
    ensures store.db.streams[t].createdAtMs == Log(store.db.events, t)[0].recordedAtMs
  {
    assert StreamOk(Log(store.db.events, t), store.db.streams[t]);
  }

  lemma RowsExact(db: Db, q: Query, after: Option<Key>, k: Key)
    ensures k in Rows(db, q, after) <==> Listed(db, k.taskId, q) && k == KeyOf(db, k.taskId) && Past(after, k)
  {
  }

  // Every read of the task's row succeeds.
  ghost predicate Wholesome(store: Store, t: string) {
    && t in store.db.projections
    && SnapshotAt(store.db, t, Revision(store, t)).Some?
    && NamesOwn(store.cas, SnapshotAt(store.db, t, Revision(store, t)).value)
    && (Workload(store.cas, SnapshotAt(store.db, t, Revision(store, t)).value) == Some(EXTERNAL_WORKLOAD) ==> ExternalHead(store, t))
    && CheckpointAt(store, t, Revision(store, t)).Ok?
  }

  function Workload(cas: set<Digest>, s: TaskEventSnapshot): Option<string> {
    match DescriptorIn(cas, s)
    case Ok(Some(d)) => Some(d.workloadId)
    case _ => None
  }

  lemma HeadOfMet(start: Store, met: Store, middle: Store, end: Store, q: Query, t: string, s: TaskEventSnapshot)
    requires MatchesThroughout(start, end, q, t) && HeadMet(start, met, middle, t, s) && Evolves(middle, end)
    ensures NamesExternal(met.cas, s)
  {
    hide StoreInv, Evolves, SnapshotAt, DescriptorIn, CheckpointAt, Listed;
    EvolvesTransitive(met, middle, end);
    assert Between(start, met, end);
    assert MatchesNow(met, q, t);
  }

  lemma NamedExternal(before: set<Digest>, after: set<Digest>, s: TaskEventSnapshot)
    requires before <= after && NamesExternal(before, s)
    ensures DescriptorIn(after, s).Ok? && DescriptorIn(after, s).value.Some?
    ensures DescriptorIn(after, s).value.value.workloadId == EXTERNAL_WORKLOAD
  {
    hide DescriptorIn;
    DescriptorStable(before, after, s);
  }

  lemma RequiredIsHead(store: Store, t: string, s: TaskEventSnapshot)
    requires StoreInv(store) && Told(store, t, s) && NamesExternal(store.cas, s) && s.projection.revision == Revision(store, t)
    ensures ExternalHead(store, t)
  {
    hide StoreInv, SnapshotAt, DescriptorIn;
    Present(store, t, s);
  }

  // The descriptor half of a row: is this an external-continuity task?
  method CheckDescriptor(storage: Host, q: Query, t: string) returns (r: Result<bool, HostError>)
    requires storage.Valid()
    modifies storage`cas, storage`others, storage.journal
    ensures storage.OnlyRead()
    ensures MatchesThroughout(old(storage.State()), storage.State(), q, t) ==> r == Ok(true)
    ensures old(storage.others) == [] && Wholesome(old(storage.State()), t) ==>
              r.Ok? && (r.value ==> ExternalHead(old(storage.State()), t))
  {
    hide StoreInv, Evolves, SnapshotAt, DescriptorIn, CheckpointAt, MatchesThroughout, WasHead, Told, HeadMet, MatchesNow;
    ghost var start := storage.State();
    var descriptor, seen := ReadTaskDescriptor(storage, t);
    ghost var end := storage.State();
    if MatchesThroughout(start, end, q, t) {
      MatchesAtEnds(start, end, q, t);
      ListedTask(start, q, t);
      ghost var met :| HeadMet(start, met, end, t, seen.value) && (NamesExternal(met.cas, seen.value) ==> descriptor.Ok?);
      EvolvesReflexive(end);
      HeadOfMet(start, met, end, end, q, t, seen.value);
      HeadMetParts(start, met, end, t, seen.value);
      EvolvesParts(met, end);
      NamedExternal(met.cas, end.cas, seen.value);
    }
    if end == start && seen.Some? {
      ToldHead(end, t, seen.value);
    }
    match descriptor
    case Err(e) => return Err(e);
    case Ok(found) => return Ok(found.Some? && found.value.workloadId == EXTERNAL_WORKLOAD);
  }

  lemma ListedTask(store: Store, q: Query, t: string)
    requires MatchesNow(store, q, t)
    ensures t in store.db.projections && (q.includeTerminal || !store.db.projections[t].state.Terminal())
    ensures CheckpointAt(store, t, Revision(store, t)).Ok? && InWorkspace(q, CheckpointAt(store, t, Revision(store, t)).value)
  {
  }

  lemma ToldHead(store: Store, t: string, s: TaskEventSnapshot)
    requires Told(store, t, s)
    ensures s.projection.revision == Revision(store, t) ==> SnapshotAt(store.db, t, Revision(store, t)) == Some(s)
  {
  }

  // The identity half of a row: checkpoint_at_revision requires the task again.
  method RequireRow(host: ExternalContinuity, q: Query, t: string) returns (r: Result<(), HostError>)
    requires host.Valid()
    modifies host.storage`cas, host.storage`others, host.storage.journal
    ensures host.storage.OnlyRead()
    ensures MatchesThroughout(old(host.storage.State()), host.storage.State(), q, t) ==> r.Ok?
    ensures r.Ok? ==> KnownExternal(host.storage.State(), t)
    ensures old(host.storage.others) == [] && r.Ok? ==> ExternalHead(host.storage.State(), t)
    ensures old(host.storage.others) == [] && ExternalHead(old(host.storage.State()), t) ==> r.Ok?
  {
    hide StoreInv, Evolves, SnapshotAt, CheckpointAt, MatchesThroughout, Told, HeadMet, MatchesNow, NamesExternal, Recalls;
    ghost var start := host.storage.State();
    var required, seen := host.RequireExternalTask(t, None);
    ghost var end := host.storage.State();
    if MatchesThroughout(start, end, q, t) {
      MatchesAtEnds(start, end, q, t);
      ListedTask(start, q, t);
      ghost var met :| HeadMet(start, met, end, t, seen.value) && (NamesExternal(met.cas, seen.value) ==> required.Ok?);
      EvolvesReflexive(end);
      HeadOfMet(start, met, end, end, q, t, seen.value);
    }
    if required.Ok? && end == start {
      RequiredIsHead(end, t, seen.value);
    }
    return if required.Err? then Err(required.error) else Ok(());
  }

  // One row of a batch: the reads that decide whether the task is listed.
  method CheckRow(host: ExternalContinuity, q: Query, key: Key) returns (r: Result<Option<Item>, HostError>)
    requires host.Valid() && Aimed(host.storage.State(), q, key)
    modifies host.storage`cas, host.storage`others, host.storage.journal
    ensures host.storage.OnlyRead() && Aimed(host.storage.State(), q, key)
    ensures r.Ok? && r.value.Some? ==> r.value.value.key == key && ItemTells(host.storage.State(), q, r.value.value)
    ensures MatchesThroughout(old(host.storage.State()), host.storage.State(), q, key.taskId) ==> r.Ok? && r.value.Some?
    ensures old(host.storage.others) == [] && r.Ok? && r.value.Some? && Listed(old(host.storage.State()).db, key.taskId, q)
            ==> MatchesNow(old(host.storage.State()), q, key.taskId)
    ensures old(host.storage.others) == [] && Wholesome(old(host.storage.State()), key.taskId) ==> r.Ok?
  {
    hide StoreInv, Evolves, SnapshotAt, DescriptorIn, CheckpointAt, MatchesThroughout, Recalls, ExternalHead, NamesOwn, Listed;
    hide InWorkspace, Keyed, KnownExternal, Aimed;
    var t := key.taskId;
    ghost var start := host.storage.State();
    var external := CheckDescriptor(host.storage, q, t);
    ghost var s1 := host.storage.State();
    AimedStable(start, s1, q, key);
    if external.Err? {
      return Err(external.error);
    }
    if !external.value {
      return Ok(None);
    }
    var task := host.storage.GetTask(t);
    ghost var s2 := host.storage.State();
    EvolvesTransitive(start, s1, s2);
    AimedStable(s1, s2, q, key);
    EvolvesReflexive(s2);
    Matching(start, s1, s2, s2, q, t);
    if task.None? {
      return Err(UnknownTask);
    }
    AimedAt(s2, q, key);
    if !q.includeTerminal && task.value.state.Terminal() {
      return Ok(None);
    }
    var required := RequireRow(host, q, t);
    ghost var s3 := host.storage.State();
    EvolvesTransitive(start, s2, s3);
    EvolvesTransitive(s1, s2, s3);
    AimedStable(s2, s3, q, key);
    Matching(start, s1, s2, s3, q, t);
    if required.Err? {
      return Err(required.error);
    }
    var checkpoint := host.ReadCheckpoint(t, task.value.revision);
    ghost var s4 := host.storage.State();
    EvolvesTransitive(start, s3, s4);
    EvolvesTransitive(s2, s3, s4);
    AimedStable(s3, s4, q, key);
    Matching(start, s1, s2, s4, q, t);
    RecallsStable(s2, s4, t, task.value);
    RecalledSnapshot(s2, t, task.value);
    if CheckpointAt(s2, t, task.value.revision).Ok? {
      CheckpointStable(s2, s4, t, task.value.revision);
    }
    if checkpoint.Err? {
      return Err(checkpoint.error);
    }
    KnownExternalStable(s3, s4, t);
    if !InWorkspace(q, checkpoint.value) {
      return Ok(None);
    }
    RowTells(s4, q, key, task.value, checkpoint.value);
    return Ok(Some(Item(key, task.value, checkpoint.value)));
  }

  lemma AimedAt(store: Store, q: Query, k: Key)
    requires Aimed(store, q, k)
    ensures Keyed(store, k)
    ensures q.goalId.Some? && k.taskId in store.db.projections ==> store.db.projections[k.taskId].goalId == q.goalId.value
  {
  }

  lemma RowTells(store: Store, q: Query, k: Key, p: TaskProjection, checkpoint: Option<CheckpointRecord>)
    requires Aimed(store, q, k) && Recalls(store, k.taskId, p) && KnownExternal(store, k.taskId)
    requires q.goalId.Some? ==> p.goalId == q.goalId.value
    requires q.includeTerminal || !p.state.Terminal()
    requires CheckpointAt(store, k.taskId, p.revision) == Ok(checkpoint) && InWorkspace(q, checkpoint)
    ensures ItemTells(store, q, Item(k, p, checkpoint))
  {
    hide CheckpointAt, Recalls, KnownExternal, Keyed;
  }

  lemma RecalledSnapshot(store: Store, t: string, p: TaskProjection)
    requires Recalls(store, t, p)
    ensures SnapshotAt(store.db, t, p.revision).Some?
  {
  }

  // A task that matches up to the end matches in each store on the way.
  lemma Matching(start: Store, s1: Store, s2: Store, end: Store, q: Query, t: string)
    requires StoreInv(start) && StoreInv(s1) && StoreInv(s2) && StoreInv(end)
    requires Evolves(start, s1) && Evolves(s1, s2) && Evolves(s2, end) && Evolves(start, s2)
    ensures MatchesThroughout(start, end, q, t) ==>
              && MatchesThroughout(start, s1, q, t) && MatchesThroughout(s2, end, q, t)
              && t in s2.db.projections && (q.includeTerminal || !s2.db.projections[t].state.Terminal())
              && CheckpointAt(s2, t, Revision(s2, t)).Ok? && InWorkspace(q, CheckpointAt(s2, t, Revision(s2, t)).value)
  {
    hide StoreInv, Evolves, MatchesThroughout, MatchesNow, CheckpointAt, InWorkspace;
    if MatchesThroughout(start, end, q, t) {
      EvolvesReflexive(start);
      EvolvesReflexive(end);
      EvolvesTransitive(s1, s2, end);
      BetweenNarrow(start, start, s1, end, q, t);
      BetweenNarrow(start, s2, end, end, q, t);
      MatchesAtEnds(s2, end, q, t);
      ListedTask(s2, q, t);
    }
  }

  // ---- The scan ----

  function Keys(items: seq<Item>): seq<Key> {
    seq(|items|, i requires 0 <= i < |items| => items[i].key)
  }

  ghost predicate AllTell(store: Store, q: Query, items: seq<Item>) {
    forall i :: 0 <= i < |items| ==> ItemTells(store, q, items[i])
  }

  lemma AllTellStable(before: Store, after: Store, q: Query, items: seq<Item>)
    requires StoreInv(before) && StoreInv(after) && Evolves(before, after) && AllTell(before, q, items)
    ensures AllTell(after, q, items)
  {
    hide StoreInv, Evolves, CheckpointAt, Recalls, Keyed, KnownExternal;
    forall i | 0 <= i < |items|
      ensures ItemTells(after, q, items[i])
    {
      var t, p := items[i].key.taskId, items[i].projection;
      KeyedStable(before, after, items[i].key);
      RecallsStable(before, after, t, p);
      KnownExternalStable(before, after, t);
      RecalledSnapshot(before, t, p);
      CheckpointStable(before, after, t, p.revision);
    }
  }

  lemma AllAimedStable(before: Store, after: Store, q: Query, rows: seq<Key>)
    requires StoreInv(before) && StoreInv(after) && Evolves(before, after)
    requires forall k :: k in rows ==> Aimed(before, q, k)
    ensures forall k :: k in rows ==> Aimed(after, q, k)
  {
    hide StoreInv, Evolves, Aimed;
    forall k | k in rows
      ensures Aimed(after, q, k)
    {
      AimedStable(before, after, q, k);
    }
  }

  // Every row read so far whose task matched throughout is among the matches.
  ghost predicate Found(start: Store, end: Store, q: Query, rows: seq<Key>, items: seq<Item>) {
    forall k :: k in rows && MatchesThroughout(start, end, q, k.taskId) ==> k in Keys(items)
  }

  lemma FoundNarrows(start: Store, middle: Store, end: Store, q: Query, rows: seq<Key>, items: seq<Item>)
    requires StoreInv(start) && Evolves(middle, end) && Found(start, middle, q, rows, items)
    ensures Found(start, end, q, rows, items)
  {
    hide StoreInv, Evolves, MatchesThroughout;
    EvolvesReflexive(start);
    forall k | k in rows && MatchesThroughout(start, end, q, k.taskId)
      ensures k in Keys(items)
    {
      BetweenNarrow(start, start, middle, end, q, k.taskId);
    }
  }

  lemma NothingRead(start: Store, q: Query, rows: seq<Key>, items: seq<Item>)
    ensures Found(start, start, q, rows[..0], items)
  {
  }

  lemma KeysSnoc(items: seq<Item>, item: Item)
    ensures Keys(items + [item]) == Keys(items) + [item.key]
  {
  }

  // The rows of one batch, until more than `limit` matches are known. `read` counts the
  // rows that were looked at.
  method ScanRows(host: ExternalContinuity, q: Query, limit: nat, rows: seq<Key>, found: seq<Item>)
    returns (r: Result<seq<Item>, HostError>, read: nat)
    requires host.Valid() && |found| <= limit && AllTell(host.storage.State(), q, found)
    requires forall k :: k in rows ==> Aimed(host.storage.State(), q, k)
    modifies host.storage`cas, host.storage`others, host.storage.journal
    ensures host.storage.OnlyRead()
    ensures read <= |rows|
    ensures r.Ok? ==>
              && found <= r.value && |r.value| <= limit + 1
              && AllTell(host.storage.State(), q, r.value)
              && IsSubsequence(Keys(r.value)[|found|..], rows[..read])
              && Found(old(host.storage.State()), host.storage.State(), q, rows[..read], r.value)
              && (read < |rows| ==> |r.value| == limit + 1)
              && (|r.value| == limit + 1 ==> read > 0 && r.value[limit].key == rows[read - 1])
    ensures old(host.storage.others) == [] && r.Ok? ==>
              forall i :: |found| <= i < |r.value| && Listed(old(host.storage.State()).db, r.value[i].key.taskId, q) ==>
                MatchesNow(old(host.storage.State()), q, r.value[i].key.taskId)
    ensures old(host.storage.others) == [] && (forall k :: k in rows ==> Wholesome(old(host.storage.State()), k.taskId)) ==> r.Ok?
  {
    hide StoreInv, Evolves, AllTell, ItemTells, MatchesThroughout, Wholesome, MatchesNow, Listed, Found, IsSubsequence, Keyed, Aimed;
    ghost var start := host.storage.State();
    EvolvesReflexive(start);
    NothingRead(start, q, rows, found);
    var items := found;
    read := 0;
    SubsequenceEmpty(Keys(items)[|found|..], rows[..read]);
    while read < |rows| && |items| <= limit
      invariant 0 <= read <= |rows|
      invariant host.storage.OnlyRead()
      invariant found <= items && |items| <= limit + 1
      invariant AllTell(host.storage.State(), q, items)
      invariant forall k :: k in rows ==> Aimed(host.storage.State(), q, k)
      invariant IsSubsequence(Keys(items)[|found|..], rows[..read])
      invariant Found(start, host.storage.State(), q, rows[..read], items)
      invariant |items| == limit + 1 ==> read > 0 && items[limit].key == rows[read - 1]
      invariant old(host.storage.others) == [] ==>
                  forall i :: |found| <= i < |items| && Listed(start.db, items[i].key.taskId, q) ==>
                    MatchesNow(start, q, items[i].key.taskId)
    {
      ghost var before := host.storage.State();
      var row := rows[read];
      assert row in rows;
      var checked := CheckRow(host, q, row);
      EvolvesTransitive(start, before, host.storage.State());
      AllTellStable(before, host.storage.State(), q, items);
      AllAimedStable(before, host.storage.State(), q, rows);
      FoundNarrows(start, before, host.storage.State(), q, rows[..read], items);
      if checked.Err? {
        return Err(checked.error), read;
      }
      RowRead(start, before, host.storage.State(), q, rows, read, items, checked.value);
      if checked.value.Some? {
        KeysSnoc(items, checked.value.value);
        AllTellSnoc(host.storage.State(), q, items, checked.value.value);
        SubsequenceTake(Keys(items)[|found|..], rows, read);
        assert Keys(items + [checked.value.value])[|found|..] == Keys(items)[|found|..] + [row];
        items := items + [checked.value.value];
      } else {
        SubsequenceSkip(Keys(items)[|found|..], rows, read);
      }
      read := read + 1;
    }
    return Ok(items), read;
  }

  lemma AllTellSnoc(store: Store, q: Query, items: seq<Item>, item: Item)
    requires AllTell(store, q, items) && ItemTells(store, q, item)
    ensures AllTell(store, q, items + [item])
  {
    hide ItemTells;
  }

  // Reading one more row keeps the account complete.
  lemma RowRead(
    start: Store, before: Store, end: Store, q: Query, rows: seq<Key>, read: nat, items: seq<Item>, added: Option<Item>)
    requires read < |rows| && Evolves(start, before) && StoreInv(end) && Evolves(before, end)
    requires Found(start, end, q, rows[..read], items)
    requires MatchesThroughout(before, end, q, rows[read].taskId) ==> added.Some?
    requires added.Some? ==> added.value.key == rows[read]
    ensures Found(start, end, q, rows[..read + 1], if added.Some? then items + [added.value] else items)
  {
    hide StoreInv, Evolves, MatchesThroughout;
    var after := if added.Some? then items + [added.value] else items;
    if added.Some? {
      KeysSnoc(items, added.value);
    }
    EvolvesReflexive(end);
    forall k | k in rows[..read + 1] && MatchesThroughout(start, end, q, k.taskId)
      ensures k in Keys(after)
    {
      BetweenNarrow(start, before, end, end, q, k.taskId);
      assert rows[..read + 1] == rows[..read] + [rows[read]];
    }
  }

  // s keeps some elements of t, in t's order.
  predicate IsSubsequence(s: seq<Key>, t: seq<Key>)
    decreases |t|
  {
    || |s| == 0
    || (|t| > 0 && s[|s| - 1] == t[|t| - 1] && IsSubsequence(s[..|s| - 1], t[..|t| - 1]))
    || (|t| > 0 && IsSubsequence(s, t[..|t| - 1]))
  }

  lemma SubsequenceEmpty(s: seq<Key>, t: seq<Key>)
    requires s == []
    ensures IsSubsequence(s, t)
  {
  }

  lemma SubsequenceTake(s: seq<Key>, rows: seq<Key>, read: nat)
    requires read < |rows| && IsSubsequence(s, rows[..read])
    ensures IsSubsequence(s + [rows[read]], rows[..read + 1])
  {
    assert rows[..read + 1][..read] == rows[..read];
    assert (s + [rows[read]])[..|s|] == s;
  }

  lemma SubsequenceSkip(s: seq<Key>, rows: seq<Key>, read: nat)
    requires read < |rows| && IsSubsequence(s, rows[..read])
    ensures IsSubsequence(s, rows[..read + 1])
  {
    assert rows[..read + 1][..read] == rows[..read];
  }

  lemma {:induction false} SubsequenceMembers(s: seq<Key>, t: seq<Key>)
    requires IsSubsequence(s, t)
    ensures forall k :: k in s ==> k in t
    ensures Ascending(t, Precedes) ==> Ascending(s, Precedes)
    decreases |t|
  {
    if |s| > 0 {
      var init := t[..|t| - 1];
      if s[|s| - 1] == t[|t| - 1] && IsSubsequence(s[..|s| - 1], init) {
        SubsequenceMembers(s[..|s| - 1], init);
        assert s == s[..|s| - 1] + [t[|t| - 1]] && t == init + [t[|t| - 1]];
        if Ascending(t, Precedes) {
          SnocAscending(s[..|s| - 1], init, t[|t| - 1]);
        }
      } else {
        SubsequenceMembers(s, init);
      }
    }
  }

  lemma SnocAscending(s: seq<Key>, t: seq<Key>, last: Key)
    requires Ascending(t + [last], Precedes) && Ascending(s, Precedes) && forall k :: k in s ==> k in t
    ensures Ascending(s + [last], Precedes)
  {
    hide Precedes;
    forall i, j | 0 <= i < j < |s + [last]|
      ensures Precedes((s + [last])[i], (s + [last])[j])
    {
      if j == |s| {
        assert s[i] in t;
        var k :| 0 <= k < |t| && t[k] == s[i];
        assert (t + [last])[k] == s[i] && (t + [last])[|t|] == last;
      }
    }
  }

  // How far down the order the scan has looked.
  datatype Reach = Nothing | UpTo(key: Key) | Everything

  predicate Within(reach: Reach, k: Key) {
    match reach
    case Nothing => false
    case UpTo(b) => !Precedes(b, k)
    case Everything => true
  }

  function Cursor(after: Option<Key>, reach: Reach): Option<Key> {
    if reach.UpTo? then Some(reach.key) else after
  }

  // Every task after the first cursor that matched throughout and lies within reach is
  // among the keys.
  ghost predicate Complete(start: Store, end: Store, q: Query, after: Option<Key>, reach: Reach, keys: seq<Key>) {
    forall t :: t in start.db.streams && MatchesThroughout(start, end, q, t)
                && Past(after, KeyOf(start.db, t)) && Within(reach, KeyOf(start.db, t))
                ==> KeyOf(start.db, t) in keys
  }

  // What the scan knows at the top of its loop.
  ghost predicate Scanned(start: Store, end: Store, q: Query, after: Option<Key>, reach: Reach, found: seq<Item>) {
    && AllTell(end, q, found)
    && Ascending(Keys(found), Precedes)
    && (forall k :: k in Keys(found) ==> Past(after, k) && Within(reach, k))
    && Complete(start, end, q, after, reach, Keys(found))
  }

  lemma CompleteNarrows(start: Store, middle: Store, end: Store, q: Query, after: Option<Key>, reach: Reach, keys: seq<Key>)
    requires StoreInv(start) && Evolves(middle, end) && Complete(start, middle, q, after, reach, keys)
    ensures Complete(start, end, q, after, reach, keys)
  {
    hide StoreInv, Evolves, MatchesThroughout, Precedes;
    EvolvesReflexive(start);
    forall t | t in start.db.streams && MatchesThroughout(start, end, q, t)
               && Past(after, KeyOf(start.db, t)) && Within(reach, KeyOf(start.db, t))
      ensures KeyOf(start.db, t) in keys
    {
      BetweenNarrow(start, start, middle, end, q, t);
    }
  }

  // A batch contains every row of its query up to its last row; a short batch, every row.
  lemma BatchHas(keys: set<Key>, k: Key)
    requires k in keys
    ensures TotalOrder(Precedes)
    ensures var rows := First(keys, Precedes, SCAN_BATCH);
            && |rows| > 0
            && (|rows| < SCAN_BATCH ==> k in rows)
            && forall i :: 0 <= i < |rows| && !Precedes(rows[i], k) ==> k in rows[..i + 1]
  {
    PrecedesIsOrder();
    OrderedExact(keys, Precedes);
    hide Precedes;
    var all, rows := Ordered(keys, Precedes), First(keys, Precedes, SCAN_BATCH);
    assert k in all;
    var j :| 0 <= j < |all| && all[j] == k;
    forall i | 0 <= i < |rows| && !Precedes(rows[i], k)
      ensures k in rows[..i + 1]
    {
      assert rows[i] == all[i];
      assert j <= i;
      assert rows[..i + 1][j] == k;
    }
  }

  lemma RowsMembers(db: Db, q: Query, after: Option<Key>)
    ensures TotalOrder(Precedes)
    ensures var rows := First(Rows(db, q, after), Precedes, SCAN_BATCH);
            && Ascending(rows, Precedes)
            && |rows| <= SCAN_BATCH
            && forall k :: k in rows ==> k in Rows(db, q, after)
  {
    PrecedesIsOrder();
    OrderedExact(Rows(db, q, after), Precedes);
    hide Precedes, Rows;
    var rows := First(Rows(db, q, after), Precedes, SCAN_BATCH);
    forall k | k in rows
      ensures k in Rows(db, q, after)
    {
      assert k in Ordered(Rows(db, q, after), Precedes);
    }
  }

  // A task that matched throughout and lies past the scan's cursor is a row of the query.
  lemma MatchingIsRow(start: Store, asked: Store, end: Store, q: Query, at: Option<Key>, t: string)
    requires StoreInv(start) && StoreInv(asked) && Evolves(start, asked) && Evolves(asked, end)
    requires t in start.db.streams && MatchesThroughout(start, end, q, t) && Past(at, KeyOf(start.db, t))
    ensures KeyOf(start.db, t) in Rows(asked.db, q, at)
  {
    hide StoreInv, Evolves, Precedes, ExternalHead, CheckpointAt, InWorkspace, BornDescribed;
    KeyStable(start, asked, t);
    assert Between(start, asked, end);
    assert MatchesNow(asked, q, t);
    RowsExact(asked.db, q, at, KeyOf(start.db, t));
  }

  // One more batch keeps the account complete, up to the last row that was read.
  lemma BatchComplete(
    start: Store, asked: Store, end: Store, q: Query, after: Option<Key>, reach: Reach, found: seq<Item>,
    read: nat, items: seq<Item>)
    requires StoreInv(start) && StoreInv(asked) && StoreInv(end) && Evolves(start, asked) && Evolves(asked, end)
    requires TotalOrder(Precedes) && !reach.Everything?
    requires var rows := First(Rows(asked.db, q, Cursor(after, reach)), Precedes, SCAN_BATCH);
             0 < read <= |rows| && Found(asked, end, q, rows[..read], items)
    requires Complete(start, end, q, after, reach, Keys(found)) && found <= items
    ensures var rows := First(Rows(asked.db, q, Cursor(after, reach)), Precedes, SCAN_BATCH);
            && Complete(start, end, q, after, UpTo(rows[read - 1]), Keys(items))
            && (read == |rows| < SCAN_BATCH ==> Complete(start, end, q, after, Everything, Keys(items)))
  {
    hide StoreInv, Evolves, MatchesThroughout, Precedes, Rows;
    var at := Cursor(after, reach);
    var rows := First(Rows(asked.db, q, at), Precedes, SCAN_BATCH);
    EvolvesReflexive(end);
    forall t | t in start.db.streams && MatchesThroughout(start, end, q, t) && Past(after, KeyOf(start.db, t))
               && (Within(UpTo(rows[read - 1]), KeyOf(start.db, t)) || read == |rows| < SCAN_BATCH)
      ensures KeyOf(start.db, t) in Keys(items)
    {
      var k := KeyOf(start.db, t);
      if Past(at, k) {
        MatchingIsRow(start, asked, end, q, at, t);
        BatchHas(Rows(asked.db, q, at), k);
        assert k in rows[..read] by {
          assert rows[..|rows|] == rows;
        }
        BetweenNarrow(start, asked, end, end, q, t);
      } else {
        PastCursor(after, reach, k);
        KeysPrefix(found, items);
      }
    }
  }

  lemma PastCursor(after: Option<Key>, reach: Reach, k: Key)
    requires Past(after, k) && !Past(Cursor(after, reach), k)
    ensures Within(reach, k)
  {
  }

  lemma KeysPrefix(found: seq<Item>, items: seq<Item>)
    requires found <= items
    ensures forall k :: k in Keys(found) ==> k in Keys(items)
  {
    forall k | k in Keys(found)
      ensures k in Keys(items)
    {
      var i :| 0 <= i < |found| && Keys(found)[i] == k;
      assert Keys(items)[i] == k;
    }
  }

  // New matches follow the old ones in order.
  lemma JoinAscending(found: seq<Item>, items: seq<Item>, after: Option<Key>, reach: Reach, rows: seq<Key>, read: nat)
    requires TotalOrder(Precedes) && found <= items && 0 < read <= |rows| && Ascending(rows, Precedes) && !reach.Everything?
    requires Ascending(Keys(found), Precedes) && forall k :: k in Keys(found) ==> Past(after, k) && Within(reach, k)
    requires IsSubsequence(Keys(items)[|found|..], rows[..read])
    requires forall k :: k in rows ==> Past(Cursor(after, reach), k)
    requires reach.UpTo? ==> Past(after, reach.key)
    ensures Ascending(Keys(items), Precedes)
    ensures forall k :: k in Keys(items) ==> Past(after, k) && Within(UpTo(rows[read - 1]), k)
  {
    hide Precedes;
    var tail := Keys(items)[|found|..];
    assert Ascending(rows[..read], Precedes);
    SubsequenceMembers(tail, rows[..read]);
    assert Keys(items) == Keys(found) + tail;
    forall k | k in tail
      ensures Past(after, k) && Within(UpTo(rows[read - 1]), k) && Past(Cursor(after, reach), k)
    {
      TailBound(after, reach, rows, read, k);
    }
    assert rows[read - 1] in rows;
    forall k | k in Keys(found)
      ensures Past(after, k) && Within(UpTo(rows[read - 1]), k)
    {
      FoundBound(after, reach, rows[read - 1], k);
    }
    forall i, j | 0 <= i < j < |Keys(items)|
      ensures Precedes(Keys(items)[i], Keys(items)[j])
    {
      if i < |found| <= j {
        assert Keys(items)[i] == Keys(found)[i] && Keys(items)[j] == tail[j - |found|];
        assert Keys(found)[i] in Keys(found) && tail[j - |found|] in tail;
        AcrossCursor(after, reach, Keys(items)[i], Keys(items)[j]);
      } else if |found| <= i {
        assert Keys(items)[i] == tail[i - |found|] && Keys(items)[j] == tail[j - |found|];
      } else {
        assert Keys(items)[i] == Keys(found)[i] && Keys(items)[j] == Keys(found)[j];
      }
    }
  }

  lemma TailBound(after: Option<Key>, reach: Reach, rows: seq<Key>, read: nat, k: Key)
    requires TotalOrder(Precedes) && 0 < read <= |rows| && Ascending(rows, Precedes) && k in rows[..read] && !reach.Everything?
    requires forall j :: j in rows ==> Past(Cursor(after, reach), j)
    requires reach.UpTo? ==> Past(after, reach.key)
    ensures Past(after, k) && Within(UpTo(rows[read - 1]), k) && Past(Cursor(after, reach), k)
  {
    hide Precedes;
    var i :| 0 <= i < read && rows[i] == k;
    Asymmetric(Precedes, rows[i], rows[read - 1]);
    assert k in rows;
  }

  lemma FoundBound(after: Option<Key>, reach: Reach, last: Key, k: Key)
    requires TotalOrder(Precedes) && Within(reach, k) && Past(Cursor(after, reach), last) && !reach.Everything?
    ensures Within(UpTo(last), k)
  {
    hide Precedes;
    if reach.UpTo? {
      Transitive(Precedes, reach.key, last, k);
    }
  }

  lemma AcrossCursor(after: Option<Key>, reach: Reach, k: Key, j: Key)
    requires TotalOrder(Precedes) && Within(reach, k) && Past(Cursor(after, reach), j) && !reach.Everything?
    ensures Precedes(k, j)
  {
    hide Precedes;
    assert k == reach.key || Precedes(k, reach.key);
  }

  lemma NothingScanned(start: Store, q: Query, after: Option<Key>)
    ensures Scanned(start, start, q, after, Nothing, [])
  {
  }

  lemma ScannedStable(start: Store, middle: Store, end: Store, q: Query, after: Option<Key>, reach: Reach, found: seq<Item>)
    requires StoreInv(start) && StoreInv(middle) && StoreInv(end) && Evolves(middle, end)
    requires Scanned(start, middle, q, after, reach, found)
    ensures Scanned(start, end, q, after, reach, found)
  {
    hide StoreInv, Evolves, AllTell, Complete, Precedes;
    AllTellStable(middle, end, q, found);
    CompleteNarrows(start, middle, end, q, after, reach, Keys(found));
  }

  lemma ScannedMore(
    start: Store, asked: Store, end: Store, q: Query, after: Option<Key>, reach: Reach, found: seq<Item>,
    read: nat, items: seq<Item>)
    requires StoreInv(start) && StoreInv(asked) && StoreInv(end) && Evolves(start, asked) && Evolves(asked, end)
    requires TotalOrder(Precedes) && !reach.Everything? && (reach.UpTo? ==> Past(after, reach.key))
    requires var rows := First(Rows(asked.db, q, Cursor(after, reach)), Precedes, SCAN_BATCH);
             && 0 < read <= |rows| && Found(asked, end, q, rows[..read], items)
             && found <= items && IsSubsequence(Keys(items)[|found|..], rows[..read])
    requires Scanned(start, end, q, after, reach, found) && AllTell(end, q, items)
    ensures var rows := First(Rows(asked.db, q, Cursor(after, reach)), Precedes, SCAN_BATCH);
            && Scanned(start, end, q, after, UpTo(rows[read - 1]), items)
            && Past(after, rows[read - 1])
            && (read == |rows| < SCAN_BATCH ==> Scanned(start, end, q, after, Everything, items))
  {
    hide StoreInv, Evolves, AllTell, Complete, Precedes, Rows, Found, IsSubsequence, Ascending;
    var at := Cursor(after, reach);
    var rows := First(Rows(asked.db, q, at), Precedes, SCAN_BATCH);
    RowsMembers(asked.db, q, at);
    forall k | k in rows
      ensures Past(at, k)
    {
      RowsExact(asked.db, q, at, k);
    }
    BatchComplete(start, asked, end, q, after, reach, found, read, items);
    JoinAscending(found, items, after, reach, rows, read);
    assert rows[read - 1] in rows;
    PastBoth(after, reach, rows[read - 1]);
  }

  lemma PastBoth(after: Option<Key>, reach: Reach, k: Key)
    requires TotalOrder(Precedes) && Past(Cursor(after, reach), k) && (reach.UpTo? ==> Past(after, reach.key))
    ensures Past(after, k)
  {
    hide Precedes;
    if reach.UpTo? && after.Some? {
      Transitive(Precedes, after.value, reach.key, k);
    }
  }

  lemma NoRowsLeft(start: Store, asked: Store, q: Query, after: Option<Key>, reach: Reach, found: seq<Item>)
    requires StoreInv(start) && StoreInv(asked) && Evolves(start, asked)
    requires Scanned(start, asked, q, after, reach, found)
    requires Rows(asked.db, q, Cursor(after, reach)) == {}
    ensures Scanned(start, asked, q, after, Everything, found)
  {
    hide StoreInv, Evolves, AllTell, Precedes, Rows, MatchesThroughout;
    EvolvesReflexive(asked);
    forall t | t in start.db.streams && MatchesThroughout(start, asked, q, t) && Past(after, KeyOf(start.db, t))
      ensures KeyOf(start.db, t) in Keys(found)
    {
      if Past(Cursor(after, reach), KeyOf(start.db, t)) {
        MatchingIsRow(start, asked, asked, q, Cursor(after, reach), t);
      } else {
        PastCursor(after, reach, KeyOf(start.db, t));
      }
    }
  }

  // What a page tells: ordered, each item a matching revision, nothing that matched
  // throughout left out before its end.
  ghost predicate PageTells(start: Store, end: Store, q: Query, limit: int, after: Option<Key>, items: seq<Item>, more: bool) {
    && |items| <= limit && (more ==> |items| == limit)
    && NewestFirst(Keys(items))
    && Scanned(start, end, q, after, if more && |items| > 0 then UpTo(items[|items| - 1].key) else Everything, items)
  }

  lemma CutPage(start: Store, end: Store, q: Query, limit: int, after: Option<Key>, reach: Reach, found: seq<Item>)
    requires TotalOrder(Precedes) && 1 <= limit && |found| == limit + 1
    requires Scanned(start, end, q, after, reach, found) && reach == UpTo(found[limit].key)
    ensures PageTells(start, end, q, limit, after, found[..limit], true)
  {
    hide ItemTells, MatchesThroughout, Precedes;
    var items := found[..limit];
    var last := items[limit - 1].key;
    assert Keys(items) == Keys(found)[..limit];
    assert Keys(found)[limit] == found[limit].key && Keys(found)[limit - 1] == last;
    assert Ascending(Keys(items), Precedes);
    AscendingIsNewestFirst(Keys(items));
    forall k | k in Keys(items)
      ensures Past(after, k) && Within(UpTo(last), k)
    {
      var i :| 0 <= i < limit && Keys(found)[i] == k;
      Asymmetric(Precedes, Keys(found)[i], Keys(found)[limit - 1]);
      assert k in Keys(found);
    }
    forall t | t in start.db.streams && MatchesThroughout(start, end, q, t)
               && Past(after, KeyOf(start.db, t)) && Within(UpTo(last), KeyOf(start.db, t))
      ensures KeyOf(start.db, t) in Keys(items)
    {
      var k := KeyOf(start.db, t);
      Transitive(Precedes, last, Keys(found)[limit], k);
      assert k in Keys(found);
      var i :| 0 <= i < |found| && Keys(found)[i] == k;
      assert i < limit;
      assert Keys(items)[i] == k;
    }
  }

  lemma RowsShrink(db: Db, q: Query, at: Option<Key>, k: Key)
    requires TotalOrder(Precedes) && k in Rows(db, q, at)
    ensures |Rows(db, q, Some(k))| < |Rows(db, q, at)|
  {
    hide Precedes, Listed;
    forall j | j in Rows(db, q, Some(k))
      ensures j in Rows(db, q, at) - {k}
    {
      RowsExact(db, q, Some(k), j);
      RowsExact(db, q, at, k);
      if at.Some? {
        Transitive(Precedes, at.value, k, j);
      }
      RowsExact(db, q, at, j);
    }
    SubsetSize(Rows(db, q, Some(k)), Rows(db, q, at) - {k});
  }

  // Which tasks a batch found match now, when nothing moves.
  ghost predicate AllMatch(store: Store, q: Query, items: seq<Item>) {
    forall i :: 0 <= i < |items| ==> MatchesNow(store, q, items[i].key.taskId) && items[i].key.taskId in store.db.streams
                                     && items[i].key == KeyOf(store.db, items[i].key.taskId)
  }

  lemma AllMatchMore(store: Store, q: Query, at: Option<Key>, found: seq<Item>, read: nat, items: seq<Item>)
    requires AllMatch(store, q, found) && found <= items && TotalOrder(Precedes)
    requires var rows := First(Rows(store.db, q, at), Precedes, SCAN_BATCH);
             read <= |rows| && IsSubsequence(Keys(items)[|found|..], rows[..read])
    requires forall i :: |found| <= i < |items| && Listed(store.db, items[i].key.taskId, q) ==>
               MatchesNow(store, q, items[i].key.taskId)
    ensures AllMatch(store, q, items)
  {
    hide MatchesNow, Listed, Precedes, Rows;
    var rows := First(Rows(store.db, q, at), Precedes, SCAN_BATCH);
    RowsMembers(store.db, q, at);
    var tail := Keys(items)[|found|..];
    SubsequenceMembers(tail, rows[..read]);
    forall i | 0 <= i < |items|
      ensures MatchesNow(store, q, items[i].key.taskId) && items[i].key.taskId in store.db.streams
      ensures items[i].key == KeyOf(store.db, items[i].key.taskId)
    {
      if i < |found| {
        assert items[i] == found[i];
      } else {
        assert tail[i - |found|] == items[i].key && tail[i - |found|] in tail;
        assert items[i].key in rows;
        RowsExact(store.db, q, at, items[i].key);
        ListedStream(store.db, items[i].key.taskId, q);
      }
    }
  }

  lemma ListedStream(db: Db, t: string, q: Query)
    requires Listed(db, t, q)
    ensures t in db.streams
  {
  }

  // _list_host_tasks, after its arguments are checked: batches of 256 rows until one more
  // match than the limit is known or no row is left.
  method ListTasks(host: ExternalContinuity, q: Query, limit: int, after: Option<Key>)
    returns (r: Result<(seq<Item>, bool), HostError>, ghost further: seq<Item>)
    requires host.Valid() && 1 <= limit
    modifies host.storage`cas, host.storage`others, host.storage.journal
    ensures host.storage.OnlyRead()
    ensures r.Ok? && old(host.storage.others) != [] ==> |host.storage.others| < |old(host.storage.others)|
    ensures r.Ok? ==> PageTells(old(host.storage.State()), host.storage.State(), q, limit, after, r.value.0, r.value.1)
    ensures r.Ok? ==> (r.value.1 <==> |further| == 1)
    ensures r.Ok? && r.value.1 ==>
              && ItemTells(host.storage.State(), q, further[0])
              && Past(after, further[0].key) && Precedes(r.value.0[limit - 1].key, further[0].key)
    ensures old(host.storage.others) == [] && r.Ok? ==> AllMatch(old(host.storage.State()), q, r.value.0 + further)
    ensures old(host.storage.others) == [] && (forall t :: Listed(old(host.storage.State()).db, t, q) ==> Wholesome(old(host.storage.State()), t))
            ==> r.Ok?
  {
    hide StoreInv, Evolves, Scanned, Precedes, Rows, Wholesome, MatchesNow, Listed, AllTell, IsSubsequence, Found, PageTells;
    hide Past, AllMatch, TotalOrder, ItemTells, First, Keyed, Aimed;
    ghost var start := host.storage.State();
    EvolvesReflexive(start);
    PrecedesIsOrder();
    NothingScanned(start, q, after);
    NothingMatches(start, q);
    further := [];
    var found: seq<Item> := [];
    var scanAfter := after;
    ghost var reach := Nothing;
    while |found| <= limit
      invariant host.storage.OnlyRead()
      invariant |found| <= limit + 1 && TotalOrder(Precedes)
      invariant Scanned(start, host.storage.State(), q, after, reach, found)
      invariant !reach.Everything? && scanAfter == Cursor(after, reach) && (reach.UpTo? ==> Past(after, reach.key))
      invariant |found| == limit + 1 ==> reach == UpTo(found[limit].key)
      invariant old(host.storage.others) == [] ==> AllMatch(start, q, found)
      invariant found != [] && old(host.storage.others) != [] ==> |host.storage.others| < |old(host.storage.others)|
      decreases |host.storage.others|, |Rows(host.storage.State().db, q, scanAfter)|, if |found| <= limit then 1 else 0
    {
      ghost var top := host.storage.State();
      host.storage.Yield();
      ghost var asked := host.storage.State();
      EvolvesTransitive(start, top, asked);
      ScannedStable(start, top, asked, q, after, reach, found);
      var rows := First(Rows(host.storage.journal.View(), q, scanAfter), Precedes, SCAN_BATCH);
      RowsMembers(asked.db, q, scanAfter);
      RowsWholesome(asked, q, scanAfter);
      RowsAimed(asked, q, scanAfter, rows);
      if rows == [] {
        NoRows(asked.db, q, scanAfter);
        NoRowsLeft(start, asked, q, after, reach, found);
        WholePage(start, asked, q, limit, after, found);
        assert found + further == found;
        return Ok((found, false)), further;
      }
      ScannedTells(start, asked, q, after, reach, found);
      var scanned, read := ScanRows(host, q, limit, rows, found);
      EvolvesTransitive(start, asked, host.storage.State());
      if scanned.Err? {
        return Err(scanned.error), further;
      }
      ScannedStable(start, asked, host.storage.State(), q, after, reach, found);
      ScannedMore(start, asked, host.storage.State(), q, after, reach, found, read, scanned.value);
      if start == asked == host.storage.State() {
        if old(host.storage.others) == [] {
          AllMatchMore(start, q, scanAfter, found, read, scanned.value);
        }
      }
      found := scanned.value;
      if |found| <= limit && |rows| < SCAN_BATCH {
        WholePage(start, host.storage.State(), q, limit, after, found);
        assert found + further == found;
        return Ok((found, false)), further;
      }
      assert rows[read - 1] in rows;
      RowsShrink(asked.db, q, scanAfter, rows[read - 1]);
      reach := UpTo(rows[read - 1]);
      scanAfter := Some(rows[read - 1]);
    }
    CutPage(start, host.storage.State(), q, limit, after, reach, found);
    further := found[limit..];
    assert found[..limit] + further == found;
    FurtherItem(start, host.storage.State(), q, after, reach, found, limit);
    return Ok((found[..limit], true)), further;
  }

  lemma RowsAimed(store: Store, q: Query, after: Option<Key>, rows: seq<Key>)
    requires forall k :: k in rows ==> k in Rows(store.db, q, after)
    ensures forall k :: k in rows ==> Aimed(store, q, k)
  {
    hide Rows, Precedes;
    forall k | k in rows
      ensures Aimed(store, q, k)
    {
      RowsExact(store.db, q, after, k);
    }
  }

  lemma NothingMatches(store: Store, q: Query)
    ensures AllMatch(store, q, [])
  {
  }

  lemma FurtherItem(start: Store, end: Store, q: Query, after: Option<Key>, reach: Reach, found: seq<Item>, limit: nat)
    requires TotalOrder(Precedes) && 1 <= limit && |found| == limit + 1 && Scanned(start, end, q, after, reach, found)
    ensures ItemTells(end, q, found[limit]) && Past(after, found[limit].key)
    ensures Precedes(found[limit - 1].key, found[limit].key)
  {
    hide ItemTells, Complete, Precedes, Past;
    assert Keys(found)[limit] == found[limit].key && Keys(found)[limit - 1] == found[limit - 1].key;
    assert Keys(found)[limit] in Keys(found);
  }

  lemma NoRows(db: Db, q: Query, at: Option<Key>)
    requires TotalOrder(Precedes) && First(Rows(db, q, at), Precedes, SCAN_BATCH) == []
    ensures Rows(db, q, at) == {}
  {
    hide Precedes, Rows;
    OrderedExact(Rows(db, q, at), Precedes);
  }

  lemma ScannedTells(start: Store, end: Store, q: Query, after: Option<Key>, reach: Reach, found: seq<Item>)
    requires Scanned(start, end, q, after, reach, found)
    ensures AllTell(end, q, found)
  {
    hide AllTell, Complete, Precedes;
  }

  lemma WholePage(start: Store, end: Store, q: Query, limit: int, after: Option<Key>, items: seq<Item>)
    requires |items| <= limit && Scanned(start, end, q, after, Everything, items)
    ensures PageTells(start, end, q, limit, after, items, false)
  {
    ScannedAscends(start, end, q, after, Everything, items);
    hide Scanned;
    AscendingIsNewestFirst(Keys(items));
  }

  lemma ScannedAscends(start: Store, end: Store, q: Query, after: Option<Key>, reach: Reach, items: seq<Item>)
    requires Scanned(start, end, q, after, reach, items)
    ensures Ascending(Keys(items), Precedes)
  {
    hide AllTell, Complete, Precedes;
  }

  lemma RowsWholesome(store: Store, q: Query, at: Option<Key>)
    requires TotalOrder(Precedes)
    ensures (forall t :: Listed(store.db, t, q) ==> Wholesome(store, t)) ==>
              forall k :: k in First(Rows(store.db, q, at), Precedes, SCAN_BATCH) ==> Wholesome(store, k.taskId)
  {
    hide Wholesome, Listed, Precedes, Rows;
    RowsMembers(store.db, q, at);
    forall k | k in First(Rows(store.db, q, at), Precedes, SCAN_BATCH)
      ensures Listed(store.db, k.taskId, q)
    {
      RowsExact(store.db, q, at, k);
    }
  }
}
