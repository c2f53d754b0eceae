// The extension port: an optimistic read of one namespace's state, and a read-modify-write
// of it under the revision fence.
module Extensions {
  import opened Base
  import opened Json
  import opened Domain
  import opened Tables
  import opened Transactions
  import opened JournalInvariants
  import opened Storage
  import opened Evolution
  import opened Workers
  import opened Snapshots
  import opened HostStorage
  import opened HostKernel
  import opened Admissions
  import opened Answers
  import opened Continuity
  import opened Descriptors
  import opened ExtensionReads
  import T = Transactions
  import Text

  // The state object a pointer names: an object of fields.
  function StateObject(cas: set<Digest>, x: ExtensionRow): Result<map<string, Value>, HostError> {
    if x.stateDigest !in cas then Err(ObjectMissing)
    else
      match Open(x.stateDigest)
      case None => Err(ObjectCorrupt)
      case Some(o) =>
        if o.kind != EXTENSION_STATE_KIND then Err(JournalCorruption)
        else if !o.payload.Obj? then Err(ObjectCorrupt)
        else Ok(o.payload.fields)
  }

  lemma StateObjectExactly(cas: set<Digest>, x: ExtensionRow, fields: map<string, Value>)
    ensures StateObject(cas, x) == Ok(fields) <==>
              x.stateDigest in cas && Open(x.stateDigest) == Some(Opened("host-extension-state", Obj(fields)))
  {
    hide Open;
  }

  // A namespace's state as its pointer tells it; without a pointer the state is empty.
  function StateFields(store: Store, t: string, ns: string): Result<map<string, Value>, HostError> {
    match Pointer(store.db.extensions, t, ns)
    case None => Ok(map[])
    case Some(x) => StateObject(store.cas, x)
  }

  datatype Retained = Retained(pointer: ExtensionRow, owner: EventKind, fields: map<string, Value>)

  datatype NamespaceSnapshot = NamespaceSnapshot(
    ns: string, retained: Option<Retained>, projection: TaskProjection, eventKind: EventKind, payloadDigest: Digest)

  // The kind of the event that owns a pointer.
  function OwnerKind(db: Db, t: string, x: ExtensionRow): Option<EventKind> {
    match EventAt(db, t, x.revision)
    case None => None
    case Some(e) => if e.eventId == x.eventId then Some(e.kind) else None
  }

  ghost predicate RetainedTells(store: Store, t: string, ns: string, r: Option<Retained>) {
    match r
    case None => Pointer(store.db.extensions, t, ns).None?
    case Some(x) =>
      && Pointer(store.db.extensions, t, ns) == Some(x.pointer)
      && StateObject(store.cas, x.pointer) == Ok(x.fields)
      && OwnerKind(store.db, t, x.pointer) == Some(x.owner)
      && x.owner.Extension? && x.owner.ns == ns
      && 1 <= x.pointer.revision <= Revision(store, t)
  }

  lemma PointerOwner(store: Store, t: string, ns: string)
    requires StoreInv(store) && Pointer(store.db.extensions, t, ns).Some?
    ensures var x := Pointer(store.db.extensions, t, ns).value;
            && OwnerKind(store.db, t, x).Some?
            && OwnerKind(store.db, t, x).value.Extension? && OwnerKind(store.db, t, x).value.ns == ns
            && 1 <= x.revision <= Revision(store, t)
            && !x.legacy
  {
    hide StoreInv, HistoryInv, TaskProjection.WellFormed;
    PointerTask(store, t, ns);
    StoreParts(store);
    HistoryLength(store.db, t, Revision(store, t));
  }

  // read_task_extension_state
  method ReadExtensionState(storage: Host, t: string, ns: string) returns (r: Result<Option<Retained>, HostError>)
    requires storage.Valid()
    modifies storage`cas, storage`others, storage.journal
    ensures storage.OnlyRead()
    ensures r.Ok? ==> RetainedTells(storage.State(), t, ns, r.value)
    ensures r != Err(HostExtensionError)
    ensures !IsNamespace(ns) ==> r == Err(ValueError)
    ensures IsNamespace(ns) && StateFields(storage.State(), t, ns).Ok? ==> r.Ok?
  {
    hide StoreInv, Evolves, OwnerKind;
    EvolvesReflexive(storage.State());
    if !IsNamespace(ns) {
      return Err(ValueError);
    }
    storage.Yield();
    var key := ExtensionKey(t, ns);
    if key !in storage.journal.extensions {
      return Ok(None);
    }
    var pointer := storage.journal.extensions[key];
    PointerOwner(storage.State(), t, ns);
    if pointer.legacy {
      return Err(JournalCorruption);
    }
    var owner := OwnerKind(storage.journal.View(), t, pointer);
    var fields := StateObject(storage.cas, pointer);
    match fields
    case Err(e) => return Err(e);
    case Ok(data) => return Ok(Some(Retained(pointer, owner.value, data)));
  }

  lemma BetweenEqualHeads(s1: Store, s2: Store, t: string, b: int, a: int)
    requires StoreInv(s1) && StoreInv(s2) && Evolves(s1, s2)
    requires b <= Revision(s1, t) && Revision(s2, t) <= a && a == b
    ensures Revision(s1, t) == Revision(s2, t) == a
  {
    hide StoreInv, Evolves;
    RevisionMonotone(s1, s2, t);
  }

  lemma RetainedBound(store: Store, t: string, ns: string, r: Option<Retained>)
    requires RetainedTells(store, t, ns, r) && r.Some?
    ensures 1 <= r.value.pointer.revision <= Revision(store, t)
  {
  }

  // What a namespace snapshot says: the namespace's state at the projection's revision.
  ghost predicate SnapshotTells(at: Store, after: Store, t: string, ns: string, s: NamespaceSnapshot) {
    && StoreInv(at) && Evolves(at, after)
    && s.ns == ns
    && Revision(at, t) == s.projection.revision
    && RetainedTells(at, t, ns, s.retained)
    && SnapshotAt(after.db, t, s.projection.revision) ==
       Some(TaskEventSnapshot(s.eventKind, Head(after, t, s.projection.revision).data, s.projection, s.payloadDigest))
  }

  // One attempt: the head, the pointer, the head again; None asks for another.
  method TryNamespaceSnapshot(storage: Host, t: string, ns: string, expectedRevision: Option<int>)
    returns (r: Result<Option<NamespaceSnapshot>, HostError>, ghost at: Store)
    requires storage.Valid()
    modifies storage`cas, storage`others, storage.journal
    ensures storage.OnlyRead()
    ensures Evolves(old(storage.State()), at)
    ensures r.Ok? && r.value.Some? ==>
              && SnapshotTells(at, storage.State(), t, ns, r.value.value)
              && (expectedRevision.Some? ==> r.value.value.projection.revision == expectedRevision.value)
    ensures r == Ok(None) ==> Revision(storage.State(), t) > Revision(old(storage.State()), t)
    ensures r != Err(HostExtensionError)
    ensures old(storage.others) == [] && t in old(storage.State()).db.projections && IsNamespace(ns)
            && StateFields(old(storage.State()), t, ns).Ok?
            && (expectedRevision.Some? ==> expectedRevision.value == Revision(old(storage.State()), t))
            ==> r.Ok? && r.value.Some?
  {
    hide StoreInv, Evolves, SnapshotAt, StateFields, RetainedTells, IsNamespace;
    ghost var start := storage.State();
    EvolvesReflexive(start);
    at := start;
    var before := storage.ReadTaskEvent(t);
    ghost var first := storage.State();
    if before.Err? {
      return Err(before.error), at;
    }
    if expectedRevision.Some? && before.value.projection.revision != expectedRevision.value {
      return Err(TaskRevisionMismatch), at;
    }
    var retained := ReadExtensionState(storage, t, ns);
    at := storage.State();
    EvolvesTransitive(start, first, at);
    if retained.Err? {
      return Err(retained.error), at;
    }
    var after := storage.ReadTaskEvent(t);
    EvolvesTransitive(start, at, storage.State());
    RevisionMonotone(start, first, t);
    RevisionMonotone(first, at, t);
    RevisionMonotone(at, storage.State(), t);
    match after
    case Err(e) => return Err(e), at;
    case Ok(head) =>
      if before.value.projection.revision != head.projection.revision {
        return Ok(None), at;
      }
      BetweenEqualHeads(first, at, t, before.value.projection.revision, head.projection.revision);
      if retained.value.Some? {
        RetainedBound(at, t, ns, retained.value);
      }
      ToldIsHead(storage.State(), t, head);
      var s := NamespaceSnapshot(ns, retained.value, head.projection, head.kind, head.payloadDigest);
      return Ok(if retained.value.Some? && retained.value.value.pointer.revision > s.projection.revision then None else Some(s)), at;
  }

  // load_namespace_snapshot: at most three attempts. Whatever commits in between, what is
  // returned is the namespace's state at the returned revision.
  method LoadNamespaceSnapshot(storage: Host, t: string, ns: string, expectedRevision: Option<int>)
    returns (r: Result<NamespaceSnapshot, HostError>, ghost at: Store, ghost attempts: nat)
    requires storage.Valid()
    modifies storage`cas, storage`others, storage.journal
    ensures storage.OnlyRead() && attempts <= 3
    ensures r.Ok? ==>
              && Evolves(old(storage.State()), at)
              && SnapshotTells(at, storage.State(), t, ns, r.value)
              && (expectedRevision.Some? ==> r.value.projection.revision == expectedRevision.value)
    ensures expectedRevision.Some? && expectedRevision.value < 1 ==> r == Err(ValueError)
    // It gives up only on a task that moved on at least three times during the call.
    ensures r == Err(HostExtensionError) ==> Revision(storage.State(), t) >= Revision(old(storage.State()), t) + 3
    ensures old(storage.others) == [] && t in old(storage.State()).db.projections && IsNamespace(ns)
            && StateFields(old(storage.State()), t, ns).Ok?
            && (expectedRevision.Some? ==> 1 <= expectedRevision.value == Revision(old(storage.State()), t))
            ==> r.Ok? && attempts == 1
  {
    hide StoreInv, Evolves, SnapshotTells, IsNamespace, StateFields;
    ghost var start := storage.State();
    EvolvesReflexive(start);
    at, attempts := start, 0;
    if expectedRevision.Some? && expectedRevision.value < 1 {
      return Err(ValueError), at, attempts;
    }
    if ns == "" {
      NoNamespace();
      return Err(ValueError), at, attempts;
    }
    var attempt := 0;
    while attempt < 3
      invariant attempts == attempt <= 3
      invariant storage.OnlyRead()
      invariant attempt == 0 ==> storage.State() == start
      invariant Revision(storage.State(), t) >= Revision(start, t) + attempt
      invariant attempt > 0 && old(storage.others) == [] && t in start.db.projections && IsNamespace(ns)
                && StateFields(start, t, ns).Ok?
                && (expectedRevision.Some? ==> expectedRevision.value == Revision(start, t))
                ==> false
    {
      ghost var earlier := storage.State();
      attempt, attempts := attempt + 1, attempts + 1;
      var tried, met := TryNamespaceSnapshot(storage, t, ns, expectedRevision);
      at := met;
      EvolvesTransitive(start, earlier, storage.State());
      EvolvesTransitive(start, earlier, at);
      if tried.Err? {
        return Err(tried.error), at, attempts;
      }
      if tried.value.Some? {
        return Ok(tried.value.value), at, attempts;
      }
    }
    return Err(HostExtensionError), at, attempts;
  }

  function Head(store: Store, t: string, revision: int): TaskEventSnapshot {
    match SnapshotAt(store.db, t, revision)
    case Some(s) => s
    case None => TaskEventSnapshot(Core(TaskCreated), Null, TaskProjection(t, "", Failed, None, [], revision, 0), Digest(Null))
  }

  lemma ToldIsHead(store: Store, t: string, s: TaskEventSnapshot)
    requires Told(store, t, s)
    ensures SnapshotAt(store.db, t, s.projection.revision) ==
            Some(TaskEventSnapshot(s.kind, Head(store, t, s.projection.revision).data, s.projection, s.payloadDigest))
  {
  }

  lemma NoNamespace()
    ensures !IsNamespace("")
  {
  }

  // ---- append_preserving ----

  // Removed fields go, then updates are laid over what is left.
  function Merged(fields: map<string, Value>, removed: set<string>, updates: map<string, Value>): map<string, Value> {
    (fields - removed) + updates
  }

  // Two states merge to one result exactly when they agree on every field the request does
  // not name; so a read-modify-write of an older state is right exactly then.
  lemma SameMergeIff(a: map<string, Value>, b: map<string, Value>, removed: set<string>, updates: map<string, Value>)
    ensures Merged(a, removed, updates) == Merged(b, removed, updates)
            <==> a - removed - updates.Keys == b - removed - updates.Keys
  {
    var x, y := a - removed - updates.Keys, b - removed - updates.Keys;
    var m, n := Merged(a, removed, updates), Merged(b, removed, updates);
    assert x == m - updates.Keys && y == n - updates.Keys;
    if x == y {
      assert m == x + updates && n == y + updates;
    }
  }

  datatype AppendCall = AppendCall(
    taskId: string,
    expectedRevision: int,
    eventId: string,
    ns: string,
    name: string,
    updates: map<string, Value>,
    removed: seq<string>,
    referenced: seq<StoredObject>,
    state: Option<TaskState>,
    frontier: Option<seq<string>>,
    acquireMs: int,
    commitMs: int)

  function RemovedSet(c: AppendCall): set<string> {
    set f | f in c.removed
  }

  function StateStored(fields: map<string, Value>, c: AppendCall): StoredObject {
    Described(EXTENSION_STATE_KIND, Obj(Merged(fields, RemovedSet(c), c.updates)))
  }

  predicate CallValid(c: AppendCall) {
    && (forall i, j :: 0 <= i < j < |c.removed| ==> c.removed[i] != c.removed[j])
    && RemovedSet(c) !! c.updates.Keys
  }

  // The objects without repetition; one digest with two descriptions is an error.
  method Dedupe(values: seq<StoredObject>) returns (r: Result<seq<StoredObject>, HostError>)
    ensures r.Ok? <==> (forall a, b :: a in values && b in values && a.digest == b.digest ==> a == b)
    ensures r.Ok? ==>
              && (forall o :: o in r.value <==> o in values)
              && (forall i, j :: 0 <= i < j < |r.value| ==> r.value[i].digest != r.value[j].digest)
    ensures r.Err? ==> r.error == HostExtensionError
  {
    var kept: seq<StoredObject> := [];
    var n := 0;
    while n < |values|
      invariant 0 <= n <= |values|
      invariant forall o :: o in kept <==> o in values[..n]
      invariant forall i, j :: 0 <= i < j < |kept| ==> kept[i].digest != kept[j].digest
    {
      var v := values[n];
      assert values[..n + 1] == values[..n] + [v];
      if exists o :: o in kept && o.digest == v.digest && o != v {
        var o :| o in kept && o.digest == v.digest && o != v;
        assert o in values[..n];
        return Err(HostExtensionError);
      }
      if v !in kept {
        kept := kept + [v];
      }
      n := n + 1;
    }
    assert values[..n] == values;
    forall a, b | a in values && b in values && a.digest == b.digest
      ensures a == b
    {
      var i, j :| 0 <= i < |kept| && kept[i] == a && 0 <= j < |kept| && kept[j] == b;
      assert i == j;
    }
    return Ok(kept);
  }

  // Every retained object is checked against the store that will hold the event.
  method InspectAll(storage: Host, values: seq<StoredObject>) returns (owned: bool)
    requires storage.Valid()
    modifies storage`cas, storage`others, storage.journal
    ensures storage.OnlyRead()
    ensures owned ==> AllAvailable(storage.State(), values)
    ensures AllAvailable(old(storage.State()), values) ==> owned
  {
    hide StoreInv, Evolves;
    ghost var start := storage.State();
    EvolvesReflexive(start);
    var n := 0;
    while n < |values|
      invariant 0 <= n <= |values|
      invariant storage.OnlyRead()
      invariant AllAvailable(storage.State(), values[..n])
    {
      ghost var before := storage.State();
      storage.Yield();
      EvolvesTransitive(start, before, storage.State());
      AllAvailableStable(before, storage.State(), values[..n]);
      AllAvailableStable(start, storage.State(), values);
      if !Available(Store(storage.journal.View(), storage.cas), values[n]) {
        return false;
      }
      assert values[..n + 1] == values[..n] + [values[n]];
      n := n + 1;
    }
    assert values[..n] == values;
    return true;
  }

  lemma AllAvailableStable(before: Store, after: Store, values: seq<StoredObject>)
    requires Evolves(before, after)
    ensures AllAvailable(before, values) ==> AllAvailable(after, values)
  {
  }

  // What the call reads before it locks: the head, then the namespace's state.
  method ReadBeforeLock(storage: Host, c: AppendCall)
    returns (r: Result<(TaskEventSnapshot, map<string, Value>), HostError>)
    requires storage.Valid()
    modifies storage`cas, storage`others, storage.journal
    ensures storage.OnlyRead()
    ensures r.Ok? ==>
              && Told(storage.State(), c.taskId, r.value.0) && r.value.0.data.Obj?
              && Revision(old(storage.State()), c.taskId) <= r.value.0.projection.revision <= Revision(storage.State(), c.taskId)
              && StateFields(storage.State(), c.taskId, c.ns) == Ok(r.value.1)
    ensures old(storage.others) == [] && ReadableFor(old(storage.State()), c) ==> r.Ok?
  {
    hide StoreInv, Evolves, SnapshotAt, StateFields, RetainedTells, IsNamespace;
    ghost var start := storage.State();
    var current := storage.ReadTaskEvent(c.taskId);
    ghost var first := storage.State();
    match current
    case Err(e) => return Err(e);
    case Ok(snapshot) =>
      if !snapshot.data.Obj? {
        return Err(HostExtensionError);
      }
      var retained := ReadExtensionState(storage, c.taskId, c.ns);
      EvolvesTransitive(start, first, storage.State());
      ToldStable(first, storage.State(), c.taskId, snapshot);
      RevisionMonotone(first, storage.State(), c.taskId);
      if retained.Err? {
        return Err(retained.error);
      }
      RetainedFields(storage.State(), c.taskId, c.ns, retained.value);
      return Ok((snapshot, if retained.value.None? then map[] else retained.value.value.fields));
  }

  lemma RetainedFields(store: Store, t: string, ns: string, r: Option<Retained>)
    requires RetainedTells(store, t, ns, r)
    ensures StateFields(store, t, ns) == Ok(if r.None? then map[] else r.value.fields)
  {
  }

  ghost predicate ReadableFor(store: Store, c: AppendCall) {
    && c.taskId in store.db.projections
    && IsNamespace(c.ns)
    && StateFields(store, c.taskId, c.ns).Ok?
    && SnapshotAt(store.db, c.taskId, Revision(store, c.taskId)).Some?
    && SnapshotAt(store.db, c.taskId, Revision(store, c.taskId)).value.data.Obj?
  }

  // The state object, and every object the event will retain.
  method PutState(storage: Host, c: AppendCall, fields: map<string, Value>)
    returns (r: Result<(StoredObject, seq<StoredObject>), HostError>)
    requires storage.Valid()
    modifies storage`cas, storage`others, storage`mine, storage.journal
    ensures storage.Advanced() && old(storage.mine) <= storage.mine
    ensures NoAppendSince(storage.mine, |old(storage.mine)|)
    ensures r.Ok? ==>
              && r.value.0 == StateStored(fields, c)
              && AllAvailable(storage.State(), r.value.1)
              && r.value.0 in r.value.1
              && (forall o :: o in r.value.1 <==> o in c.referenced || o == r.value.0)
    ensures old(storage.others) == [] ==> storage.State().db == old(storage.State()).db
    ensures old(storage.others) == [] && AllAvailable(old(storage.State()), c.referenced) ==> r.Ok?
  {
    hide StoreInv, Evolves, Disciplined, Described, Merged, Perform, Available;
    ghost var start := storage.State();
    var merged := Obj(Merged(fields, RemovedSet(c), c.updates));
    var stateObject := storage.PutObject(EXTENSION_STATE_KIND, merged);
    ghost var written := storage.State();
    PutKeepsDb(start, EXTENSION_STATE_KIND, merged);
    var retained := Dedupe(c.referenced + [stateObject]);
    if AllAvailable(start, c.referenced) {
      AllAvailableStable(start, written, c.referenced);
      AvailableAgree(written, c.referenced + [stateObject]);
    }
    match retained
    case Err(e) => return Err(e);
    case Ok(values) =>
      var owned := InspectAll(storage, values);
      EvolvesTransitive(start, written, storage.State());
      if !owned {
        return Err(HostExtensionError);
      }
      return Ok((stateObject, values));
  }

  lemma AvailableAgree(store: Store, values: seq<StoredObject>)
    requires AllAvailable(store, values)
    ensures forall a, b :: a in values && b in values && a.digest == b.digest ==> a == b
  {
    forall a, b | a in values && b in values && a.digest == b.digest
      ensures a == b
    {
      GenuineAgree(a, b);
    }
  }

  // The payload keeps the head's data, less the removed fields, under the new state.
  function ExtensionDraft(
    c: AppendCall, head: map<string, Value>, fields: map<string, Value>, stateObject: StoredObject,
    retained: seq<StoredObject>, locked: TaskProjection): Draft
  {
    Draft(c.eventId, Extension(c.ns, c.name), Obj((head - RemovedSet(c)) + Merged(fields, RemovedSet(c), c.updates)),
          Transition(Some(locked.state), Some(locked.readyFrontier), None), None, retained,
          Some(ExtensionState(c.ns, stateObject)))
  }

  lemma AcceptedPointer(met: Store, r: Record, x: ExtensionState)
    requires AppendTaskEvent(met.db, RecordRequest(r)).result.Ok? && r.extension == Some(x)
    ensures var after := Perform(met, Append(r));
            && Pointer(after.db.extensions, r.projection.taskId, x.ns) ==
               Some(ExtensionRow(x.stored.digest, r.eventId, r.projection.revision, false))
            && (forall ns :: ns != x.ns ==>
                  Pointer(after.db.extensions, r.projection.taskId, ns) == Pointer(met.db.extensions, r.projection.taskId, ns))
  {
    if AppendTaskEvent(met.db, RecordRequest(r)).result == Ok(Created) {
      CreatedMeansAppended(met.db, RecordRequest(r));
    }
  }

  // After the commit: the namespace's pointer names the merged state at the next revision,
  // and state and frontier are those of the expected one.
  ghost predicate ExtensionRecorded(committed: Store, c: AppendCall, fields: map<string, Value>) {
    && Pointer(committed.db.extensions, c.taskId, c.ns) ==
       Some(ExtensionRow(StateStored(fields, c).digest, c.eventId, c.expectedRevision + 1, false))
    && StateFields(committed, c.taskId, c.ns) == Ok(Merged(fields, RemovedSet(c), c.updates))
    && SnapshotAt(committed.db, c.taskId, c.expectedRevision).Some?
    && SnapshotAt(committed.db, c.taskId, c.expectedRevision + 1).Some?
    && var before, after := SnapshotAt(committed.db, c.taskId, c.expectedRevision).value.projection,
                            SnapshotAt(committed.db, c.taskId, c.expectedRevision + 1).value.projection;
       before.state == after.state && before.readyFrontier == after.readyFrontier
  }

  // The stored state: updates as given, what was read and not named kept, and nothing else.
  ghost predicate StateLaid(state: map<string, Value>, read: map<string, Value>, c: AppendCall) {
    && (forall f :: f in c.updates ==> f in state && state[f] == c.updates[f])
    && (forall f :: f in read && f !in c.removed && f !in c.updates ==> f in state && state[f] == read[f])
    && (forall f :: f in state ==> f in c.updates || (f in read && f !in c.removed))
  }

  // The event's data: the stored state over the head's data, less the removed fields, and
  // nothing else.
  ghost predicate DataLaid(data: map<string, Value>, state: map<string, Value>, head: map<string, Value>, c: AppendCall) {
    && (forall f :: f in state ==> f in data && data[f] == state[f])
    && (forall f :: f in head && f !in state && f !in c.removed ==> f in data && data[f] == head[f])
    && (forall f :: f in data ==> f in state || (f in head && f !in c.removed))
  }

  // The event at the next revision preserves the data of the head that was read.
  ghost predicate Preserved(committed: Store, c: AppendCall, head: map<string, Value>, read: map<string, Value>) {
    && StateFields(committed, c.taskId, c.ns).Ok?
    && StateLaid(StateFields(committed, c.taskId, c.ns).value, read, c)
    && SnapshotAt(committed.db, c.taskId, c.expectedRevision + 1).Some?
    && var event := SnapshotAt(committed.db, c.taskId, c.expectedRevision + 1).value;
    && event.kind == Extension(c.ns, c.name)
    && event.data.Obj?
    && DataLaid(event.data.fields, StateFields(committed, c.taskId, c.ns).value, head, c)
  }

  // The event's edges name every object the call references, and the stored state.
  ghost predicate Retains(committed: Store, c: AppendCall) {
    && Pointer(committed.db.extensions, c.taskId, c.ns).Some?
    && Pointer(committed.db.extensions, c.taskId, c.ns).value.stateDigest in EdgesOf(committed.db, c.eventId)
    && forall o :: o in c.referenced ==> o.digest in EdgesOf(committed.db, c.eventId)
  }

  lemma AcceptedEdges(met: Store, r: Record)
    requires StoreInv(met) && AppendTaskEvent(met.db, RecordRequest(r)).result.Ok?
    ensures forall o :: o in r.referenced ==> o.digest in EdgesOf(Perform(met, Append(r)).db, r.eventId)
  {
    hide AppendTaskEvent, StreamInv, HistoryInv, PayloadJson, Preflight, AdmissionRefusal;
    StoreParts(met);
    var a := RecordRequest(r);
    match AppendTaskEvent(met.db, a).result.value
    case Created => CreatedWrites(met.db, a);
    case Existing =>
      ExistingIsRecorded(met.db, a);
      var i := FindEvent(met.db.events, a.event.eventId).value;
      ExistingExactly(met.db, a, i);
  }

  lemma RecordPreserves(committed: Store, c: AppendCall, head: map<string, Value>, fields: map<string, Value>)
    requires ExtensionRecorded(committed, c, fields)
    requires var s := SnapshotAt(committed.db, c.taskId, c.expectedRevision + 1).value;
             s.kind == Extension(c.ns, c.name)
             && s.data == Obj((head - RemovedSet(c)) + Merged(fields, RemovedSet(c), c.updates))
    ensures Preserved(committed, c, head, fields)
  {
    hide StateFields, SnapshotAt, StateStored;
  }

  ghost predicate OthersKept(met: Store, committed: Store, c: AppendCall) {
    forall ns :: ns != c.ns ==>
      Pointer(committed.db.extensions, c.taskId, ns) == Pointer(met.db.extensions, c.taskId, ns)
  }

  lemma StoredFieldsRead(store: Store, c: AppendCall, fields: map<string, Value>, x: ExtensionRow)
    requires Pointer(store.db.extensions, c.taskId, c.ns) == Some(x)
    requires x.stateDigest == StateStored(fields, c).digest && x.stateDigest in store.cas
    ensures StateFields(store, c.taskId, c.ns) == Ok(Merged(fields, RemovedSet(c), c.updates))
  {
    hide Open, Merged;
    assert Text.IsLabel(EXTENSION_STATE_KIND);
    OpenAddress(EXTENSION_STATE_KIND, Obj(Merged(fields, RemovedSet(c), c.updates)));
  }

  lemma RecordedExtension(
    met: Store, r: Record, c: AppendCall, head: map<string, Value>, fields: map<string, Value>,
    retained: seq<StoredObject>, lease: LeaseRecord, locked: TaskEventSnapshot, clockMs: int)
    requires StoreInv(met) && AppendTaskEvent(met.db, RecordRequest(r)).result.Ok? && Disciplined(met, Append(r))
    requires Told(met, c.taskId, locked) && locked.projection.revision == c.expectedRevision
    requires var d := ExtensionDraft(c, head, fields, StateStored(fields, c), retained, locked.projection);
             && NextProjection(locked.projection, d.transition, clockMs).Ok?
             && r == Drafted(lease, locked.projection, d, NextProjection(locked.projection, d.transition, clockMs).value)
    requires forall o :: o in retained <==> o in c.referenced || o == StateStored(fields, c)
    ensures ExtensionRecorded(Perform(met, Append(r)), c, fields)
    ensures Preserved(Perform(met, Append(r)), c, head, fields)
    ensures Retains(Perform(met, Append(r)), c)
    ensures OthersKept(met, Perform(met, Append(r)), c)
    ensures AppendTaskEvent(met.db, RecordRequest(r)).result == Ok(Created) ==> Revision(met, c.taskId) == c.expectedRevision
  {
    hide StoreInv, AppendTaskEvent, SnapshotAt, Evolves, Merged, PayloadJson, StateFields, Preserved;
    if AppendTaskEvent(met.db, RecordRequest(r)).result == Ok(Created) {
      CreatedAt(met, r);
    }
    AcceptedSnapshot(met, r);
    AcceptedPointer(met, r, ExtensionState(c.ns, StateStored(fields, c)));
    AppendEvolves(met, r);
    SnapshotStable(met, Perform(met, Append(r)), c.taskId, c.expectedRevision);
    assert StateStored(fields, c) in r.referenced;
    AcceptedEdges(met, r);
    StoredFieldsRead(Perform(met, Append(r)), c, fields,
                     ExtensionRow(StateStored(fields, c).digest, c.eventId, c.expectedRevision + 1, false));
    RecordPreserves(Perform(met, Append(r)), c, head, fields);
  }

  function LockExpectation(c: AppendCall, head: TaskProjection): Expected {
    Expected(Some(c.expectedRevision),
             if c.state.Some? then c.state else Some(head.state),
             if c.frontier.Some? then c.frontier else Some(head.readyFrontier))
  }

  // What the locked half needs, when nobody else acts, to be admitted as new.
  ghost predicate Lockable(db: Db, c: AppendCall, x: Expected, ownerId: string, ttlMs: int) {
    && c.taskId in db.projections
    && var p := db.projections[c.taskId];
       var next := NextProjection(p, Transition(Some(p.state), Some(p.readyFrontier), None), c.commitMs);
    && p.revision == c.expectedRevision >= 1
    && Unmet(p, x).None?
    && T.AcquireLease(db, c.taskId, ownerId, c.acquireMs, ttlMs).result.Ok?
    && next.Ok? && next.value.updatedAtMs < c.acquireMs + ttlMs
    && FindEvent(db.events, c.eventId).None?
    && (forall i :: 0 <= i < |c.referenced| ==> c.referenced[i].kind != EVENT_OBJECT_KIND)
  }

  lemma LockableLocks(db: Db, c: AppendCall, x: Expected, ownerId: string, ttlMs: int)
    requires Lockable(db, c, x, ownerId, ttlMs)
    ensures c.taskId in db.projections && Unmet(db.projections[c.taskId], x).None?
    ensures T.AcquireLease(db, c.taskId, ownerId, c.acquireMs, ttlMs).result.Ok?
  {
    hide T.AcquireLease, NextProjection, Unmet;
  }

  lemma KindOfAddress(o: StoredObject, payload: Value)
    requires Genuine(o) && o.kind != EVENT_OBJECT_KIND
    ensures o.digest != Address(EVENT_OBJECT_KIND, payload)
  {
    AddressKinds(o.kind, Open(o.digest).value.payload, EVENT_OBJECT_KIND, payload);
  }

  lemma LockedIsCurrent(met: Store, t: string, s: TaskEventSnapshot)
    requires StoreInv(met) && Told(met, t, s) && t in met.db.projections
    requires s.projection.revision == met.db.projections[t].revision
    ensures s.projection == met.db.projections[t]
  {
    hide StoreInv, SnapshotAt;
    HeadSnapshot(met, t);
  }

  lemma RetainedDiffer(met: Store, c: AppendCall, r: Record, stateObject: StoredObject)
    requires Disciplined(met, Append(r))
    requires forall o :: o in r.referenced ==> o in c.referenced || o == stateObject
    requires stateObject.kind == EXTENSION_STATE_KIND
    requires forall i :: 0 <= i < |c.referenced| ==> c.referenced[i].kind != EVENT_OBJECT_KIND
    ensures forall i :: 0 <= i < |r.referenced| ==> r.referenced[i].digest != Address(EVENT_OBJECT_KIND, PayloadJson(r))
  {
    hide PayloadJson, Open;
    forall i | 0 <= i < |r.referenced|
      ensures r.referenced[i].digest != Address(EVENT_OBJECT_KIND, PayloadJson(r))
    {
      var o := r.referenced[i];
      assert o in r.referenced;
      if o in c.referenced {
        var j :| 0 <= j < |c.referenced| && c.referenced[j] == o;
      }
      KindOfAddress(o, PayloadJson(r));
    }
  }

  lemma LockableCommits(
    start: Db, met: Store, c: AppendCall, x: Expected, ownerId: string, ttlMs: int, lease: LeaseRecord,
    locked: TaskEventSnapshot, d: Draft, stateObject: StoredObject)
    requires StoreInv(met) && Lockable(start, c, x, ownerId, ttlMs)
    requires TookLease(start, met.db, c, ownerId, ttlMs, lease)
    requires Told(met, c.taskId, locked) && locked.projection.revision == c.expectedRevision
    requires d.transition == Transition(Some(locked.projection.state), Some(locked.projection.readyFrontier), None)
    requires d.eventId == c.eventId && d.kind == Extension(c.ns, c.name) && d.causedBy.None?
    requires d.extension == Some(ExtensionState(c.ns, stateObject)) && stateObject.kind == EXTENSION_STATE_KIND
    requires stateObject in d.referenced && forall o :: o in d.referenced ==> o in c.referenced || o == stateObject
    requires NextProjection(locked.projection, d.transition, c.commitMs).Ok? ==>
               Disciplined(met, Append(Drafted(lease, locked.projection, d,
                                               NextProjection(locked.projection, d.transition, c.commitMs).value)))
    ensures NextProjection(locked.projection, d.transition, c.commitMs).Ok?
    ensures T.AppendTaskEvent(met.db, RecordRequest(Drafted(lease, locked.projection, d,
              NextProjection(locked.projection, d.transition, c.commitMs).value))).result == Ok(Created)
  {
    hide StoreInv, T.AppendTaskEvent, SnapshotAt, PayloadJson, Disciplined, NextProjection, T.AcquireLease, Unmet;
    AcquireEffect(start, c.taskId, ownerId, c.acquireMs, ttlMs);
    LockedIsCurrent(met, c.taskId, locked);
    var next := NextProjection(locked.projection, d.transition, c.commitMs).value;
    NextOfRequest(locked.projection, d.transition, c.commitMs, next);
    NextNotNegative(locked.projection, d.transition, c.commitMs, next);
    var r := Drafted(lease, locked.projection, d, next);
    RetainedDiffer(met, c, r, stateObject);
    UnopposedAppendSucceeds(met, r);
  }

  lemma NextNotNegative(p: TaskProjection, t: Transition, clock: int, next: TaskProjection)
    requires NextProjection(p, t, clock) == Ok(next)
    ensures next.updatedAtMs >= 0
  {
  }

  // The body of the locked transition. `unlocked` is the database before the lease.
  method CommitExtension(
    kernel: Kernel, locked: LockedTask, c: AppendCall, head: TaskEventSnapshot, fields: map<string, Value>,
    stateObject: StoredObject, retained: seq<StoredObject>, ghost unlocked: Db)
    returns (r: Result<Receipt, HostError>, ghost met: Store)
    requires kernel.storage.Valid() && head.data.Obj? && !locked.committed
    requires Told(kernel.storage.State(), c.taskId, locked.snapshot)
    requires locked.snapshot.projection.revision == c.expectedRevision
    requires stateObject == StateStored(fields, c) && AllAvailable(kernel.storage.State(), retained)
    requires forall o :: o in retained <==> o in c.referenced || o == stateObject
    modifies locked, kernel.storage`cas, kernel.storage`others, kernel.storage`mine, kernel.storage.journal
    ensures kernel.storage.Advanced() && old(kernel.storage.mine) <= kernel.storage.mine
    ensures r.Ok? ==> CommittedOn(old(kernel.storage.State()), met, kernel.storage.State(), c, fields)
    ensures r.Ok? ==> Preserved(kernel.storage.State(), c, head.data.fields, fields) && Retains(kernel.storage.State(), c)
    ensures r.Ok? && r.value.admission == Created ==> Revision(met, c.taskId) == c.expectedRevision
    ensures old(kernel.storage.others) == []
            && Lockable(unlocked, c, LockExpectation(c, head.projection), kernel.ownerId, kernel.leaseTtlMs)
            && TookLease(unlocked, old(kernel.storage.State()).db, c, kernel.ownerId, kernel.leaseTtlMs, locked.lease)
            ==> r.Ok? && r.value.admission == Created
  {
    hide StoreInv, Evolves, Told, Unmet, T.AcquireLease, T.AppendTaskEvent, NextProjection, Lockable, Committable, LockExpectation;
    hide ExtensionRecorded, OthersKept, StateStored, ExtensionDraft, PayloadJson, Disciplined, Revision, AllAvailable, Drafted;
    hide Preserved, Carries, Retains;
    hide RecordRequest, Perform, Available, SnapshotAt, TookLease;
    ghost var entered := kernel.storage.State();
    met := entered;
    ghost var x := LockExpectation(c, head.projection);
    ghost var free := Lockable(unlocked, c, x, kernel.ownerId, kernel.leaseTtlMs);
    ToldTask(entered, c.taskId, locked.snapshot);
    var draft := ExtensionDraft(c, head.data.fields, fields, stateObject, retained, locked.snapshot.projection);
    DraftParts(c, head.data.fields, fields, stateObject, retained, locked.snapshot.projection);
    r := kernel.Commit(locked, draft, c.commitMs);
    ghost var next := NextProjection(locked.snapshot.projection, draft.transition, c.commitMs);
    if next.Ok? {
      ghost var record := Drafted(locked.lease, locked.snapshot.projection, draft, next.value);
      met := kernel.storage.mine[|kernel.storage.mine| - 1].store;
      ToldStable(entered, met, c.taskId, locked.snapshot);
      PutKeepsDb(entered, EVENT_OBJECT_KIND, PayloadJson(record));
      if free && TookLease(unlocked, met.db, c, kernel.ownerId, kernel.leaseTtlMs, locked.lease) {
        LockableCommits(unlocked, met, c, x, kernel.ownerId, kernel.leaseTtlMs, locked.lease, locked.snapshot, draft, stateObject);
      }
      if r.Ok? {
        RecordedExtension(met, record, c, head.data.fields, fields, retained, locked.lease, locked.snapshot, c.commitMs);
      }
    } else if free && TookLease(unlocked, entered.db, c, kernel.ownerId, kernel.leaseTtlMs, locked.lease) {
      LockableNext(unlocked, entered, c, x, kernel.ownerId, kernel.leaseTtlMs, locked.lease, locked.snapshot, draft.transition);
    }
  }

  // The database right after the lease was taken.
  ghost predicate TookLease(unlocked: Db, db: Db, c: AppendCall, ownerId: string, ttlMs: int, lease: LeaseRecord) {
    var out := T.AcquireLease(unlocked, c.taskId, ownerId, c.acquireMs, ttlMs);
    db == out.db && out.result == Ok(lease)
  }

  // A commit met a store that other writers may have moved first.
  ghost predicate CommittedOn(start: Store, met: Store, committed: Store, c: AppendCall, fields: map<string, Value>) {
    && StoreInv(met) && Evolves(start, met) && Evolves(met, committed)
    && ExtensionRecorded(committed, c, fields) && OthersKept(met, committed, c)
  }

  lemma CommittedLater(start: Store, entered: Store, met: Store, committed: Store, c: AppendCall, fields: map<string, Value>)
    requires Evolves(start, entered) && CommittedOn(entered, met, committed, c, fields)
    ensures CommittedOn(start, met, committed, c, fields)
  {
    hide StoreInv, Evolves, ExtensionRecorded, OthersKept;
    EvolvesTransitive(start, entered, met);
  }

  // The task had the state and the frontier asked for, or those of the head that was read.
  ghost predicate ExpectationMet(committed: Store, c: AppendCall, head: TaskProjection) {
    && SnapshotAt(committed.db, c.taskId, c.expectedRevision).Some?
    && var p := SnapshotAt(committed.db, c.taskId, c.expectedRevision).value.projection;
    && p.state == (if c.state.Some? then c.state.value else head.state)
    && p.readyFrontier == (if c.frontier.Some? then c.frontier.value else head.readyFrontier)
  }

  lemma LockedMet(entered: Store, committed: Store, c: AppendCall, head: TaskProjection, locked: TaskEventSnapshot)
    requires StoreInv(entered) && StoreInv(committed) && Evolves(entered, committed) && Told(entered, c.taskId, locked)
    requires locked.projection.revision == c.expectedRevision
    requires c.state.Some? ==> locked.projection.state == c.state.value
    requires c.state.None? ==> locked.projection.state == head.state
    requires c.frontier.Some? ==> locked.projection.readyFrontier == c.frontier.value
    requires c.frontier.None? ==> locked.projection.readyFrontier == head.readyFrontier
    ensures ExpectationMet(committed, c, head)
  {
    hide StoreInv, Evolves, SnapshotAt;
    SnapshotStable(entered, committed, c.taskId, c.expectedRevision);
  }

  lemma CommittedAhead(start: Store, met: Store, committed: Store, c: AppendCall, fields: map<string, Value>)
    requires StoreInv(committed) && CommittedOn(start, met, committed, c, fields)
    ensures Revision(committed, c.taskId) > c.expectedRevision
  {
    hide StoreInv, Evolves, SnapshotAt, OthersKept, StateFields, StateStored;
    SnapshotNeedsEvent(committed.db, c.taskId, c.expectedRevision + 1);
    EventsUpToHead(committed, c.taskId, c.expectedRevision + 1);
  }

  // The `with locked_task` block.
  method LockedExtension(
    kernel: Kernel, c: AppendCall, head: TaskEventSnapshot, fields: map<string, Value>, stateObject: StoredObject,
    retained: seq<StoredObject>)
    returns (r: Result<Receipt, HostError>, ghost met: Store, ghost committed: Store)
    requires kernel.storage.Valid() && head.data.Obj?
    requires stateObject == StateStored(fields, c) && AllAvailable(kernel.storage.State(), retained)
    requires forall o :: o in retained <==> o in c.referenced || o == stateObject
    modifies kernel.storage`cas, kernel.storage`others, kernel.storage`mine, kernel.storage.journal
    ensures kernel.storage.Advanced() && old(kernel.storage.mine) <= kernel.storage.mine
    ensures r.Ok? ==>
              && Revision(old(kernel.storage.State()), c.taskId) <= c.expectedRevision
              && CommittedOn(old(kernel.storage.State()), met, committed, c, fields)
              && Preserved(committed, c, head.data.fields, fields) && Retains(committed, c)
              && ExpectationMet(committed, c, head.projection)
              && StoreInv(committed) && Revision(committed, c.taskId) > c.expectedRevision
              && Evolves(committed, kernel.storage.State())
              && (r.value.admission == Created ==> Revision(met, c.taskId) == c.expectedRevision)
    ensures old(kernel.storage.others) == []
            && Lockable(old(kernel.storage.State()).db, c, LockExpectation(c, head.projection), kernel.ownerId, kernel.leaseTtlMs)
            ==> r.Ok? && r.value.admission == Created
  {
    hide StoreInv, Evolves, Told, Unmet, T.AcquireLease, T.ReleaseLease, Lockable, CommittedOn, StateStored;
    hide Disciplined, AllAvailable, Perform, LeaseMatches, SnapshotAt, TookLease, ActedOn, Preserved, LeftUnlocked, ExpectationMet, Retains;
    hide ExpectationAnswered, Revision, TaskProjection.WellFormed;
    ghost var start := kernel.storage.State();
    met, committed := start, start;
    ghost var x := LockExpectation(c, head.projection);
    if Lockable(start.db, c, x, kernel.ownerId, kernel.leaseTtlMs) {
      LockableLocks(start.db, c, x, kernel.ownerId, kernel.leaseTtlMs);
      LeasedDb(start, c, kernel.ownerId, kernel.leaseTtlMs);
    }
    var locked := kernel.Lock(c.taskId, LockExpectation(c, head.projection), c.acquireMs);
    ghost var entered := kernel.storage.State();
    if locked.Err? {
      return Err(locked.error), met, committed;
    }
    UnmetRevision(locked.value.snapshot.projection, x);
    AllAvailableStable(start, entered, retained);
    var receipt, found := CommitExtension(kernel, locked.value, c, head, fields, stateObject, retained, start.db);
    r, met := receipt, found;
    committed := kernel.storage.State();
    EvolvesTransitive(start, entered, committed);
    if r.Ok? {
      CommittedLater(start, entered, met, committed, c, fields);
      CommittedAhead(start, met, committed, c, fields);
      LockedMet(entered, committed, c, head.projection, locked.value.snapshot);
    }
    var _ := kernel.Exit(locked.value, r.Err?);
    EvolvesTransitive(start, committed, kernel.storage.State());
  }

  lemma LeasedDb(start: Store, c: AppendCall, ownerId: string, ttlMs: int)
    requires T.AcquireLease(start.db, c.taskId, ownerId, c.acquireMs, ttlMs).result.Ok?
    ensures TookLease(start.db, Perform(start, Acquire(c.taskId, ownerId, c.acquireMs, ttlMs)).db, c, ownerId, ttlMs,
                      T.AcquireLease(start.db, c.taskId, ownerId, c.acquireMs, ttlMs).result.value)
  {
    hide T.AcquireLease;
  }

  lemma ToldTask(store: Store, t: string, s: TaskEventSnapshot)
    requires Told(store, t, s)
    ensures s.projection.taskId == t
  {
  }

  lemma DraftParts(
    c: AppendCall, head: map<string, Value>, fields: map<string, Value>, stateObject: StoredObject,
    retained: seq<StoredObject>, locked: TaskProjection)
    ensures var d := ExtensionDraft(c, head, fields, stateObject, retained, locked);
            && d.transition == Transition(Some(locked.state), Some(locked.readyFrontier), None)
            && d.eventId == c.eventId && d.kind == Extension(c.ns, c.name) && d.causedBy.None?
            && d.extension == Some(ExtensionState(c.ns, stateObject)) && d.referenced == retained
    ensures StateStored(fields, c).kind == EXTENSION_STATE_KIND
  {
  }

  lemma LockableNext(
    start: Db, entered: Store, c: AppendCall, x: Expected, ownerId: string, ttlMs: int, lease: LeaseRecord,
    locked: TaskEventSnapshot, t: Transition)
    requires StoreInv(entered) && Lockable(start, c, x, ownerId, ttlMs) && TookLease(start, entered.db, c, ownerId, ttlMs, lease)
    requires Told(entered, c.taskId, locked) && locked.projection.revision == c.expectedRevision
    requires t == Transition(Some(locked.projection.state), Some(locked.projection.readyFrontier), None)
    ensures NextProjection(locked.projection, t, c.commitMs).Ok?
  {
    hide StoreInv, SnapshotAt, NextProjection, T.AcquireLease, Unmet;
    AcquireEffect(start, c.taskId, ownerId, c.acquireMs, ttlMs);
    LockedIsCurrent(entered, c.taskId, locked);
  }

  // What an undisturbed append needs, to be admitted as new.
  ghost predicate AppendAdmissible(store: Store, c: AppendCall, ownerId: string, ttlMs: int) {
    && CallValid(c)
    && ReadableFor(store, c)
    && AllAvailable(store, c.referenced)
    && Lockable(store.db, c, LockExpectation(c, store.db.projections[c.taskId]), ownerId, ttlMs)
  }

  lemma AdmissibleParts(store: Store, c: AppendCall, ownerId: string, ttlMs: int)
    requires AppendAdmissible(store, c, ownerId, ttlMs)
    ensures CallValid(c) && ReadableFor(store, c) && AllAvailable(store, c.referenced)
    ensures c.taskId in store.db.projections
    ensures Lockable(store.db, c, LockExpectation(c, store.db.projections[c.taskId]), ownerId, ttlMs)
  {
    hide AllAvailable, CallValid;
  }

  // Every pointer but the namespace's own is the one of the expected revision.
  lemma OthersUnchanged(at: Store, met: Store, committed: Store, c: AppendCall, fields: map<string, Value>)
    requires CommittedOn(at, met, committed, c, fields) && c.expectedRevision >= 1
    requires Revision(at, c.taskId) == Revision(met, c.taskId) == c.expectedRevision
    ensures OthersKept(at, committed, c)
  {
    hide StoreInv, ExtensionRecorded;
    assert TaskAdvances(TasksOf(at), TasksOf(met), c.taskId);
  }

  // The stored state is the merge of the state the commit met.
  ghost predicate MergesCurrent(met: Store, committed: Store, c: AppendCall)
    requires StateFields(met, c.taskId, c.ns).Ok?
  {
    StateFields(committed, c.taskId, c.ns) == Ok(Merged(StateFields(met, c.taskId, c.ns).value, RemovedSet(c), c.updates))
  }

  // Two states agree on every field the call does not name.
  ghost predicate AgreeElsewhere(at: Store, met: Store, c: AppendCall)
    requires StateFields(at, c.taskId, c.ns).Ok? && StateFields(met, c.taskId, c.ns).Ok?
  {
    StateFields(at, c.taskId, c.ns).value - RemovedSet(c) - c.updates.Keys
    == StateFields(met, c.taskId, c.ns).value - RemovedSet(c) - c.updates.Keys
  }

  // Theorem: a commit built on a state read before the lock is right for the state it met
  // if and only if the two agree on every field the call does not name.
  lemma CurrentMergeIff(at: Store, met: Store, committed: Store, c: AppendCall)
    requires StateFields(at, c.taskId, c.ns).Ok? && StateFields(met, c.taskId, c.ns).Ok?
    requires CommittedOn(at, met, committed, c, StateFields(at, c.taskId, c.ns).value)
    ensures MergesCurrent(met, committed, c) <==> AgreeElsewhere(at, met, c)
  {
    hide StoreInv, Evolves, OthersKept, SnapshotAt, StateFields, Merged;
    SameMergeIff(StateFields(at, c.taskId, c.ns).value, StateFields(met, c.taskId, c.ns).value, RemovedSet(c), c.updates);
  }

  datatype PreparedAppend = PreparedAppend(
    head: TaskEventSnapshot, fields: map<string, Value>, stateObject: StoredObject, retained: seq<StoredObject>)

  // Everything before the lock: the reads, the merged state object, the retained objects.
  method PrepareAppend(storage: Host, c: AppendCall) returns (r: Result<PreparedAppend, HostError>, ghost at: Store)
    requires storage.Valid()
    modifies storage`cas, storage`others, storage`mine, storage.journal
    ensures storage.Advanced() && old(storage.mine) <= storage.mine
    ensures r.Ok? ==>
              && StoreInv(at) && Evolves(old(storage.State()), at) && Evolves(at, storage.State())
              && StateFields(at, c.taskId, c.ns) == Ok(r.value.fields)
              && Told(at, c.taskId, r.value.head) && r.value.head.data.Obj?
              && Revision(old(storage.State()), c.taskId) <= r.value.head.projection.revision <= Revision(at, c.taskId)
              && r.value.stateObject == StateStored(r.value.fields, c)
              && AllAvailable(storage.State(), r.value.retained)
              && r.value.stateObject in r.value.retained
              && (forall o :: o in r.value.retained <==> o in c.referenced || o == r.value.stateObject)
    ensures !CallValid(c) ==> r == Err(ValueError) && storage.State() == old(storage.State()) && storage.mine == old(storage.mine)
    ensures old(storage.others) == [] && CallValid(c) && ReadableFor(old(storage.State()), c)
            && AllAvailable(old(storage.State()), c.referenced)
            ==> && r.Ok? && c.taskId in old(storage.State()).db.projections
                && r.value.head.projection == old(storage.State()).db.projections[c.taskId]
                && storage.State().db == old(storage.State()).db
  {
    hide StoreInv, Evolves, Told, StateStored, AllAvailable, SnapshotAt, StateFields, CallValid, Available, NoAppendSince;
    ghost var start := storage.State();
    EvolvesReflexive(start);
    at := start;
    if !CallValid(c) {
      return Err(ValueError), at;
    }
    var read := ReadBeforeLock(storage, c);
    at := storage.State();
    if read.Err? {
      return Err(read.error), at;
    }
    if c.taskId in start.db.projections && at == start {
      LockedIsCurrent(at, c.taskId, read.value.0);
    }
    var stored := PutState(storage, c, read.value.1);
    EvolvesTransitive(start, at, storage.State());
    if stored.Err? {
      return Err(stored.error), at;
    }
    return Ok(PreparedAppend(read.value.0, read.value.1, stored.value.0, stored.value.1)), at;
  }

  // Everything but the closing read.
  method AppendMerged(kernel: Kernel, c: AppendCall)
    returns (r: Result<Receipt, HostError>, ghost at: Store, ghost met: Store, ghost committed: Store,
             ghost head: Option<TaskEventSnapshot>)
    requires kernel.storage.Valid()
    modifies kernel.storage`cas, kernel.storage`others, kernel.storage`mine, kernel.storage.journal
    ensures kernel.storage.Advanced() && old(kernel.storage.mine) <= kernel.storage.mine
    ensures r.Ok? ==>
              && StoreInv(at) && Evolves(old(kernel.storage.State()), at)
              && StateFields(at, c.taskId, c.ns).Ok?
              && CommittedOn(at, met, committed, c, StateFields(at, c.taskId, c.ns).value)
              && Evolves(committed, kernel.storage.State())
              && Revision(at, c.taskId) <= c.expectedRevision < Revision(kernel.storage.State(), c.taskId)
              && (r.value.admission == Created ==> Revision(met, c.taskId) == c.expectedRevision)
              && head.Some? && Told(at, c.taskId, head.value) && head.value.data.Obj?
              && Revision(old(kernel.storage.State()), c.taskId) <= head.value.projection.revision <= Revision(at, c.taskId)
              && Preserved(committed, c, head.value.data.fields, StateFields(at, c.taskId, c.ns).value)
              && ExpectationMet(committed, c, head.value.projection) && Retains(committed, c)
    ensures !CallValid(c) ==> r == Err(ValueError) && kernel.storage.mine == old(kernel.storage.mine)
    ensures old(kernel.storage.others) == []
            && AppendAdmissible(old(kernel.storage.State()), c, kernel.ownerId, kernel.leaseTtlMs)
            ==> r.Ok? && r.value.admission == Created
  {
    hide StoreInv, Evolves, Lockable, StateStored, ReadableFor, AllAvailable, CommittedOn, StateFields, CallValid;
    hide AppendAdmissible, LockExpectation, Told, Preserved, Revision, Perform, ExpectationMet, Retains;
    ghost var start := kernel.storage.State();
    met, committed, head := start, start, None;
    if AppendAdmissible(start, c, kernel.ownerId, kernel.leaseTtlMs) {
      AdmissibleParts(start, c, kernel.ownerId, kernel.leaseTtlMs);
    }
    var prepared, seen := PrepareAppend(kernel.storage, c);
    at := seen;
    ghost var ready := kernel.storage.State();
    if prepared.Err? {
      return Err(prepared.error), at, met, committed, head;
    }
    var p := prepared.value;
    head := Some(p.head);
    RevisionMonotone(at, ready, c.taskId);
    var receipt, found, after := LockedExtension(kernel, c, p.head, p.fields, p.stateObject, p.retained);
    r, met, committed := receipt, found, after;
    EvolvesTransitive(start, ready, kernel.storage.State());
    if r.Ok? {
      CommittedLater(at, ready, met, committed, c, p.fields);
      RevisionMonotone(committed, kernel.storage.State(), c.taskId);
    }
  }

  // append_preserving: a read-modify-write of one namespace. What is stored is the merge of
  // the state read before the lock; that state is the one at the expected revision whenever
  // the expected revision was not ahead of the task when the call began.
  method AppendPreserving(kernel: Kernel, c: AppendCall)
    returns (r: Result<TaskEventSnapshot, HostError>, ghost at: Store, ghost met: Store, ghost committed: Store,
             ghost created: bool, ghost head: Option<TaskEventSnapshot>)
    requires kernel.storage.Valid()
    modifies kernel.storage`cas, kernel.storage`others, kernel.storage`mine, kernel.storage.journal
    ensures kernel.storage.Advanced() && old(kernel.storage.mine) <= kernel.storage.mine
    ensures r.Ok? ==>
              && StoreInv(at) && Evolves(old(kernel.storage.State()), at)
              && StateFields(at, c.taskId, c.ns).Ok?
              && CommittedOn(at, met, committed, c, StateFields(at, c.taskId, c.ns).value)
              && Evolves(committed, kernel.storage.State())
              && Revision(at, c.taskId) <= c.expectedRevision
              && (c.expectedRevision <= Revision(old(kernel.storage.State()), c.taskId) ==>
                    Revision(at, c.taskId) == c.expectedRevision)
    // What the event holds: the stored state over the data of the head that was read.
    ensures r.Ok? ==>
              && head.Some? && Told(at, c.taskId, head.value) && head.value.data.Obj?
              && (c.expectedRevision <= Revision(old(kernel.storage.State()), c.taskId) ==>
                    head.value.projection.revision == c.expectedRevision)
              && Preserved(committed, c, head.value.data.fields, StateFields(at, c.taskId, c.ns).value)
              && ExpectationMet(committed, c, head.value.projection) && Retains(committed, c)
    // A field removed twice, or removed and updated, is refused before anything is written.
    ensures (exists i, j :: 0 <= i < j < |c.removed| && c.removed[i] == c.removed[j])
            || (exists f :: f in c.updates && f in c.removed)
            ==> r == Err(ValueError) && kernel.storage.mine == old(kernel.storage.mine)
    // What is returned was the head at some moment after the commit.
    ensures r.Ok? ==> Told(kernel.storage.State(), c.taskId, r.value) && r.value.projection.revision > c.expectedRevision
    ensures r.Ok? && created && 1 <= c.expectedRevision <= Revision(old(kernel.storage.State()), c.taskId)
            ==> OthersKept(at, committed, c)
    // Where the expected revision was ahead, exactly this decides whether a field was lost.
    ensures r.Ok? && created && StateFields(met, c.taskId, c.ns).Ok?
            ==> (MergesCurrent(met, committed, c) <==> AgreeElsewhere(at, met, c))
    ensures old(kernel.storage.others) == []
            && AppendAdmissible(old(kernel.storage.State()), c, kernel.ownerId, kernel.leaseTtlMs)
            ==> r.Ok? && created
  {
    hide StoreInv, Evolves, AllAvailable, CommittedOn, StateFields, AppendAdmissible, OthersKept, Told, MergesCurrent;
    hide AgreeElsewhere, Preserved, Perform, ExpectationMet, Retains;
    ghost var start := kernel.storage.State();
    ghost var present := c.taskId in start.db.projections;
    var done, seen, found, after, before := AppendMerged(kernel, c);
    at, met, committed, head, created := seen, found, after, before, false;
    if done.Err? {
      return Err(done.error), at, met, committed, created, head;
    }
    created := done.value.admission == Created;
    ghost var left := kernel.storage.State();
    RevisionMonotone(start, at, c.taskId);
    if StateFields(met, c.taskId, c.ns).Ok? {
      CurrentMergeIff(at, met, committed, c);
    }
    if created && Revision(at, c.taskId) == c.expectedRevision && c.expectedRevision >= 1 {
      OthersUnchanged(at, met, committed, c, StateFields(at, c.taskId, c.ns).value);
    }
    if present {
      TaskKept(start, left, c.taskId);
    }
    r := kernel.storage.ReadTaskEvent(c.taskId);
    EvolvesTransitive(start, left, kernel.storage.State());
    EvolvesTransitive(committed, left, kernel.storage.State());
  }

  // What an append that names no descriptor leaves of the digests that name it.
  lemma DigestsKept(committed: Store, c: AppendCall, head: map<string, Value>, read: map<string, Value>, f: string)
    requires Preserved(committed, c, head, read) && f !in c.removed && f !in c.updates && f !in read
    ensures var data := SnapshotAt(committed.db, c.taskId, c.expectedRevision + 1).value.data;
            StringField(data, f) == StringField(Obj(head), f)
  {
    hide SnapshotAt, StateFields;
  }

  // Theorem: external work stays external across an append whose stored state holds neither
  // descriptor field, and which removes neither.
  lemma ExternalStays(at: Store, committed: Store, c: AppendCall, head: TaskEventSnapshot, read: map<string, Value>)
    requires StoreInv(at) && StoreInv(committed) && Evolves(at, committed)
    requires Told(at, c.taskId, head) && head.projection.revision == c.expectedRevision && head.data.Obj?
    requires Preserved(committed, c, head.data.fields, read) && NamesExternal(at.cas, head)
    requires forall f :: f in {"descriptorDigest", "descriptorObjectDigest"} ==> f !in c.removed && f !in c.updates && f !in read
    ensures SnapshotAt(committed.db, c.taskId, c.expectedRevision + 1).Some?
    ensures NamesExternal(committed.cas, SnapshotAt(committed.db, c.taskId, c.expectedRevision + 1).value)
  {
    hide StoreInv, Evolves, SnapshotAt, Preserved, StringField, Load, FromJson;
    PreservedParts(committed, c, head.data.fields, read);
    var after := SnapshotAt(committed.db, c.taskId, c.expectedRevision + 1).value;
    SnapshotStable(at, committed, c.taskId, c.expectedRevision);
    GoalOfTask(committed, c.taskId, c.expectedRevision, c.expectedRevision + 1);
    SnapshotNeedsEvent(committed.db, c.taskId, c.expectedRevision + 1);
    EventsReadBack(committed, c.taskId, c.expectedRevision + 1);
    EvolvesParts(at, committed);
    DescriptorStable(at.cas, committed.cas, head);
    DigestsKept(committed, c, head.data.fields, read, "descriptorDigest");
    DigestsKept(committed, c, head.data.fields, read, "descriptorObjectDigest");
    assert head.data == Obj(head.data.fields);
  }

  lemma PreservedParts(committed: Store, c: AppendCall, head: map<string, Value>, read: map<string, Value>)
    requires Preserved(committed, c, head, read)
    ensures SnapshotAt(committed.db, c.taskId, c.expectedRevision + 1).Some?
    ensures SnapshotAt(committed.db, c.taskId, c.expectedRevision + 1).value.data.Obj?
  {
  }
}
