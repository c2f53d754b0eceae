// Adopting external work: concurrent and crashing adopters of one task converge.
module Adoption {
  import opened Base
  import opened Json
  import opened Domain
  import opened Tables
  import opened Storage
  import opened Evolution
  import opened Workers
  import opened Snapshots
  import opened HostStorage
  import opened HostKernel
  import opened Descriptors
  import opened ContinuityRecords
  import opened Admissions
  import opened Continuity
  import opened ExtensionReads
  import opened Resumption
  import C = Checkpoints
  import T = Transactions
  import Text

  // One adoption request; the clock is read at creation, at the lease and at the commit.
  datatype AdoptRequest = AdoptRequest(
    taskId: string,
    goalId: string,
    checkpoint: C.WorkingCheckpoint,
    writer: Option<string>,
    createMs: int,
    acquireMs: int,
    commitMs: int)

  function SeedRequest(a: AdoptRequest): CheckpointRequest {
    CheckpointRequest(a.taskId, 1, a.checkpoint, Continue, a.writer, a.acquireMs, a.commitMs)
  }

  // Revision 1 carries this seed, or no seed at all.
  ghost predicate SeedAgrees(store: Store, t: string, digest: Digest) {
    && SnapshotAt(store.db, t, 1).Some?
    && CheckpointAt(store, t, 1).Ok?
    && (CheckpointAt(store, t, 1).value.Some? ==> CheckpointAt(store, t, 1).value.value.digest == digest)
  }

  // What an adopter may append: the creation, seeded; or the first checkpoint, agreeing
  // with the seed.
  ghost predicate Creates(a: AdoptRequest, r: Record) {
    && r.projection.taskId == a.taskId
    && r.projection.goalId == a.goalId
    && r.expectedRevision == 0
    && r.eventId == EventId(a.taskId, "adopt", 1)
    && r.projection.revision == 1
    && r.projection.state == Ready && r.projection.readyFrontier == [ContinueNode(a.taskId)]
    && r.kind == Core(TaskCreated)
    && r.extension.None?
    && DescriptorObject(a) in r.referenced
    && CheckpointObject(a.checkpoint) in r.referenced
    && r.data == RecordData(Hash(External(a.taskId, a.goalId).Digest()), Hash(DescriptorObject(a).digest), a.checkpoint, a.writer)
  }

  // The first checkpoint continues the task with the initial checkpoint and the same writer.
  ghost predicate Seeds(a: AdoptRequest, r: Record) {
    && r.projection.taskId == a.taskId
    && r.expectedRevision == 1 && r.projection.revision == 2
    && r.eventId == EventId(a.taskId, "checkpoint", 2)
    && r.projection.state == Ready && r.projection.readyFrontier == [ContinueNode(a.taskId)]
    && r.kind == CHECKPOINT_EVENT
    && exists descriptor, descriptorObject :: r.data == RecordData(descriptor, descriptorObject, a.checkpoint, a.writer)
  }

  ghost predicate WellAsked(a: AdoptRequest) {
    a.checkpoint.Valid() && a.checkpoint.taskId == a.taskId && C.IsWriterLabel(a.writer)
  }

  ghost predicate AdoptAct(a: AdoptRequest, act: Act) {
    act.action.Append? ==> WellAsked(a) && AdoptAppend(a, act.store, act.action.record)
  }

  ghost predicate AdoptAppend(a: AdoptRequest, met: Store, r: Record) {
    || Creates(a, r)
    || (CheckpointCommit(SeedRequest(a), met, r) && Seeds(a, r) && SeedAgrees(met, a.taskId, a.checkpoint.Digest()))
  }

  ghost predicate OnlyAdoptActs(mine: seq<Act>, n: nat, a: AdoptRequest) {
    forall k :: n <= k < |mine| ==> AdoptAct(a, mine[k])
  }

  function FirstOf(a: AdoptRequest): Record {
    FirstRecord(
      EventId(a.taskId, "adopt", 1), Core(TaskCreated), a.taskId, a.goalId,
      RecordData(Hash(External(a.taskId, a.goalId).Digest()), Hash(DescriptorObject(a).digest), a.checkpoint, a.writer),
      Ready, [ContinueNode(a.taskId)], None, None, [DescriptorObject(a), CheckpointObject(a.checkpoint)], a.createMs)
  }

  function DescriptorObject(a: AdoptRequest): StoredObject {
    Described(DESCRIPTOR_OBJECT_KIND, External(a.taskId, a.goalId).ToJson())
  }

  // The two objects a creation names.
  method PutSeedObjects(storage: Host, a: AdoptRequest)
    requires storage.Valid()
    modifies storage`cas, storage`others, storage`mine, storage.journal
    ensures storage.Advanced() && old(storage.mine) <= storage.mine
    ensures NoAppendSince(storage.mine, |old(storage.mine)|)
    ensures AllAvailable(storage.State(), [DescriptorObject(a), CheckpointObject(a.checkpoint)])
    ensures old(storage.others) == [] ==> storage.State().db == old(storage.State()).db
  {
    hide StoreInv, Evolves, External, AllAvailable, Perform, C.WorkingCheckpoint.ToJson, TaskDescriptor.ToJson, Disciplined;
    ghost var start := storage.State();
    var descriptorObject := storage.PutObject(DESCRIPTOR_OBJECT_KIND, External(a.taskId, a.goalId).ToJson());
    ghost var first := storage.State();
    var checkpointObject := storage.PutObject(CHECKPOINT_OBJECT_KIND, a.checkpoint.ToJson());
    ghost var second := storage.State();
    EvolvesTransitive(start, first, second);
    AvailableStable(first, second, descriptorObject);
    BothAvailable(second, a);
    PutKeepsDb(start, DESCRIPTOR_OBJECT_KIND, External(a.taskId, a.goalId).ToJson());
    PutKeepsDb(first, CHECKPOINT_OBJECT_KIND, a.checkpoint.ToJson());
  }

  // The creation of the task, seeded with the initial checkpoint.
  method CreateExternalTask(host: ExternalContinuity, a: AdoptRequest) returns (r: Result<(), HostError>)
    requires host.Valid() && WellAsked(a)
    modifies host.storage`cas, host.storage`others, host.storage`mine, host.storage.journal
    ensures host.storage.Advanced() && old(host.storage.mine) <= host.storage.mine
    ensures OnlyAdoptActs(host.storage.mine, |old(host.storage.mine)|, a)
    // Only a race is passed over; anything else that refuses the creation is told.
    ensures r.Err? ==> r.error != EventConflict && r.error != RevisionConflict
    ensures a.createMs < 0 || !FirstOf(a).projection.WellFormed() ==> r == Err(ValueError)
    ensures old(host.storage.others) == [] && Fresh(old(host.storage.State()).db, a)
            ==> && r.Ok?
                && CreatedFrom(old(host.storage.State()).db, host.storage.State(), a)
  {
    hide StoreInv, Evolves, RecordData, T.AppendTaskEvent, External, Fresh, CreatedFrom, AllAvailable, Recalls, Perform;
    hide C.WorkingCheckpoint.ToJson, TaskDescriptor.ToJson, ContinueNode, EventId, PayloadJson, Disciplined, Creates;
    hide DescriptorObject, CheckpointObject, RecordRequest, SeedAgrees, CheckpointCommit;
    ghost var start := host.storage.State();
    PutSeedObjects(host.storage, a);
    ghost var second := host.storage.State();
    var receipt := host.kernel.CreateTask(
      EventId(a.taskId, "adopt", 1), Core(TaskCreated), a.taskId, a.goalId,
      RecordData(Hash(External(a.taskId, a.goalId).Digest()), Hash(DescriptorObject(a).digest), a.checkpoint, a.writer),
      Ready, [ContinueNode(a.taskId)], None, None, [DescriptorObject(a), CheckpointObject(a.checkpoint)], a.createMs);
    EvolvesTransitive(start, second, host.storage.State());
    FirstCreates(a);
    if Fresh(start.db, a) {
      FreshWellFormed(start.db, a);
    }
    if a.createMs >= 0 && FirstOf(a).projection.WellFormed() {
      PutKeepsDb(second, EVENT_OBJECT_KIND, PayloadJson(FirstOf(a)));
      ghost var met := host.storage.mine[|host.storage.mine| - 1].store;
      if Fresh(start.db, a) && met.db == start.db {
        FreshCreates(met, a);
      }
    }
    if receipt.Err? && receipt.error != EventConflict && receipt.error != RevisionConflict {
      return Err(receipt.error);
    }
    return Ok(());
  }

  // The task does not exist and neither of its first two event identities is taken.
  ghost predicate Fresh(db: Db, a: AdoptRequest) {
    && a.createMs >= 0
    && HasIdentity(a.goalId, "goal:")
    && a.taskId !in db.projections
    && FindEvent(db.events, EventId(a.taskId, "adopt", 1)).None?
    && FindEvent(db.events, EventId(a.taskId, "checkpoint", 2)).None?
    && a.checkpoint.Valid() && a.checkpoint.taskId == a.taskId && C.IsWriterLabel(a.writer)
  }

  // The store right after an undisturbed creation.
  ghost predicate CreatedFrom(before: Db, after: Store, a: AdoptRequest) {
    && a.taskId !in before.projections
    && after.db.projections == before.projections[a.taskId := FirstOf(a).projection]
    && after.db.leases == before.leases
    && ExternalHead(after, a.taskId)
    && CheckpointAt(after, a.taskId, 1).Ok? && CheckpointAt(after, a.taskId, 1).value.Some?
    && CheckpointAt(after, a.taskId, 1).value.value.digest == a.checkpoint.Digest()
    && FindEvent(after.db.events, EventId(a.taskId, "checkpoint", 2)).None?
  }

  lemma BothAvailable(store: Store, a: AdoptRequest)
    requires Available(store, DescriptorObject(a)) && Available(store, CheckpointObject(a.checkpoint))
    ensures AllAvailable(store, [DescriptorObject(a), CheckpointObject(a.checkpoint)])
  {
  }

  lemma FirstCreates(a: AdoptRequest)
    ensures Creates(a, FirstOf(a))
  {
    assert DescriptorObject(a) == FirstOf(a).referenced[0] && CheckpointObject(a.checkpoint) == FirstOf(a).referenced[1];
  }

  lemma FreshWellFormed(db: Db, a: AdoptRequest)
    requires Fresh(db, a)
    ensures a.createMs >= 0 && FirstOf(a).projection.WellFormed()
  {
  }

  lemma EventIdsDiffer(t: string)
    ensures EventId(t, "adopt", 1) != EventId(t, "checkpoint", 2)
  {
    var n := |"event:external-continuity:" + t + ":"|;
    assert EventId(t, "adopt", 1)[n] == 'a';
    assert EventId(t, "checkpoint", 2)[n] == 'c';
  }

  lemma ExternalReads(cas: set<Digest>, s: TaskEventSnapshot, t: string, g: string)
    requires s.projection.taskId == t && s.projection.goalId == g
    requires Field(s.data, "descriptorDigest") == Some(Hash(External(t, g).Digest()))
    requires Field(s.data, "descriptorObjectDigest") == Some(Hash(Address(DESCRIPTOR_OBJECT_KIND, External(t, g).ToJson())))
    requires Address(DESCRIPTOR_OBJECT_KIND, External(t, g).ToJson()) in cas
    ensures NamesExternal(cas, s)
  {
    hide TaskDescriptor.ToJson, Descriptors.FromJson, Open;
    assert Text.IsLabel(DESCRIPTOR_OBJECT_KIND);
    OpenAddress(DESCRIPTOR_OBJECT_KIND, External(t, g).ToJson());
    DescriptorRoundTrip(External(t, g));
    DescriptorIsObject(External(t, g));
  }

  lemma DescriptorIsObject(d: TaskDescriptor)
    ensures d.ToJson().Obj?
  {
  }

  lemma FreshCreates(met: Store, a: AdoptRequest)
    requires StoreInv(met) && Fresh(met.db, a) && Disciplined(met, Append(FirstOf(a)))
    ensures T.AppendTaskEvent(met.db, RecordRequest(FirstOf(a))).result == Ok(Created)
    ensures CreatedFrom(met.db, Perform(met, Append(FirstOf(a))), a)
  {
    hide StoreInv, Disciplined, T.AppendTaskEvent, RecordData, External, C.WorkingCheckpoint.ToJson, TaskDescriptor.ToJson;
    hide EventId, PayloadJson, CheckpointIn, C.WorkingCheckpoint.Valid, C.IsWriterLabel, NamesExternal, ContinueNode, Described;
    var r := FirstOf(a);
    FreshWellFormed(met.db, a);
    AddressKinds(EVENT_OBJECT_KIND, PayloadJson(r), CHECKPOINT_OBJECT_KIND, a.checkpoint.ToJson());
    AddressKinds(EVENT_OBJECT_KIND, PayloadJson(r), DESCRIPTOR_OBJECT_KIND, External(a.taskId, a.goalId).ToJson());
    DescribedDigest(CHECKPOINT_OBJECT_KIND, a.checkpoint.ToJson());
    DescribedDigest(DESCRIPTOR_OBJECT_KIND, External(a.taskId, a.goalId).ToJson());
    assert UnopposedFirst(met, r);
    UnopposedFirstSucceeds(met, r);
    AfterFirst(met, r);
    AcceptedSnapshot(met, r);
    EventIdsDiffer(a.taskId);
    ReferencedInCas(met, r);
    assert r.referenced[0] == DescriptorObject(a) && r.referenced[1] == CheckpointObject(a.checkpoint);
    var after := Perform(met, Append(r));
    assert after.cas == met.cas;
    RecordDataReads(after.cas, r.kind, Hash(External(a.taskId, a.goalId).Digest()), Hash(DescriptorObject(a).digest),
                    a.checkpoint, a.writer, r.projection, Address(EVENT_OBJECT_KIND, PayloadJson(r)));
    ExternalReads(after.cas, SnapshotOfRecord(r), a.taskId, a.goalId);
  }

  lemma ReferencedInCas(store: Store, r: Record)
    requires Disciplined(store, Append(r))
    ensures forall i :: 0 <= i < |r.referenced| ==> r.referenced[i].digest in store.cas
  {
    forall i | 0 <= i < |r.referenced|
      ensures r.referenced[i].digest in store.cas
    {
      assert r.referenced[i] in r.referenced;
    }
  }

  // ---- Seeding revision 2, and the whole adoption ----

  ghost predicate InitialIs(store: Store, t: string, digest: Digest) {
    && InitialCheckpoint(store, t).Ok?
    && InitialCheckpoint(store, t).value.Some?
    && InitialCheckpoint(store, t).value.value.digest == digest
  }

  ghost predicate GoalIs(store: Store, t: string, g: string) {
    t in store.db.projections && store.db.projections[t].goalId == g
  }

  lemma GoalStable(before: Store, after: Store, t: string, g: string)
    requires Evolves(before, after) && GoalIs(before, t, g)
    ensures GoalIs(after, t, g)
  {
    assert TaskAdvances(TasksOf(before), TasksOf(after), t);
  }

  lemma RecalledGoal(store: Store, t: string, p: TaskProjection)
    requires StoreInv(store) && Recalls(store, t, p) && t in store.db.projections
    ensures GoalIs(store, t, p.goalId)
  {
    hide StoreInv, SnapshotAt;
    RecalledRevision(store, t, p);
    HeadSnapshot(store, t);
    GoalOfTask(store, t, p.revision, Revision(store, t));
  }

  lemma SeedStable(before: Store, after: Store, t: string, digest: Digest)
    requires Evolves(before, after) && SeedAgrees(before, t, digest)
    ensures SeedAgrees(after, t, digest)
  {
    hide Evolves, SnapshotAt, CheckpointAt;
    SnapshotStable(before, after, t, 1);
    CheckpointStable(before, after, t, 1);
  }

  lemma SeedAndSecond(store: Store, t: string, digest: Digest)
    requires SeedAgrees(store, t, digest)
    requires CheckpointAt(store, t, 2).Ok? && CheckpointAt(store, t, 2).value.Some?
    requires CheckpointAt(store, t, 2).value.value.digest == digest
    ensures InitialIs(store, t, digest)
  {
    hide CheckpointAt;
  }

  lemma ToldSecond(store: Store, a: AdoptRequest, receipt: CheckpointReceipt)
    requires ReceiptTells(store, SeedRequest(a), receipt)
    ensures CheckpointAt(store, a.taskId, 2).Ok? && CheckpointAt(store, a.taskId, 2).value.Some?
    ensures CheckpointAt(store, a.taskId, 2).value.value.digest == a.checkpoint.Digest()
  {
    hide CheckpointAt;
  }

  lemma CommitSeeds(a: AdoptRequest, met: Store, r: Record)
    requires CheckpointCommit(SeedRequest(a), met, r)
    ensures Seeds(a, r)
  {
    hide RecordData, EventId, HandsOn, CheckpointObject;
  }

  lemma SeedActs(start: Store, before: seq<Act>, mine: seq<Act>, n: nat, a: AdoptRequest)
    requires n <= |before| && before <= mine && OnlyAdoptActs(before, n, a)
    requires WellAsked(a) && OnlyCheckpointActs(start, mine, |before|, SeedRequest(a)) && SeedAgrees(start, a.taskId, a.checkpoint.Digest())
    ensures OnlyAdoptActs(mine, n, a)
  {
    hide Evolves, CheckpointCommit, SeedAgrees, Creates, Seeds;
    assert forall k :: 0 <= k < |before| ==> mine[k] == before[k];
    forall k | n <= k < |mine|
      ensures AdoptAct(a, mine[k])
    {
      if |before| <= k && mine[k].action.Append? {
        CommitSeeds(a, mine[k].store, mine[k].action.record);
        SeedStable(start, mine[k].store, a.taskId, a.checkpoint.Digest());
      }
    }
  }

  // The second half of an adoption that finds the task at revision 1.
  method SeedTask(host: ExternalContinuity, a: AdoptRequest) returns (r: Result<(), HostError>)
    requires host.Valid() && WellAsked(a) && SnapshotAt(host.storage.State().db, a.taskId, 1).Some?
    modifies host.storage`cas, host.storage`others, host.storage`mine, host.storage.journal
    ensures host.storage.Advanced() && old(host.storage.mine) <= host.storage.mine
    ensures OnlyAdoptActs(host.storage.mine, |old(host.storage.mine)|, a)
    ensures r.Ok? ==> InitialIs(host.storage.State(), a.taskId, a.checkpoint.Digest())
    ensures old(host.storage.others) == [] && SeedAgrees(old(host.storage.State()), a.taskId, a.checkpoint.Digest())
            && Admissible(old(host.storage.State()), SeedRequest(a), host.kernel.ownerId, host.kernel.leaseTtlMs)
            ==> && r.Ok? && ExternalHead(host.storage.State(), a.taskId) && Revision(host.storage.State(), a.taskId) == 2
                && CheckpointAt(host.storage.State(), a.taskId, 2).Ok?
                && CheckpointAt(host.storage.State(), a.taskId, 2).value.Some?
  {
    hide StoreInv, Evolves, SnapshotAt, CheckpointAt, SeedAgrees, InitialIs, AdoptAct, ReceiptTells, Admissible, NamesExternal;
    hide C.WorkingCheckpoint.Valid, C.WorkingCheckpoint.ToJson, OnlyCheckpointActs, Committed;
    ghost var start := host.storage.State();
    var seeded := host.ReadCheckpoint(a.taskId, 1);
    ghost var read := host.storage.State();
    SnapshotStable(start, read, a.taskId, 1);
    if SeedAgrees(start, a.taskId, a.checkpoint.Digest()) {
      SeedOk(start, a.taskId, a.checkpoint.Digest());
    }
    if seeded.Err? {
      return Err(seeded.error);
    }
    SeedRead(read, a.taskId, a.checkpoint.Digest(), seeded.value);
    if seeded.value.Some? && seeded.value.value.digest != a.checkpoint.Digest() {
      return Err(RevisionConflict);
    }
    ghost var acts := host.storage.mine;
    var receipt, met := host.Checkpoint(SeedRequest(a));
    ghost var tried, acts' := host.storage.State(), host.storage.mine;
    EvolvesTransitive(start, read, tried);
    SeedActs(read, acts, acts', |old(host.storage.mine)|, a);
    SeedStable(read, tried, a.taskId, a.checkpoint.Digest());
    if receipt.Ok? {
      ToldSecond(tried, a, receipt.value);
      SeedAndSecond(tried, a.taskId, a.checkpoint.Digest());
      return Ok(());
    }
    if receipt.error != LeaseHeld && receipt.error != RevisionConflict && receipt.error != TaskRevisionMismatch {
      return Err(receipt.error);
    }
    var current, _ := host.RequireExternalTask(a.taskId, Some(a.goalId));
    ghost var looked := host.storage.State();
    EvolvesTransitive(start, tried, looked);
    if current.Err? {
      return Err(current.error);
    }
    var initial := host.ReadCheckpoint(a.taskId, 2);
    EvolvesTransitive(start, looked, host.storage.State());
    EvolvesTransitive(tried, looked, host.storage.State());
    SeedStable(tried, host.storage.State(), a.taskId, a.checkpoint.Digest());
    if initial.Err? {
      return Err(initial.error);
    }
    if current.value.revision < 2 || initial.value.None? || initial.value.value.digest != a.checkpoint.Digest() {
      return Err(receipt.error);
    }
    SeedAndSecond(host.storage.State(), a.taskId, a.checkpoint.Digest());
    return Ok(());
  }

  lemma SeedOk(store: Store, t: string, digest: Digest)
    requires SeedAgrees(store, t, digest)
    ensures CheckpointAt(store, t, 1).Ok?
  {
  }

  lemma SeedRead(store: Store, t: string, digest: Digest, seeded: Option<CheckpointRecord>)
    requires SnapshotAt(store.db, t, 1).Some? && CheckpointAt(store, t, 1) == Ok(seeded)
    ensures SeedAgrees(store, t, digest) <==> (seeded.Some? ==> seeded.value.digest == digest)
  {
  }

  // _initial_checkpoint, in one or two reads.
  method ReadInitial(host: ExternalContinuity, t: string) returns (r: Result<Option<CheckpointRecord>, HostError>)
    requires host.Valid() && SnapshotAt(host.storage.State().db, t, 1).Some?
    modifies host.storage`cas, host.storage`others, host.storage.journal
    ensures host.storage.OnlyRead()
    ensures r == InitialCheckpoint(host.storage.State(), t) || (r.Err? && old(host.storage.others) != [])
  {
    hide StoreInv, Evolves, SnapshotAt, CheckpointAt;
    ghost var start := host.storage.State();
    var seeded := host.ReadCheckpoint(t, 1);
    if seeded.Err? || seeded.value.Some? {
      return seeded;
    }
    ghost var middle := host.storage.State();
    r := host.ReadCheckpoint(t, 2);
    EvolvesTransitive(start, middle, host.storage.State());
    SnapshotStable(start, middle, t, 1);
    CheckpointStable(middle, host.storage.State(), t, 1);
  }

  // The readings an undisturbed adoption needs: every check falls within the lease.
  predicate ClocksServe(a: AdoptRequest, ownerId: string, ttlMs: int) {
    && Text.IsLabel(ownerId) && ttlMs >= 1
    && a.createMs >= 0 && a.acquireMs >= 0 && a.commitMs >= 0
    && Max(a.commitMs, a.createMs + 1) < a.acquireMs + ttlMs
  }

  lemma CreatedIsAdmissible(before: Store, after: Store, a: AdoptRequest, ownerId: string, ttlMs: int)
    requires StoreInv(before) && Fresh(before.db, a) && CreatedFrom(before.db, after, a) && ClocksServe(a, ownerId, ttlMs)
    ensures Admissible(after, SeedRequest(a), ownerId, ttlMs)
    ensures SeedAgrees(after, a.taskId, a.checkpoint.Digest())
    ensures GoalIs(after, a.taskId, a.goalId) && after.db.projections[a.taskId].revision == 1
  {
    hide StoreInv, SnapshotAt, CheckpointAt, C.WorkingCheckpoint.Valid, C.IsWriterLabel, EventId, ContinueNode, NamesExternal;
    hide RecordData, Described;
    if a.taskId in before.db.leases {
      LeaseNeedsTask(before, a.taskId);
    }
    CheckpointNeedsSnapshot(after, a.taskId, 1);
  }

  // After two checkpointed revisions no namespace holds a pointer.
  lemma NoPointersYet(store: Store, t: string)
    requires StoreInv(store) && Revision(store, t) == 2
    requires CheckpointAt(store, t, 1).Ok? && CheckpointAt(store, t, 1).value.Some?
    requires CheckpointAt(store, t, 2).Ok? && CheckpointAt(store, t, 2).value.Some?
    ensures Durable(store.db.extensions, t) == {}
  {
    hide StoreInv, RecordIn, Snapshot;
    forall ns | ns in Durable(store.db.extensions, t)
      ensures false
    {
      DurableIsPointer(store.db.extensions, t, ns);
      PointerTask(store, t, ns);
      CheckpointNeedsSnapshot(store, t, 1);
      CheckpointNeedsSnapshot(store, t, 2);
      SnapshotNeedsEvent(store.db, t, 1);
      SnapshotNeedsEvent(store.db, t, 2);
      HistoryEnds(store, t);
    }
  }

  lemma HistoryEnds(store: Store, t: string)
    requires StoreInv(store)
    ensures |Log(store.db.events, t)| == Revision(store, t)
  {
    hide StoreInv;
    StoreParts(store);
    HistoryLength(store.db, t, Revision(store, t));
  }

  lemma AdoptedIsResumable(store: Store, t: string)
    requires StoreInv(store) && ExternalHead(store, t) && Revision(store, t) == 2
    requires CheckpointAt(store, t, 1).Ok? && CheckpointAt(store, t, 1).value.Some?
    requires CheckpointAt(store, t, 2).Ok? && CheckpointAt(store, t, 2).value.Some?
    ensures Resumable(store, t, None)
  {
    hide StoreInv, CheckpointAt, ExternalHead;
    NoPointersYet(store, t);
  }

  lemma FirstSnapshot(store: Store, t: string, p: TaskProjection)
    requires StoreInv(store) && Recalls(store, t, p)
    ensures SnapshotAt(store.db, t, 1).Some? && p.revision >= 1
  {
    hide StoreInv, SnapshotAt;
    RecalledRevision(store, t, p);
    EventsUpToHead(store, t, 1);
    EventsReadBack(store, t, 1);
  }

  lemma InitialStable(before: Store, after: Store, t: string, digest: Digest)
    requires StoreInv(before) && Evolves(before, after) && InitialIs(before, t, digest)
    ensures InitialIs(after, t, digest)
  {
    hide StoreInv, Evolves, InitialCheckpoint;
    InitialCheckpointStable(before, after, t);
  }

  // The creation half: the task exists afterwards, or the call fails.
  method EnsureExternalTask(host: ExternalContinuity, a: AdoptRequest) returns (r: Result<TaskProjection, HostError>)
    requires host.Valid() && WellAsked(a)
    modifies host.storage`cas, host.storage`others, host.storage`mine, host.storage.journal
    ensures host.storage.Advanced() && old(host.storage.mine) <= host.storage.mine
    ensures OnlyAdoptActs(host.storage.mine, |old(host.storage.mine)|, a)
    ensures r.Ok? ==>
              && Recalls(host.storage.State(), a.taskId, r.value)
              && GoalIs(host.storage.State(), a.taskId, a.goalId) && r.value.goalId == a.goalId
    ensures old(host.storage.others) == [] && Fresh(old(host.storage.State()).db, a)
            ==> && r.Ok? && r.value.revision == 1
                && CreatedFrom(old(host.storage.State()).db, host.storage.State(), a)
    // A task that is not there and cannot be created under this goal and clock is refused.
    ensures old(host.storage.others) == [] && a.taskId !in old(host.storage.State()).db.projections
            && (a.createMs < 0 || !FirstOf(a).projection.WellFormed())
            ==> r == Err(ValueError)
    ensures old(host.storage.others) == [] && ExternalHead(old(host.storage.State()), a.taskId)
            ==> && host.storage.State() == old(host.storage.State()) && host.storage.mine == old(host.storage.mine)
                && (r.Ok? <==> GoalIs(old(host.storage.State()), a.taskId, a.goalId))
                && (r.Ok? ==> r.value == old(host.storage.State()).db.projections[a.taskId])
  {
    hide StoreInv, Evolves, Recalls, AdoptAct, Fresh, NamesExternal, SnapshotAt;
    ghost var start := host.storage.State();
    var current := host.storage.GetTask(a.taskId);
    ghost var looked := host.storage.State();
    if Fresh(start.db, a) {
      FreshAbsent(start.db, a);
    }
    if current.None? {
      var created := CreateExternalTask(host, a);
      EvolvesTransitive(start, looked, host.storage.State());
      if created.Err? {
        return Err(created.error);
      }
    }
    ghost var middle := host.storage.State();
    var required, _ := host.RequireExternalTask(a.taskId, Some(a.goalId));
    EvolvesTransitive(start, middle, host.storage.State());
    if required.Ok? {
      RecalledGoal(host.storage.State(), a.taskId, required.value);
    }
    return required;
  }

  lemma FreshAbsent(db: Db, a: AdoptRequest)
    requires Fresh(db, a)
    ensures a.taskId !in db.projections
  {
  }

  // Up to the point where revision 2 is known to carry the initial checkpoint.
  method Converge(host: ExternalContinuity, a: AdoptRequest) returns (r: Result<(), HostError>)
    requires host.Valid() && WellAsked(a)
    modifies host.storage`cas, host.storage`others, host.storage`mine, host.storage.journal
    ensures host.storage.Advanced() && old(host.storage.mine) <= host.storage.mine
    ensures OnlyAdoptActs(host.storage.mine, |old(host.storage.mine)|, a)
    ensures r.Ok? ==>
              InitialIs(host.storage.State(), a.taskId, a.checkpoint.Digest())
              && GoalIs(host.storage.State(), a.taskId, a.goalId)
    ensures old(host.storage.others) == [] && Fresh(old(host.storage.State()).db, a)
            && ClocksServe(a, host.kernel.ownerId, host.kernel.leaseTtlMs)
            ==> r.Ok? && Resumable(host.storage.State(), a.taskId, None) && Revision(host.storage.State(), a.taskId) == 2
    ensures old(host.storage.others) == [] && a.taskId !in old(host.storage.State()).db.projections
            && (a.createMs < 0 || !FirstOf(a).projection.WellFormed())
            ==> r == Err(ValueError)
    ensures old(host.storage.others) == [] && ExternalHead(old(host.storage.State()), a.taskId)
            && Revision(old(host.storage.State()), a.taskId) >= 2
            ==> && host.storage.State() == old(host.storage.State()) && host.storage.mine == old(host.storage.mine)
                && (r.Ok? <==> InitialIs(old(host.storage.State()), a.taskId, a.checkpoint.Digest())
                               && GoalIs(old(host.storage.State()), a.taskId, a.goalId))
  {
    hide StoreInv, Evolves, Recalls, AdoptAct, Fresh, CreatedFrom, ClocksServe, Admissible, SeedAgrees, GoalIs, InitialIs;
    hide Resumable, SnapshotAt, CheckpointAt, C.WorkingCheckpoint.Valid, InitialCheckpoint, OnlyAdoptActs, NamesExternal;
    hide FirstOf, TaskProjection.WellFormed;
    ghost var start := host.storage.State();
    var current := EnsureExternalTask(host, a);
    ghost var ensured, acts := host.storage.State(), host.storage.mine;
    if current.Err? {
      return Err(current.error);
    }
    FirstSnapshot(ensured, a.taskId, current.value);
    if Fresh(start.db, a) && CreatedFrom(start.db, ensured, a) && ClocksServe(a, host.kernel.ownerId, host.kernel.leaseTtlMs) {
      CreatedIsAdmissible(start, ensured, a, host.kernel.ownerId, host.kernel.leaseTtlMs);
    }
    if current.value.revision == 1 {
      r := SeedTask(host, a);
      EvolvesTransitive(start, ensured, host.storage.State());
      AdoptActsJoin(acts, host.storage.mine, |old(host.storage.mine)|, a);
      if CreatedFrom(start.db, ensured, a) {
        SeededFirst(ensured, host.storage.State(), start.db, a);
      }
    } else {
      var initial := ReadInitial(host, a.taskId);
      EvolvesTransitive(start, ensured, host.storage.State());
      if initial.Err? {
        if InitialCheckpoint(host.storage.State(), a.taskId).Err? {
          InitialFailed(host.storage.State(), a.taskId, a.checkpoint.Digest());
        }
        return Err(initial.error);
      }
      InitialRead(host.storage.State(), a.taskId, a.checkpoint.Digest(), initial.value);
      if initial.value.None? || initial.value.value.digest != a.checkpoint.Digest() {
        return Err(RevisionConflict);
      }
      r := Ok(());
    }
    GoalStable(ensured, host.storage.State(), a.taskId, a.goalId);
  }

  // adopt
  method Adopt(host: ExternalContinuity, a: AdoptRequest) returns (r: Result<ResumeView, HostError>)
    requires host.Valid() && a.checkpoint.Valid()
    modifies host.storage`cas, host.storage`others, host.storage`mine, host.storage.journal
    ensures host.storage.Advanced() && old(host.storage.mine) <= host.storage.mine
    ensures OnlyAdoptActs(host.storage.mine, |old(host.storage.mine)|, a)
    ensures r.Ok? ==>
              && InitialIs(host.storage.State(), a.taskId, a.checkpoint.Digest())
              && GoalIs(host.storage.State(), a.taskId, a.goalId)
              && Coherent(host.storage.State(), a.taskId, r.value)
    // Bad arguments are refused before anything is read, and a task that is not there and
    // cannot be created under this goal and clock is refused.
    ensures !C.IsWriterLabel(a.writer) || a.checkpoint.taskId != a.taskId ==>
              r == Err(ValueError) && host.storage.State() == old(host.storage.State()) && host.storage.mine == old(host.storage.mine)
    ensures old(host.storage.others) == [] && a.taskId !in old(host.storage.State()).db.projections
            && (a.createMs < 0 || !FirstOf(a).projection.WellFormed())
            ==> r == Err(ValueError)
    // Undisturbed adoption of a fresh task.
    ensures old(host.storage.others) == [] && Fresh(old(host.storage.State()).db, a)
            && ClocksServe(a, host.kernel.ownerId, host.kernel.leaseTtlMs)
            ==> r.Ok? && r.value.projection.revision == 2
    // Undisturbed adoption of a task already past its first revision: the same adoption is
    // answered, a different one is refused, and nothing is written either way.
    ensures old(host.storage.others) == [] && Resumable(old(host.storage.State()), a.taskId, None)
            && Revision(old(host.storage.State()), a.taskId) >= 2
            && C.IsWriterLabel(a.writer) && a.checkpoint.taskId == a.taskId
            ==> && host.storage.State() == old(host.storage.State()) && host.storage.mine == old(host.storage.mine)
                && (r.Ok? <==> InitialIs(old(host.storage.State()), a.taskId, a.checkpoint.Digest())
                               && GoalIs(old(host.storage.State()), a.taskId, a.goalId))
  {
    hide StoreInv, Evolves, AdoptAct, Fresh, ClocksServe, GoalIs, InitialIs, ExternalHead, Resumable;
    hide Coherent, Covered, C.WorkingCheckpoint.Valid, NamespacesAt;
    ghost var start := host.storage.State();
    EvolvesReflexive(start);
    if Fresh(start.db, a) {
      FreshRequest(start.db, a);
    }
    if !C.IsWriterLabel(a.writer) || a.checkpoint.taskId != a.taskId {
      return Err(ValueError);
    }
    if Resumable(start, a.taskId, None) {
      ResumableHead(start, a.taskId);
    }
    var converged := Converge(host, a);
    ghost var done := host.storage.State();
    if converged.Err? {
      return Err(converged.error);
    }
    if Resumable(done, a.taskId, None) {
      ResumableHead(done, a.taskId);
    }
    var view, _ := Resume(host, a.taskId, None);
    EvolvesTransitive(start, done, host.storage.State());
    InitialStable(done, host.storage.State(), a.taskId, a.checkpoint.Digest());
    GoalStable(done, host.storage.State(), a.taskId, a.goalId);
    return view;
  }

  lemma ResumableHead(store: Store, t: string)
    requires Resumable(store, t, None)
    ensures ExternalHead(store, t) && t in store.db.projections
    ensures store.db.projections[t].revision == Revision(store, t)
  {
    hide CheckpointAt;
  }

  lemma InitialFailed(store: Store, t: string, digest: Digest)
    requires InitialCheckpoint(store, t).Err?
    ensures !InitialIs(store, t, digest)
  {
  }

  lemma FreshRequest(db: Db, a: AdoptRequest)
    requires Fresh(db, a)
    ensures C.IsWriterLabel(a.writer) && a.checkpoint.taskId == a.taskId
    ensures a.taskId !in db.projections
  {
  }

  lemma AdoptActsJoin(before: seq<Act>, mine: seq<Act>, n: nat, a: AdoptRequest)
    requires n <= |before| && before <= mine && OnlyAdoptActs(before, n, a) && OnlyAdoptActs(mine, |before|, a)
    ensures OnlyAdoptActs(mine, n, a)
  {
    hide AdoptAct;
    assert forall k :: 0 <= k < |before| ==> mine[k] == before[k];
  }

  lemma InitialRead(store: Store, t: string, digest: Digest, initial: Option<CheckpointRecord>)
    requires InitialCheckpoint(store, t) == Ok(initial)
    ensures InitialIs(store, t, digest) <==> initial.Some? && initial.value.digest == digest
  {
  }

  // The seed of an undisturbed creation is still there after the first checkpoint.
  lemma SeededFirst(created: Store, after: Store, before: Db, a: AdoptRequest)
    requires CreatedFrom(before, created, a) && Evolves(created, after) && StoreInv(after)
    ensures ExternalHead(after, a.taskId) && Revision(after, a.taskId) == 2
            && CheckpointAt(after, a.taskId, 2).Ok? && CheckpointAt(after, a.taskId, 2).value.Some?
            ==> Resumable(after, a.taskId, None)
  {
    hide Evolves, StoreInv, CheckpointAt, ExternalHead, Resumable;
    CheckpointNeedsSnapshot(created, a.taskId, 1);
    CheckpointStable(created, after, a.taskId, 1);
    if ExternalHead(after, a.taskId) && Revision(after, a.taskId) == 2
       && CheckpointAt(after, a.taskId, 2).Ok? && CheckpointAt(after, a.taskId, 2).value.Some?
    {
      AdoptedIsResumable(after, a.taskId);
    }
  }
}
