// External continuity: adopting a task, checkpointing it, and resuming it. Every method
// reads and writes in separate transactions, between which anyone may act.
module Continuity {
  import opened Base
  import opened Json
  import opened Domain
  import opened Tables
  import opened Transactions
  import opened JournalInvariants
  import opened Storage
  import opened Evolution
  import opened Workers
  import opened Snapshots
  import opened HostStorage
  import opened HostKernel
  import opened Descriptors
  import opened ContinuityRecords
  import opened Admissions
  import C = Checkpoints
  import T = Transactions

  datatype CheckpointReceipt = CheckpointReceipt(
    admission: EventAdmission, projection: TaskProjection, record: CheckpointRecord)

  datatype Disposition = Continue | Complete | Abandon {
    function State(): TaskState {
      match this
      case Continue => Ready
      case Complete => Completed
      case Abandon => Cancelled
    }
  }

  // One checkpoint request. The two clock readings are taken when the lease is acquired
  // and when the transition is committed.
  datatype CheckpointRequest = CheckpointRequest(
    taskId: string,
    expectedRevision: int,
    checkpoint: C.WorkingCheckpoint,
    disposition: Disposition,
    writer: Option<string>,
    acquireMs: int,
    commitMs: int)

  // The transition the request asks for is in the history, right after its revision.
  ghost predicate Committed(store: Store, q: CheckpointRequest) {
    && SnapshotAt(store.db, q.taskId, q.expectedRevision + 1).Some?
    && SnapshotAt(store.db, q.taskId, q.expectedRevision + 1).value.projection.state == q.disposition.State()
    && CheckpointAt(store, q.taskId, q.expectedRevision + 1).Ok?
    && CheckpointAt(store, q.taskId, q.expectedRevision + 1).value.Some?
    && CheckpointAt(store, q.taskId, q.expectedRevision + 1).value.value.digest == q.checkpoint.Digest()
  }

  ghost predicate AtNextRevision(store: Store, q: CheckpointRequest) {
    Revision(store, q.taskId) == q.expectedRevision + 1
  }

  ghost predicate ReceiptTells(store: Store, q: CheckpointRequest, receipt: CheckpointReceipt) {
    && Recalls(store, q.taskId, receipt.projection)
    && receipt.projection.revision == q.expectedRevision + 1
    && receipt.projection.state == q.disposition.State()
    && CheckpointAt(store, q.taskId, q.expectedRevision + 1) == Ok(Some(receipt.record))
    && receipt.record.digest == q.checkpoint.Digest()
  }

  // The only append a checkpoint request makes.
  ghost predicate CheckpointAct(q: CheckpointRequest, r: Record) {
    && r.projection.taskId == q.taskId
    && r.expectedRevision == q.expectedRevision
    && r.projection.revision == q.expectedRevision + 1
    && r.projection.state == q.disposition.State()
    && (q.disposition == Continue ==> r.projection.state == Ready && r.projection.readyFrontier == [ContinueNode(q.taskId)])
    && (q.disposition == Complete ==> r.projection.state == Completed && r.projection.readyFrontier == [])
    && (q.disposition == Abandon ==> r.projection.state == Cancelled && r.projection.readyFrontier == [])
    && (q.expectedRevision >= 0 ==> r.eventId == EventId(q.taskId, "checkpoint", q.expectedRevision + 1))
    && r.kind == CHECKPOINT_EVENT
    && r.extension.None?
    && CheckpointObject(q.checkpoint) in r.referenced
    && (exists descriptor, descriptorObject ::
          r.data == RecordData(descriptor, descriptorObject, q.checkpoint, q.writer))
  }

  // The descriptor digests a checkpoint records are copied from earlier events of its task.
  ghost predicate HandsOn(met: Store, r: Record) {
    exists one, two ::
      && Told(met, r.projection.taskId, one) && Told(met, r.projection.taskId, two)
      && StringField(one.data, "descriptorDigest").Some?
      && Field(r.data, "descriptorDigest") == StringField(one.data, "descriptorDigest")
      && StringField(two.data, "descriptorObjectDigest").Some?
      && Field(r.data, "descriptorObjectDigest") == StringField(two.data, "descriptorObjectDigest")
  }

  ghost predicate CheckpointCommit(q: CheckpointRequest, met: Store, r: Record) {
    RequestValid(q) && CheckpointAct(q, r) && HandsOn(met, r)
  }

  ghost predicate OnlyCheckpointActs(start: Store, mine: seq<Act>, n: nat, q: CheckpointRequest) {
    forall k :: n <= k < |mine| && mine[k].action.Append? ==>
      CheckpointCommit(q, mine[k].store, mine[k].action.record) && Evolves(start, mine[k].store)
  }

  lemma ActsFromStart(start: Store, middle: Store, before: seq<Act>, mine: seq<Act>, n: nat, q: CheckpointRequest)
    requires Evolves(start, middle) && n <= |before| && before <= mine && NoAppendSince(before, n)
    requires OnlyCheckpointActs(middle, mine, |before|, q)
    ensures OnlyCheckpointActs(start, mine, n, q)
  {
    hide Evolves, CheckpointCommit;
    assert forall k :: 0 <= k < |before| ==> mine[k] == before[k];
    forall k | n <= k < |mine| && mine[k].action.Append?
      ensures CheckpointCommit(q, mine[k].store, mine[k].action.record) && Evolves(start, mine[k].store)
    {
      if |before| <= k {
        EvolvesTransitive(start, middle, mine[k].store);
      }
    }
  }

  // A commit: the payload object, then the append.
  lemma CommitActs(start: Store, before: seq<Act>, mine: seq<Act>, n: nat, q: CheckpointRequest)
    requires n <= |before| && NoAppendSince(before, n)
    requires |mine| == |before| + 2 && mine[..|before|] == before && !mine[|before|].action.Append?
    requires mine[|before| + 1].action.Append? && Evolves(start, mine[|before| + 1].store)
    requires CheckpointCommit(q, mine[|before| + 1].store, mine[|before| + 1].action.record)
    ensures OnlyCheckpointActs(start, mine, n, q)
  {
    hide Evolves, CheckpointCommit;
    forall k | n <= k < |before|
      ensures mine[k] == before[k]
    {
      assert mine[k] == mine[..|before|][k];
    }
  }

  lemma NoActs(start: Store, mine: seq<Act>, n: nat, q: CheckpointRequest)
    requires NoAppendSince(mine, n)
    ensures OnlyCheckpointActs(start, mine, n, q)
  {
  }

  lemma ActsStay(start: Store, before: seq<Act>, mine: seq<Act>, n: nat, q: CheckpointRequest)
    requires before <= mine && OnlyCheckpointActs(start, before, n, q) && NoAppendSince(mine, |before|)
    ensures OnlyCheckpointActs(start, mine, n, q)
  {
    hide Evolves, CheckpointCommit;
    forall k | n <= k < |mine| && mine[k].action.Append?
      ensures CheckpointCommit(q, mine[k].store, mine[k].action.record) && Evolves(start, mine[k].store)
    {
      if k < |before| {
        assert before[k] == mine[k];
      }
    }
  }

  ghost predicate RequestValid(q: CheckpointRequest) {
    && q.expectedRevision >= 1
    && q.checkpoint.Valid()
    && q.checkpoint.taskId == q.taskId
    && C.IsWriterLabel(q.writer)
  }

  function CheckpointDraft(q: CheckpointRequest, descriptor: Value, descriptorObject: Value, stored: StoredObject): Draft {
    var state := q.disposition.State();
    Draft(EventId(q.taskId, "checkpoint", if q.expectedRevision < 0 then 0 else q.expectedRevision + 1), CHECKPOINT_EVENT,
          RecordData(descriptor, descriptorObject, q.checkpoint, q.writer),
          Transition(Some(state), Some(if state.Terminal() then [] else [ContinueNode(q.taskId)]), None),
          None, [stored], None)
  }

  function RecordOf(q: CheckpointRequest): CheckpointRecord {
    CheckpointRecord(q.checkpoint, q.checkpoint.Digest(), CheckpointObject(q.checkpoint).digest, q.expectedRevision + 1,
                     q.writer)
  }

  // The request's own record stands at the next revision.
  ghost predicate RecordedCheckpoint(store: Store, q: CheckpointRequest, p: TaskProjection) {
    && Recalls(store, q.taskId, p)
    && p.revision == q.expectedRevision + 1
    && p.state == q.disposition.State()
    && CheckpointAt(store, q.taskId, q.expectedRevision + 1) == Ok(Some(RecordOf(q)))
  }

  // The commit met the expected revision, and handed the descriptor on to the next one.
  ghost predicate CreatedOn(start: Store, met: Store, after: Store, q: CheckpointRequest) {
    && StoreInv(met) && Evolves(start, met)
    && Revision(met, q.taskId) == q.expectedRevision
    && SnapshotAt(met.db, q.taskId, q.expectedRevision).Some?
    && SnapshotAt(met.db, q.taskId, q.expectedRevision).value.projection.state == Ready
    && SnapshotAt(met.db, q.taskId, q.expectedRevision).value.projection.readyFrontier == [ContinueNode(q.taskId)]
    && SnapshotAt(after.db, q.taskId, q.expectedRevision + 1).Some?
    && (NamesExternal(met.cas, SnapshotAt(met.db, q.taskId, q.expectedRevision).value) ==>
          NamesExternal(after.cas, SnapshotAt(after.db, q.taskId, q.expectedRevision + 1).value))
  }

  lemma AvailableStable(before: Store, after: Store, o: StoredObject)
    requires Evolves(before, after) && Available(before, o)
    ensures Available(after, o)
  {
  }

  lemma NextOfRequest(p: TaskProjection, t: Transition, clock: int, next: TaskProjection)
    requires NextProjection(p, t, clock) == Ok(next)
    ensures next.taskId == p.taskId && next.goalId == p.goalId && next.revision == p.revision + 1 && next.WellFormed()
    ensures t.state.Some? ==> next.state == t.state.value
  {
  }

  lemma AcceptedCheckpoint(met: Store, r: Record, q: CheckpointRequest, after: Store, descriptor: Value, descriptorObject: Value)
    requires StoreInv(met) && T.AppendTaskEvent(met.db, RecordRequest(r)).result.Ok?
    requires after == Perform(met, Append(r))
    requires CheckpointAct(q, r) && RequestValid(q) && r.projection.WellFormed()
    requires r.data == RecordData(descriptor, descriptorObject, q.checkpoint, q.writer)
    requires CheckpointObject(q.checkpoint).digest in met.cas
    ensures RecordedCheckpoint(after, q, r.projection)
    ensures SnapshotAt(after.db, q.taskId, q.expectedRevision + 1) == Some(SnapshotOfRecord(r))
  {
    hide StoreInv, T.AppendTaskEvent, SnapshotAt, CheckpointIn, C.WorkingCheckpoint.Valid, RecordData, C.IsWriterLabel;
    AcceptedSnapshot(met, r);
    assert after.cas == met.cas;
    RecordDataReads(after.cas, r.kind, descriptor, descriptorObject, q.checkpoint, q.writer, r.projection,
                    Address(EVENT_OBJECT_KIND, PayloadJson(r)));
  }

  // Two events that agree on the descriptor digests and on their identities name the same
  // descriptor.
  lemma DescriptorHandedOn(cas: set<Digest>, s: TaskEventSnapshot, next: TaskEventSnapshot)
    requires NamesExternal(cas, s) && next.data.Obj?
    requires Field(next.data, "descriptorDigest") == StringField(s.data, "descriptorDigest")
    requires Field(next.data, "descriptorObjectDigest") == StringField(s.data, "descriptorObjectDigest")
    requires next.projection.taskId == s.projection.taskId && next.projection.goalId == s.projection.goalId
    ensures NamesExternal(cas, next)
  {
  }

  // What was read of the head between the lock and a new commit was the head itself.
  lemma ReadAtHead(start: Store, met: Store, t: string, revision: int, s: TaskEventSnapshot)
    requires StoreInv(start) && StoreInv(met) && Evolves(start, met) && Told(start, t, s)
    requires Revision(met, t) == revision <= s.projection.revision <= Revision(start, t)
    ensures SnapshotAt(met.db, t, revision) == Some(s)
  {
    hide StoreInv, Evolves, SnapshotAt;
    RevisionMonotone(start, met, t);
    SnapshotStable(start, met, t, s.projection.revision);
  }

  lemma CreatedCheckpoint(
    start: Store, read: Store, met: Store, r: Record, q: CheckpointRequest, after: Store,
    locked: TaskEventSnapshot, one: TaskEventSnapshot, two: TaskEventSnapshot)
    requires StoreInv(read) && StoreInv(met) && Evolves(start, met) && Evolves(read, met)
    requires T.AppendTaskEvent(met.db, RecordRequest(r)).result == Ok(Created) && after == Perform(met, Append(r))
    requires CheckpointAct(q, r)
    requires SnapshotAt(after.db, q.taskId, q.expectedRevision + 1) == Some(SnapshotOfRecord(r))
    requires Told(read, q.taskId, locked) && locked.projection.revision == q.expectedRevision
    requires locked.projection.state == Ready && locked.projection.readyFrontier == [ContinueNode(q.taskId)]
    requires r.projection.goalId == locked.projection.goalId
    requires Told(read, q.taskId, one) && q.expectedRevision <= one.projection.revision <= Revision(read, q.taskId)
    requires Told(read, q.taskId, two) && q.expectedRevision <= two.projection.revision <= Revision(read, q.taskId)
    requires StringField(one.data, "descriptorDigest").Some? && StringField(two.data, "descriptorObjectDigest").Some?
    requires r.data == RecordData(StringField(one.data, "descriptorDigest").value,
                                  StringField(two.data, "descriptorObjectDigest").value, q.checkpoint, q.writer)
    ensures CreatedOn(start, met, after, q)
  {
    hide StoreInv, Evolves, T.AppendTaskEvent, SnapshotAt, DescriptorIn, RecordData, NamesExternal;
    CreatedAt(met, r);
    ReadAtHead(read, met, q.taskId, q.expectedRevision, one);
    ReadAtHead(read, met, q.taskId, q.expectedRevision, two);
    RevisionMonotone(read, met, q.taskId);
    SnapshotStable(read, met, q.taskId, q.expectedRevision);
    assert after.cas == met.cas;
    RecordDataFields(StringField(one.data, "descriptorDigest").value, StringField(two.data, "descriptorObjectDigest").value,
                     q.checkpoint, q.writer);
    if NamesExternal(met.cas, one) {
      DescriptorHandedOn(met.cas, one, SnapshotOfRecord(r));
    }
  }

  lemma DraftReferences(store: Store, q: CheckpointRequest, descriptor: Value, descriptorObject: Value, stored: StoredObject)
    requires Available(store, stored)
    ensures AllAvailable(store, CheckpointDraft(q, descriptor, descriptorObject, stored).referenced)
  {
  }

  // The record a locked checkpoint commits.
  ghost function RequestRecord(
    q: CheckpointRequest, lease: LeaseRecord, locked: TaskProjection, descriptor: Value, descriptorObject: Value): Record
    requires NextOf(q, locked).Ok?
  {
    Drafted(lease, locked, CheckpointDraft(q, descriptor, descriptorObject, CheckpointObject(q.checkpoint)),
            NextOf(q, locked).value)
  }

  function NextOf(q: CheckpointRequest, locked: TaskProjection): Result<TaskProjection, HostError> {
    NextProjection(locked, CheckpointDraft(q, Null, Null, CheckpointObject(q.checkpoint)).transition, q.commitMs)
  }

  lemma DraftActs(
    q: CheckpointRequest, lease: LeaseRecord, locked: TaskProjection, descriptor: Value, descriptorObject: Value)
    requires locked.taskId == q.taskId && locked.revision == q.expectedRevision
    ensures var draft := CheckpointDraft(q, descriptor, descriptorObject, CheckpointObject(q.checkpoint));
            var next := NextProjection(locked, draft.transition, q.commitMs);
            && next == NextOf(q, locked)
            && (next.Ok? ==>
                  && CheckpointAct(q, Drafted(lease, locked, draft, next.value))
                  && Drafted(lease, locked, draft, next.value) == RequestRecord(q, lease, locked, descriptor, descriptorObject)
                  && next.value.goalId == locked.goalId && next.value.WellFormed())
    ensures NextOf(q, locked).Ok? ==>
              && RequestRecord(q, lease, locked, descriptor, descriptorObject).data ==
                 RecordData(descriptor, descriptorObject, q.checkpoint, q.writer)
              && RequestRecord(q, lease, locked, descriptor, descriptorObject).projection == NextOf(q, locked).value
              && RequestRecord(q, lease, locked, descriptor, descriptorObject).expectedRevision == q.expectedRevision
              && NextOf(q, locked).value.taskId == q.taskId
  {
    hide RecordData, C.WorkingCheckpoint.ToJson;
    if NextOf(q, locked).Ok? {
      NextOfRequest(locked, CheckpointDraft(q, Null, Null, CheckpointObject(q.checkpoint)).transition, q.commitMs,
                    NextOf(q, locked).value);
    }
  }

  lemma DraftHandsOn(
    read: Store, met: Store, q: CheckpointRequest, lease: LeaseRecord, locked: TaskProjection,
    one: TaskEventSnapshot, two: TaskEventSnapshot)
    requires RequestValid(q) && locked.taskId == q.taskId && locked.revision == q.expectedRevision
    requires Evolves(read, met) && Told(read, q.taskId, one) && Told(read, q.taskId, two)
    requires StringField(one.data, "descriptorDigest").Some? && StringField(two.data, "descriptorObjectDigest").Some?
    requires NextOf(q, locked).Ok?
    ensures CheckpointCommit(q, met, RequestRecord(q, lease, locked, StringField(one.data, "descriptorDigest").value,
                                                   StringField(two.data, "descriptorObjectDigest").value))
  {
    hide Evolves, Told, RequestValid, CheckpointAct, NextProjection, NextOf, RecordData, C.WorkingCheckpoint.ToJson;
    var digest, object' := StringField(one.data, "descriptorDigest").value, StringField(two.data, "descriptorObjectDigest").value;
    DraftActs(q, lease, locked, digest, object');
    ToldStable(read, met, q.taskId, one);
    ToldStable(read, met, q.taskId, two);
    RecordDataFields(digest, object', q.checkpoint, q.writer);
  }

  // What an accepted commit of a checkpoint means, new or replayed.
  lemma AcceptedDraft(
    start: Store, read: Store, met: Store, q: CheckpointRequest, lease: LeaseRecord, locked: TaskEventSnapshot,
    one: TaskEventSnapshot, two: TaskEventSnapshot, admission: EventAdmission)
    requires RequestValid(q) && StoreInv(read) && StoreInv(met)
    requires Evolves(start, read) && Evolves(read, met)
    requires Told(read, q.taskId, locked) && locked.projection.revision == q.expectedRevision
    requires locked.projection.state == Ready && locked.projection.readyFrontier == [ContinueNode(q.taskId)]
    requires Told(read, q.taskId, one) && q.expectedRevision <= one.projection.revision <= Revision(read, q.taskId)
    requires Told(read, q.taskId, two) && q.expectedRevision <= two.projection.revision <= Revision(read, q.taskId)
    requires StringField(one.data, "descriptorDigest").Some? && StringField(two.data, "descriptorObjectDigest").Some?
    requires Available(read, CheckpointObject(q.checkpoint))
    requires NextOf(q, locked.projection).Ok?
    requires T.AppendTaskEvent(met.db, RecordRequest(
                 RequestRecord(q, lease, locked.projection, StringField(one.data, "descriptorDigest").value,
                               StringField(two.data, "descriptorObjectDigest").value))).result == Ok(admission)
    ensures var r := RequestRecord(q, lease, locked.projection, StringField(one.data, "descriptorDigest").value,
                                   StringField(two.data, "descriptorObjectDigest").value);
            && RecordedCheckpoint(Perform(met, Append(r)), q, NextOf(q, locked.projection).value)
            && (admission == Created ==>
                  CreatedOn(start, met, Perform(met, Append(r)), q) && AtNextRevision(Perform(met, Append(r)), q))
  {
    hide StoreInv, Evolves, SnapshotAt, CheckpointIn, T.AppendTaskEvent, NextProjection, CreatedOn, NextOf, RequestValid;
    hide RecordedCheckpoint, DescriptorIn, RecordData, C.WorkingCheckpoint.ToJson, CheckpointAct, StringField, Perform;
    var digest, object' := StringField(one.data, "descriptorDigest").value, StringField(two.data, "descriptorObjectDigest").value;
    var r := RequestRecord(q, lease, locked.projection, digest, object');
    DraftActs(q, lease, locked.projection, digest, object');
    AvailableStable(read, met, CheckpointObject(q.checkpoint));
    AcceptedCheckpoint(met, r, q, Perform(met, Append(r)), digest, object');
    EvolvesTransitive(start, read, met);
    if admission == Created {
      CreatedAt(met, r);
      CreatedCheckpoint(start, read, met, r, q, Perform(met, Append(r)), locked, one, two);
    }
  }

  // Nothing stands in the way of the commit: the revision is current, the lease live, the
  // event identity fresh and the successor well-formed.
  ghost predicate Unhindered(db: Db, q: CheckpointRequest, locked: TaskProjection, lease: LeaseRecord) {
    && q.taskId in db.projections && db.projections[q.taskId].revision == q.expectedRevision >= 1
    && NextOf(q, locked).Ok?
    && lease.taskId == q.taskId
    && LeaseValidates(db, lease, NextOf(q, locked).value.updatedAtMs)
    && FindEvent(db.events, EventId(q.taskId, "checkpoint", q.expectedRevision + 1)).None?
  }

  lemma PutKeepsDb(store: Store, kind: string, payload: Value)
    ensures Perform(store, Put(kind, payload)).db == store.db
    ensures store.cas <= Perform(store, Put(kind, payload)).cas
  {
  }

  lemma ExternalHeadStable(before: Store, after: Store, t: string)
    requires ExternalHead(before, t) && after.db == before.db && before.cas <= after.cas
    ensures ExternalHead(after, t)
  {
    hide DescriptorIn;
    DescriptorStable(before.cas, after.cas, SnapshotAt(before.db, t, Revision(before, t)).value);
  }

  lemma UnhinderedNext(db: Db, q: CheckpointRequest, locked: TaskProjection, lease: LeaseRecord)
    requires Unhindered(db, q, locked, lease)
    ensures NextOf(q, locked).Ok?
  {
  }

  lemma UnhinderedCommits(
    met: Store, q: CheckpointRequest, lease: LeaseRecord, locked: TaskProjection, descriptor: Value, descriptorObject: Value)
    requires StoreInv(met) && Unhindered(met.db, q, locked, lease) && locked.taskId == q.taskId && locked.revision == q.expectedRevision
    requires Disciplined(met, Append(RequestRecord(q, lease, locked, descriptor, descriptorObject)))
    ensures T.AppendTaskEvent(met.db, RecordRequest(RequestRecord(q, lease, locked, descriptor, descriptorObject))).result
            == Ok(Created)
  {
    hide StoreInv, Disciplined, T.AppendTaskEvent, RecordData, PayloadJson, C.WorkingCheckpoint.ToJson, NextProjection, Described;
    var r := RequestRecord(q, lease, locked, descriptor, descriptorObject);
    DraftActs(q, lease, locked, descriptor, descriptorObject);
    NextTime(q, locked);
    AddressKinds(EVENT_OBJECT_KIND, PayloadJson(r), CHECKPOINT_OBJECT_KIND, q.checkpoint.ToJson());
    DescribedDigest(CHECKPOINT_OBJECT_KIND, q.checkpoint.ToJson());
    UnopposedAppendSucceeds(met, r);
  }

  lemma DescribedDigest(kind: string, payload: Value)
    ensures Described(kind, payload).digest == Address(kind, payload)
  {
  }

  lemma NextTime(q: CheckpointRequest, p: TaskProjection)
    requires NextOf(q, p).Ok?
    ensures NextOf(q, p).value.updatedAtMs >= 0
  {
  }

  // What a request needs, when nobody else acts, to be admitted as new.
  ghost predicate Admissible(store: Store, q: CheckpointRequest, ownerId: string, ttlMs: int) {
    && RequestValid(q)
    && ExternalHead(store, q.taskId)
    && var p := store.db.projections[q.taskId];
    && p.revision == q.expectedRevision
    && p.state == Ready && p.readyFrontier == [ContinueNode(q.taskId)]
    && T.AcquireLease(store.db, q.taskId, ownerId, q.acquireMs, ttlMs).result.Ok?
    && 0 <= q.commitMs
    && Max(q.commitMs, p.updatedAtMs + 1) < q.acquireMs + ttlMs
    && FindEvent(store.db.events, EventId(q.taskId, "checkpoint", q.expectedRevision + 1)).None?
  }

  lemma UnmetRevision(p: TaskProjection, x: Expected)
    requires Unmet(p, x).None?
    ensures x.revision.Some? ==> p.revision == x.revision.value
  {
  }

  lemma AdmissibleLocks(store: Store, q: CheckpointRequest, ownerId: string, ttlMs: int)
    requires Admissible(store, q, ownerId, ttlMs)
    ensures q.taskId in store.db.projections
    ensures Unmet(store.db.projections[q.taskId],
                  Expected(Some(q.expectedRevision), Some(Ready), Some([ContinueNode(q.taskId)]))).None?
    ensures T.AcquireLease(store.db, q.taskId, ownerId, q.acquireMs, ttlMs).result.Ok?
  {
    hide T.AcquireLease, EventId;
  }

  lemma NextFromReady(q: CheckpointRequest, p: TaskProjection)
    requires p.state == Ready && p.readyFrontier == [ContinueNode(q.taskId)] && q.commitMs >= 0
    requires p.WellFormed()
    ensures NextOf(q, p).Ok? && NextOf(q, p).value.updatedAtMs == Max(q.commitMs, p.updatedAtMs + 1)
  {
  }

  lemma AdmissibleIsUnhindered(store: Store, q: CheckpointRequest, ownerId: string, ttlMs: int, s: TaskEventSnapshot)
    requires StoreInv(store) && Admissible(store, q, ownerId, ttlMs)
    requires var after := Perform(store, Acquire(q.taskId, ownerId, q.acquireMs, ttlMs));
             Told(after, q.taskId, s) && s.projection.revision == q.expectedRevision
    ensures var after := Perform(store, Acquire(q.taskId, ownerId, q.acquireMs, ttlMs));
            && Unhindered(after.db, q, s.projection, T.AcquireLease(store.db, q.taskId, ownerId, q.acquireMs, ttlMs).result.value)
            && ExternalHead(after, q.taskId)
  {
    hide StoreInv, T.AcquireLease, SnapshotAt, DescriptorIn, NextOf, EventId, Snapshot;
    AcquireEffect(store.db, q.taskId, ownerId, q.acquireMs, ttlMs);
    var after := Perform(store, Acquire(q.taskId, ownerId, q.acquireMs, ttlMs));
    HeadSnapshot(store, q.taskId);
    SnapshotSameEvents(store.db, after.db, q.taskId, q.expectedRevision);
    NextFromReady(q, s.projection);
  }

  lemma SnapshotSameEvents(before: Db, after: Db, t: string, revision: int)
    requires before.events == after.events
    ensures SnapshotAt(before, t, revision) == SnapshotAt(after, t, revision)
  {
  }

  lemma CreatedOnLater(start: Store, entered: Store, met: Store, after: Store, q: CheckpointRequest)
    requires Evolves(start, entered) && CreatedOn(entered, met, after, q)
    ensures CreatedOn(start, met, after, q)
  {
    hide StoreInv, Evolves, SnapshotAt, NamesExternal;
    EvolvesTransitive(start, entered, met);
  }

  lemma CreatedOnStable(start: Store, met: Store, before: Store, after: Store, q: CheckpointRequest)
    requires CreatedOn(start, met, before, q) && Evolves(before, after)
    ensures CreatedOn(start, met, after, q)
  {
    hide StoreInv, Evolves, SnapshotAt, DescriptorIn;
    EvolvesParts(before, after);
    SnapshotStable(before, after, q.taskId, q.expectedRevision + 1);
    var s := SnapshotAt(before.db, q.taskId, q.expectedRevision + 1).value;
    if NamesExternal(before.cas, s) {
      DescriptorStable(before.cas, after.cas, s);
    }
  }

  // What was recorded reads back for ever.
  lemma RecordedStable(before: Store, after: Store, q: CheckpointRequest, p: TaskProjection, admission: EventAdmission)
    requires RecordedCheckpoint(before, q, p) && Evolves(before, after)
    ensures CheckpointAt(after, q.taskId, p.revision) == Ok(Some(RecordOf(q)))
    ensures ReceiptTells(after, q, CheckpointReceipt(admission, p, RecordOf(q)))
  {
    hide Evolves, SnapshotAt, CheckpointIn, CheckpointAt;
    CheckpointNeedsSnapshot(before, q.taskId, q.expectedRevision + 1);
    CheckpointStable(before, after, q.taskId, q.expectedRevision + 1);
    RecallsStable(before, after, q.taskId, p);
  }

  lemma AdmissibleStarts(store: Store, q: CheckpointRequest, ownerId: string, ttlMs: int)
    requires Admissible(store, q, ownerId, ttlMs)
    ensures RequestValid(q) && ExternalHead(store, q.taskId)
    ensures q.taskId in store.db.projections
    ensures store.db.projections[q.taskId].revision == q.expectedRevision
    ensures store.db.projections[q.taskId].state == Ready
    ensures store.db.projections[q.taskId].readyFrontier == [ContinueNode(q.taskId)]
  {
  }

  lemma RecalledRevision(store: Store, t: string, p: TaskProjection)
    requires StoreInv(store) && Recalls(store, t, p)
    ensures 1 <= p.revision <= Revision(store, t)
  {
    hide StoreInv, Snapshot;
    SnapshotNeedsEvent(store.db, t, p.revision);
    EventsUpToHead(store, t, p.revision);
  }

  lemma ExistingTells(required: Store, after: Store, q: CheckpointRequest, p: TaskProjection, seen: TaskEventSnapshot)
    requires StoreInv(after) && Evolves(required, after)
    requires Recalls(required, q.taskId, p) && p.revision == q.expectedRevision + 1 && p.state == q.disposition.State()
    requires CheckpointAt(after, q.taskId, p.revision).Ok? && CheckpointAt(after, q.taskId, p.revision).value.Some?
    requires CheckpointAt(after, q.taskId, p.revision).value.value.digest == q.checkpoint.Digest()
    requires Told(required, q.taskId, seen) && NamesExternal(required.cas, seen) && p.revision <= seen.projection.revision
    ensures ReceiptTells(after, q, CheckpointReceipt(Existing, p, CheckpointAt(after, q.taskId, p.revision).value.value))
    ensures Revision(after, q.taskId) == q.expectedRevision + 1 ==> ExternalHead(after, q.taskId)
  {
    hide StoreInv, Evolves, CheckpointAt, SnapshotAt, DescriptorIn;
    RecallsStable(required, after, q.taskId, p);
    ToldStable(required, after, q.taskId, seen);
    EvolvesParts(required, after);
    DescriptorStable(required.cas, after.cas, seen);
    SnapshotRevision(after, q.taskId, seen);
    Present(after, q.taskId, seen);
  }

  lemma NotCommitted(store: Store, q: CheckpointRequest, p: TaskProjection)
    requires Recalls(store, q.taskId, p) && p.revision == q.expectedRevision + 1
    requires CheckpointAt(store, q.taskId, p.revision).Ok?
    requires !(CheckpointAt(store, q.taskId, p.revision).value.Some?
               && CheckpointAt(store, q.taskId, p.revision).value.value.digest == q.checkpoint.Digest()
               && p.state == q.disposition.State())
    ensures !Committed(store, q)
  {
  }

  lemma CreatedStaysExternal(required: Store, met: Store, after: Store, q: CheckpointRequest, seen: TaskEventSnapshot)
    requires StoreInv(required) && StoreInv(after) && CreatedOn(required, met, after, q)
    requires Told(required, q.taskId, seen) && NamesExternal(required.cas, seen)
    requires q.expectedRevision <= seen.projection.revision <= Revision(required, q.taskId)
    ensures Revision(after, q.taskId) == q.expectedRevision + 1 ==> ExternalHead(after, q.taskId)
  {
    hide StoreInv, Evolves, SnapshotAt, DescriptorIn;
    ReadAtHead(required, met, q.taskId, q.expectedRevision, seen);
    EvolvesParts(required, met);
    DescriptorStable(required.cas, met.cas, seen);
    SnapshotNeedsEvent(after.db, q.taskId, q.expectedRevision + 1);
    EventsUpToHead(after, q.taskId, q.expectedRevision + 1);
  }

  class ExternalContinuity {
    const storage: Host
    const kernel: Kernel

    ghost predicate Valid()
      reads storage, storage.journal
    {
      kernel.storage == storage && storage.Valid()
    }

    constructor (storage: Host, ownerId: string, leaseTtlMs: int)
      ensures this.storage == storage && fresh(kernel)
      ensures kernel.storage == storage && kernel.ownerId == ownerId && kernel.leaseTtlMs == leaseTtlMs
    {
      this.storage := storage;
      kernel := new Kernel(storage, ownerId, leaseTtlMs);
    }

    // The projection, then the descriptor of the head met after it.
    method ReadSubject(t: string)
      returns (projection: Option<TaskProjection>, descriptor: Result<Option<TaskDescriptor>, HostError>,
               ghost seen: Option<TaskEventSnapshot>)
      requires storage.Valid()
      modifies storage`cas, storage`others, storage.journal
      ensures storage.OnlyRead()
      ensures old(storage.others) == [] ==>
                projection == if t in old(storage.State()).db.projections then Some(old(storage.State()).db.projections[t]) else None
      ensures t in old(storage.State()).db.projections ==> projection.Some? && seen.Some?
      ensures projection.Some? ==>
                && Recalls(storage.State(), t, projection.value)
                && Revision(old(storage.State()), t) <= projection.value.revision
                && (seen.Some? ==> SubjectSeen(storage.State(), t, projection.value, seen.value))
                && (descriptor.Ok? ==> seen.Some? && DescriptorIn(storage.State().cas, seen.value) == descriptor)
      ensures seen.Some? ==>
                exists met :: HeadMet(old(storage.State()), met, storage.State(), t, seen.value)
                              && (NamesExternal(met.cas, seen.value) ==>
                                    projection.Some? && descriptor.Ok? && NamesExternal(storage.State().cas, seen.value))
    {
      hide StoreInv, Evolves, SnapshotAt, DescriptorIn, HeadMet;
      ghost var start := storage.State();
      projection := storage.GetTask(t);
      ghost var first := storage.State();
      RevisionMonotone(start, first, t);
      if t in start.db.projections {
        TaskKept(start, first, t);
      }
      if projection.None? {
        return None, Err(UnknownTask), None;
      }
      descriptor, seen := ReadTaskDescriptor(storage, t);
      EvolvesTransitive(start, first, storage.State());
      RecallsStable(first, storage.State(), t, projection.value);
      if seen.Some? {
        ghost var met :| HeadMet(first, met, storage.State(), t, seen.value) && (NamesExternal(met.cas, seen.value) ==> descriptor.Ok?);
        HeadMetParts(first, met, storage.State(), t, seen.value);
        EvolvesReflexive(storage.State());
        HeadMetWider(start, first, met, storage.State(), storage.State(), t, seen.value);
        EvolvesParts(met, storage.State());
        if NamesExternal(met.cas, seen.value) {
          DescriptorStable(met.cas, storage.State().cas, seen.value);
        }
        SeenAfter(storage.State(), t, projection.value, seen.value);
      }
    }

    // _require_external_task: the projection, and a descriptor that names this workload.
    method RequireExternalTask(t: string, goalId: Option<string>)
      returns (r: Result<TaskProjection, HostError>, ghost seen: Option<TaskEventSnapshot>)
      requires storage.Valid()
      modifies storage`cas, storage`others, storage.journal
      ensures storage.OnlyRead()
      ensures r.Ok? ==>
                && Recalls(storage.State(), t, r.value)
                && Revision(old(storage.State()), t) <= r.value.revision
                && seen.Some? && Told(storage.State(), t, seen.value)
                && r.value.revision <= seen.value.projection.revision <= Revision(storage.State(), t)
                && NamesExternal(storage.State().cas, seen.value)
                && (goalId.Some? ==> r.value.goalId == goalId.value)
      ensures r.Ok? ==> t in storage.State().db.projections
      ensures old(storage.others) == [] && ExternalHead(old(storage.State()), t)
              && (goalId.Some? ==> old(storage.State()).db.projections[t].goalId == goalId.value)
              ==> r == Ok(old(storage.State()).db.projections[t])
      ensures goalId.None? && t in old(storage.State()).db.projections ==>
                seen.Some? && exists met :: HeadMet(old(storage.State()), met, storage.State(), t, seen.value)
                                            && (NamesExternal(met.cas, seen.value) ==> r.Ok?)
    {
      hide StoreInv, Evolves, SnapshotAt, DescriptorIn, HeadMet, Recalls, Told, ExternalHead;
      ghost var start := storage.State();
      var projection, descriptor, s := ReadSubject(t);
      if ExternalHead(start, t) {
        HeadExists(start, t);
      }
      if s.Some? && storage.State() == start && ExternalHead(start, t) {
        ghost var met :| HeadMet(start, met, storage.State(), t, s.value)
                         && (NamesExternal(met.cas, s.value) ==>
                               projection.Some? && descriptor.Ok? && NamesExternal(storage.State().cas, s.value));
        ExternalMet(start, met, t, s.value);
      }
      if projection.None? {
        return Err(UnknownTask), s;
      }
      if descriptor.Err? {
        return Err(descriptor.error), s;
      }
      if descriptor.value.None? {
        return Err(ValueError), s;
      }
      if descriptor.value.value != External(t, projection.value.goalId) {
        return Err(ValueError), s;
      }
      if goalId.Some? && projection.value.goalId != goalId.value {
        return Err(ValueError), s;
      }
      return Ok(projection.value), s;
    }

    // _checkpoint_at_revision
    method ReadCheckpoint(t: string, revision: int) returns (r: Result<Option<CheckpointRecord>, HostError>)
      requires storage.Valid()
      modifies storage`cas, storage`others, storage.journal
      ensures storage.OnlyRead()
      ensures r == CheckpointAt(storage.State(), t, revision)
    {
      hide StoreInv, Evolves, SnapshotAt, CheckpointIn;
      var s := storage.ReadTaskEventAtRevision(t, revision);
      if s.Err? || s.value.None? {
        return Ok(None);
      }
      return CheckpointIn(storage.cas, s.value.value);
    }

    // A digest field of the head event.
    method ReadHeadField(t: string, name: string)
      returns (r: Result<Value, HostError>, ghost seen: Option<TaskEventSnapshot>)
      requires storage.Valid()
      modifies storage`cas, storage`others, storage.journal
      ensures storage.OnlyRead()
      ensures seen.Some? ==>
                && Told(storage.State(), t, seen.value)
                && Revision(old(storage.State()), t) <= seen.value.projection.revision <= Revision(storage.State(), t)
      ensures r.Ok? ==> seen.Some? && StringField(seen.value.data, name) == Some(r.value)
      ensures seen.Some? && StringField(seen.value.data, name).Some? ==> r.Ok?
      ensures seen.Some? && r.Err? ==> r.error == if seen.value.data.Obj? then UnknownTask else JournalCorruption
      ensures seen.None? ==> t !in old(storage.State()).db.projections
    {
      hide StoreInv, Evolves, SnapshotAt;
      var s := storage.ReadTaskEvent(t);
      if s.Err? {
        return Err(s.error), None;
      }
      seen := Some(s.value);
      if !s.value.data.Obj? {
        return Err(JournalCorruption), seen;
      }
      var found := StringField(s.value.data, name);
      return if found.None? then Err(UnknownTask) else Ok(found.value), seen;
    }

    // task_descriptor_digest and task_descriptor_object_digest: two reads of the head.
    method ReadDescriptorDigests(t: string)
      returns (r: Result<(Value, Value), HostError>, ghost one: Option<TaskEventSnapshot>, ghost two: Option<TaskEventSnapshot>)
      requires storage.Valid()
      modifies storage`cas, storage`others, storage.journal
      ensures storage.OnlyRead()
      ensures r.Ok? ==>
                && one.Some? && two.Some?
                && Told(storage.State(), t, one.value) && Told(storage.State(), t, two.value)
                && Revision(old(storage.State()), t) <= one.value.projection.revision <= Revision(storage.State(), t)
                && Revision(old(storage.State()), t) <= two.value.projection.revision <= Revision(storage.State(), t)
                && StringField(one.value.data, "descriptorDigest") == Some(r.value.0)
                && StringField(two.value.data, "descriptorObjectDigest") == Some(r.value.1)
                && Load(storage.State().cas, r.value.1).Ok? && Load(storage.State().cas, r.value.1).value.kind == "task-descriptor"
      ensures old(storage.others) == [] && ExternalHead(old(storage.State()), t) ==> r.Ok?
    {
      hide StoreInv, Evolves, SnapshotAt, Load, StringField, NamesExternal;
      ghost var start := storage.State();
      var digest, s := ReadHeadField(t, "descriptorDigest");
      one := s;
      two := None;
      ghost var middle := storage.State();
      if ExternalHead(start, t) {
        ExternalFields(start.cas, SnapshotAt(start.db, t, Revision(start, t)).value);
      }
      if digest.Err? {
        return Err(digest.error), one, two;
      }
      var stored, s' := ReadHeadField(t, "descriptorObjectDigest");
      two := s';
      EvolvesTransitive(start, middle, storage.State());
      ToldStable(middle, storage.State(), t, s.value);
      RevisionMonotone(start, middle, t);
      RevisionMonotone(middle, storage.State(), t);
      if stored.Err? {
        return Err(stored.error), one, two;
      }
      var loaded := Load(storage.cas, stored.value);
      if loaded.Err? {
        return Err(loaded.error), one, two;
      }
      if loaded.value.kind != DESCRIPTOR_OBJECT_KIND {
        return Err(JournalCorruption), one, two;
      }
      return Ok((digest.value, stored.value)), one, two;
    }

    // The first half of the locked body: the checkpoint object, then the head's digests.
    method PrepareCheckpoint(q: CheckpointRequest)
      returns (r: Result<(StoredObject, Value, Value), HostError>,
               ghost one: Option<TaskEventSnapshot>, ghost two: Option<TaskEventSnapshot>)
      requires storage.Valid()
      modifies storage`cas, storage`others, storage`mine, storage.journal
      ensures storage.Advanced() && old(storage.mine) <= storage.mine
      ensures NoAppendSince(storage.mine, |old(storage.mine)|)
      ensures r.Ok? ==>
                && r.value.0 == CheckpointObject(q.checkpoint) && Available(storage.State(), r.value.0)
                && one.Some? && two.Some?
                && Told(storage.State(), q.taskId, one.value) && Told(storage.State(), q.taskId, two.value)
                && Revision(old(storage.State()), q.taskId) <= one.value.projection.revision <= Revision(storage.State(), q.taskId)
                && Revision(old(storage.State()), q.taskId) <= two.value.projection.revision <= Revision(storage.State(), q.taskId)
                && StringField(one.value.data, "descriptorDigest") == Some(r.value.1)
                && StringField(two.value.data, "descriptorObjectDigest") == Some(r.value.2)
      ensures old(storage.others) == [] ==>
                storage.State() == Perform(old(storage.State()), Put(CHECKPOINT_OBJECT_KIND, q.checkpoint.ToJson()))
      ensures old(storage.others) == [] && ExternalHead(storage.State(), q.taskId) ==> r.Ok?
    {
      hide StoreInv, Evolves, SnapshotAt, C.WorkingCheckpoint.ToJson, Told, StringField, ExternalHead, Revision, Perform;
      ghost var start := storage.State();
      var object' := storage.PutObject(CHECKPOINT_OBJECT_KIND, q.checkpoint.ToJson());
      ghost var written := storage.State();
      var digests, s, s' := ReadDescriptorDigests(q.taskId);
      EvolvesTransitive(start, written, storage.State());
      RevisionMonotone(start, written, q.taskId);
      AvailableStable(written, storage.State(), object');
      one, two := s, s';
      match digests
      case Err(e) => return Err(e), one, two;
      case Ok(found) => return Ok((object', found.0, found.1)), one, two;
    }

    // The body of the locked transition.
    method CommitCheckpoint(q: CheckpointRequest, locked: LockedTask)
      returns (r: Result<Receipt, HostError>, ghost met: Store)
      requires Valid() && !locked.committed && RequestValid(q)
      requires Told(storage.State(), q.taskId, locked.snapshot)
      requires locked.snapshot.projection.revision == q.expectedRevision
      requires locked.snapshot.projection.state == Ready
      requires locked.snapshot.projection.readyFrontier == [ContinueNode(q.taskId)]
      modifies locked, storage`cas, storage`others, storage`mine, storage.journal
      ensures storage.Advanced() && old(storage.mine) <= storage.mine
      ensures OnlyCheckpointActs(old(storage.State()), storage.mine, |old(storage.mine)|, q)
      ensures locked.committed == r.Ok?
      ensures r.Ok? ==> RecordedCheckpoint(storage.State(), q, r.value.projection)
      ensures r.Ok? && r.value.admission == Created ==>
                CreatedOn(old(storage.State()), met, storage.State(), q) && AtNextRevision(storage.State(), q)
      ensures old(storage.others) == [] && ExternalHead(old(storage.State()), q.taskId)
              && Unhindered(old(storage.State()).db, q, locked.snapshot.projection, locked.lease)
              ==> r.Ok? && r.value.admission == Created
    {
      hide ExternalHead, Unhindered, AtNextRevision, OnlyCheckpointActs, NoAppendSince;
      hide StoreInv, Evolves, Told, AllAvailable, Committable, T.AppendTaskEvent, NextProjection, CreatedOn;
      hide RecordedCheckpoint, RequestValid, RecordData, CheckpointDraft, CheckpointCommit, Drafted, Disciplined, Perform;
      hide Available, StringField, PayloadJson, Revision, NextOf, C.WorkingCheckpoint.ToJson, RecordRequest;
      ghost var start := storage.State();
      met := start;
      SnapshotRevision(start, q.taskId, locked.snapshot);
      var prepared, one, two := PrepareCheckpoint(q);
      ghost var read, acts := storage.State(), storage.mine;
      NoActs(start, acts, |old(storage.mine)|, q);
      PutKeepsDb(start, CHECKPOINT_OBJECT_KIND, q.checkpoint.ToJson());
      EvolvesParts(start, read);
      if ExternalHead(start, q.taskId) && read.db == start.db {
        ExternalHeadStable(start, read, q.taskId);
      }
      if prepared.Err? {
        return Err(prepared.error), met;
      }
      ToldStable(start, read, q.taskId, locked.snapshot);
      var draft := CheckpointDraft(q, prepared.value.1, prepared.value.2, prepared.value.0);
      DraftReferences(read, q, prepared.value.1, prepared.value.2, prepared.value.0);
      r := kernel.Commit(locked, draft, q.commitMs);
      EvolvesTransitive(start, read, storage.State());
      ghost var next := NextProjection(locked.snapshot.projection, draft.transition, q.commitMs);
      DraftActs(q, locked.lease, locked.snapshot.projection, prepared.value.1, prepared.value.2);
      if Unhindered(start.db, q, locked.snapshot.projection, locked.lease) {
        UnhinderedNext(start.db, q, locked.snapshot.projection, locked.lease);
      }
      if next.Ok? {
        met := storage.mine[|storage.mine| - 1].store;
        EvolvesTransitive(start, read, met);
        ghost var record := RequestRecord(q, locked.lease, locked.snapshot.projection, prepared.value.1, prepared.value.2);
        DraftHandsOn(read, met, q, locked.lease, locked.snapshot.projection, one.value, two.value);
        CommitActs(start, acts, storage.mine, |old(storage.mine)|, q);
        PutKeepsDb(read, EVENT_OBJECT_KIND, PayloadJson(record));
        if met.db == start.db && Unhindered(start.db, q, locked.snapshot.projection, locked.lease) {
          UnhinderedCommits(met, q, locked.lease, locked.snapshot.projection, prepared.value.1, prepared.value.2);
        }
        if r.Ok? {
          AcceptedDraft(start, read, met, q, locked.lease, locked.snapshot, one.value, two.value, r.value.admission);
        }
      }
    }

    // Entering the block: the task stands at the expected revision, ready to continue.
    method EnterTransition(q: CheckpointRequest) returns (r: Result<LockedTask, HostError>)
      requires Valid() && RequestValid(q)
      modifies storage`cas, storage`others, storage`mine, storage.journal
      ensures storage.Advanced() && old(storage.mine) < storage.mine
      ensures NoAppendSince(storage.mine, |old(storage.mine)|)
      ensures r.Ok? ==>
                && fresh(r.value) && !r.value.committed
                && Told(storage.State(), q.taskId, r.value.snapshot)
                && r.value.snapshot.projection.revision == q.expectedRevision
                && r.value.snapshot.projection.state == Ready
                && r.value.snapshot.projection.readyFrontier == [ContinueNode(q.taskId)]
      ensures old(storage.others) == [] && Admissible(old(storage.State()), q, kernel.ownerId, kernel.leaseTtlMs)
              ==> && r.Ok? && ExternalHead(storage.State(), q.taskId)
                  && Unhindered(storage.State().db, q, r.value.snapshot.projection, r.value.lease)
    {
      hide StoreInv, Evolves, Told, RequestValid, Unmet, NextOf, ExternalHead, Unhindered, T.AcquireLease, Perform, Admissible;
      hide ActedOn, Disciplined, Revision, LeaseMatches, ContinueNode, T.ReleaseLease, LeftUnlocked, ExpectationAnswered;
      ghost var start := storage.State();
      if Admissible(start, q, kernel.ownerId, kernel.leaseTtlMs) {
        AdmissibleLocks(start, q, kernel.ownerId, kernel.leaseTtlMs);
      }
      r := kernel.Lock(q.taskId, Expected(Some(q.expectedRevision), Some(Ready), Some([ContinueNode(q.taskId)])), q.acquireMs);
      if r.Ok? && Admissible(start, q, kernel.ownerId, kernel.leaseTtlMs)
         && storage.State() == Perform(start, Acquire(q.taskId, kernel.ownerId, q.acquireMs, kernel.leaseTtlMs))
      {
        AdmissibleIsUnhindered(start, q, kernel.ownerId, kernel.leaseTtlMs, r.value.snapshot);
      }
    }

    // The `with locked_task` block of a checkpoint.
    method LockedCheckpoint(q: CheckpointRequest) returns (r: Result<Receipt, HostError>, ghost met: Store)
      requires Valid() && RequestValid(q)
      modifies storage`cas, storage`others, storage`mine, storage.journal
      ensures storage.Advanced() && old(storage.mine) < storage.mine
      ensures OnlyCheckpointActs(old(storage.State()), storage.mine, |old(storage.mine)|, q)
      ensures r.Ok? ==> RecordedCheckpoint(storage.State(), q, r.value.projection)
      ensures r.Ok? && r.value.admission == Created ==>
                CreatedOn(old(storage.State()), met, storage.State(), q) && AtNextRevision(storage.State(), q)
      ensures old(storage.others) == [] && Admissible(old(storage.State()), q, kernel.ownerId, kernel.leaseTtlMs)
              ==> r.Ok? && r.value.admission == Created
    {
      hide StoreInv, Evolves, Told, RequestValid, CreatedOn, RecordedCheckpoint, CheckpointCommit, NextOf, ExternalHead;
      hide Unhindered, Perform, Admissible, ActedOn, OnlyCheckpointActs, Revision, AtNextRevision, LeaseMatches, ContinueNode;
      ghost var start := storage.State();
      met := start;
      var locked := EnterTransition(q);
      ghost var entered, acts := storage.State(), storage.mine;
      NoActs(start, acts, |old(storage.mine)|, q);
      if locked.Err? {
        return Err(locked.error), met;
      }
      var receipt, found := CommitCheckpoint(q, locked.value);
      met := found;
      ghost var committed, acts' := storage.State(), storage.mine;
      EvolvesTransitive(start, entered, committed);
      ActsFromStart(start, entered, acts, acts', |old(storage.mine)|, q);
      var _ := kernel.Exit(locked.value, receipt.Err?);
      EvolvesTransitive(start, committed, storage.State());
      ActsStay(start, acts', storage.mine, |old(storage.mine)|, q);
      if receipt.Ok? && receipt.value.admission == Created {
        CreatedOnLater(start, entered, met, committed, q);
      }
      return receipt, met;
    }

    // The locked transition, and the read of the record that follows it.
    method TransitionCheckpoint(q: CheckpointRequest) returns (r: Result<CheckpointReceipt, HostError>, ghost met: Store)
      requires Valid() && RequestValid(q)
      modifies storage`cas, storage`others, storage`mine, storage.journal
      ensures storage.Advanced() && old(storage.mine) < storage.mine
      ensures OnlyCheckpointActs(old(storage.State()), storage.mine, |old(storage.mine)|, q)
      ensures r.Ok? ==> ReceiptTells(storage.State(), q, r.value)
      ensures r.Ok? && r.value.admission == Created ==> CreatedOn(old(storage.State()), met, storage.State(), q)
      ensures old(storage.others) == [] && Admissible(old(storage.State()), q, kernel.ownerId, kernel.leaseTtlMs)
              ==> r.Ok? && r.value.admission == Created && AtNextRevision(storage.State(), q)
    {
      hide StoreInv, Evolves, CreatedOn, RecordedCheckpoint, ReceiptTells, Admissible, CheckpointAt, OnlyCheckpointActs;
      ghost var start := storage.State();
      var receipt, found := LockedCheckpoint(q);
      met := found;
      if receipt.Err? {
        return Err(receipt.error), met;
      }
      ghost var left := storage.State();
      var record := ReadCheckpoint(q.taskId, receipt.value.projection.revision);
      EvolvesTransitive(start, left, storage.State());
      RecordedStable(left, storage.State(), q, receipt.value.projection, receipt.value.admission);
      if receipt.value.admission == Created {
        CreatedOnStable(start, met, left, storage.State(), q);
      }
      return Ok(CheckpointReceipt(receipt.value.admission, receipt.value.projection, record.value.value)), met;
    }

    // Checkpoint a task at an expected revision; an exact repetition of a request that has
    // committed is answered without writing anything.
    method Checkpoint(q: CheckpointRequest) returns (r: Result<CheckpointReceipt, HostError>, ghost met: Store)
      requires Valid() && q.checkpoint.Valid()
      modifies storage`cas, storage`others, storage`mine, storage.journal
      ensures storage.Advanced() && old(storage.mine) <= storage.mine
      ensures OnlyCheckpointActs(old(storage.State()), storage.mine, |old(storage.mine)|, q)
      ensures r.Ok? ==> ReceiptTells(storage.State(), q, r.value)
      // A new transition commits at its expected revision, and the task stays external.
      ensures r.Ok? && r.value.admission == Created ==> CreatedOn(old(storage.State()), met, storage.State(), q)
      ensures r.Ok? && (r.value.admission == Created || storage.mine == old(storage.mine))
              && Revision(storage.State(), q.taskId) == q.expectedRevision + 1
              ==> ExternalHead(storage.State(), q.taskId)
      // Bad arguments are refused before anything is read.
      ensures !C.IsWriterLabel(q.writer) || q.expectedRevision < 1 || q.checkpoint.taskId != q.taskId
              ==> r == Err(ValueError) && storage.State() == old(storage.State()) && storage.mine == old(storage.mine)
      // Undisturbed, the answer is determined.
      ensures old(storage.others) == [] && Admissible(old(storage.State()), q, kernel.ownerId, kernel.leaseTtlMs)
              ==> r.Ok? && r.value.admission == Created && AtNextRevision(storage.State(), q)
      ensures old(storage.others) == [] && RequestValid(q) && ExternalHead(old(storage.State()), q.taskId)
              && Revision(old(storage.State()), q.taskId) == q.expectedRevision
              && (|| old(storage.State()).db.projections[q.taskId].state != Ready
                  || old(storage.State()).db.projections[q.taskId].readyFrontier != [ContinueNode(q.taskId)])
              ==> r == Err(ValueError) && storage.State() == old(storage.State()) && storage.mine == old(storage.mine)
      ensures old(storage.others) == [] && RequestValid(q) && ExternalHead(old(storage.State()), q.taskId)
              && Revision(old(storage.State()), q.taskId) != q.expectedRevision
              ==> && storage.State() == old(storage.State()) && storage.mine == old(storage.mine)
                  && (AtNextRevision(old(storage.State()), q) && Committed(old(storage.State()), q) ==>
                        r.Ok? && r.value.admission == Existing)
                  && (!(AtNextRevision(old(storage.State()), q) && Committed(old(storage.State()), q)) ==> r.Err?)
    {
      hide StoreInv, Evolves, Told, CreatedOn, ReceiptTells, CheckpointCommit, CheckpointAt, NamesExternal;
      hide T.AcquireLease, Perform, Admissible, SnapshotAt, C.WorkingCheckpoint.Valid, C.WorkingCheckpoint.ToJson;
      hide TaskProjection.WellFormed;
      ghost var start := storage.State();
      met := start;
      EvolvesReflexive(start);
      if Admissible(start, q, kernel.ownerId, kernel.leaseTtlMs) {
        AdmissibleStarts(start, q, kernel.ownerId, kernel.leaseTtlMs);
      }
      if !C.IsWriterLabel(q.writer) || q.expectedRevision < 1 || q.checkpoint.taskId != q.taskId {
        return Err(ValueError), met;
      }
      var target := q.disposition.State();
      var current, seen := RequireExternalTask(q.taskId, None);
      ghost var required := storage.State();
      if current.Err? {
        return Err(current.error), met;
      }
      RecalledRevision(required, q.taskId, current.value);
      if current.value.revision != q.expectedRevision {
        if current.value.revision == q.expectedRevision + 1 {
          var existing := ReadCheckpoint(q.taskId, current.value.revision);
          EvolvesTransitive(start, required, storage.State());
          if existing.Err? {
            return Err(existing.error), met;
          }
          if existing.value.Some? && existing.value.value.digest == q.checkpoint.Digest() && current.value.state == target {
            ExistingTells(required, storage.State(), q, current.value, seen.value);
            return Ok(CheckpointReceipt(Existing, current.value, existing.value.value)), met;
          }
          RecallsStable(required, storage.State(), q.taskId, current.value);
          if start == storage.State() {
            NotCommitted(start, q, current.value);
          }
        }
        return Err(RevisionConflict), met;
      }
      if current.value.state != Ready || current.value.readyFrontier != [ContinueNode(q.taskId)] {
        return Err(ValueError), met;
      }
      ghost var acts := storage.mine;
      var receipt, found := TransitionCheckpoint(q);
      met := found;
      ActsFromStart(start, required, acts, storage.mine, |old(storage.mine)|, q);
      EvolvesTransitive(start, required, storage.State());
      if receipt.Ok? && receipt.value.admission == Created {
        CreatedOnLater(start, required, met, storage.State(), q);
        CreatedStaysExternal(required, met, storage.State(), q, seen.value);
      }
      return receipt, met;
    }
  }

  lemma SnapshotRevision(store: Store, t: string, s: TaskEventSnapshot)
    requires StoreInv(store) && Told(store, t, s)
    ensures 1 <= s.projection.revision <= Revision(store, t)
  {
    hide StoreInv;
    SnapshotNeedsEvent(store.db, t, s.projection.revision);
    EventsUpToHead(store, t, s.projection.revision);
  }

  // What was seen of the head after a projection of the same task had been read.
  ghost predicate SubjectSeen(store: Store, t: string, p: TaskProjection, s: TaskEventSnapshot) {
    && Told(store, t, s)
    && p.revision <= s.projection.revision <= Revision(store, t)
    && s.projection.taskId == t && s.projection.goalId == p.goalId
    && t in store.db.projections
  }

  lemma HeadExists(store: Store, t: string)
    requires ExternalHead(store, t)
    ensures t in store.db.projections
  {
  }

  // Undisturbed, the head that was met is the external head itself.
  lemma ExternalMet(start: Store, met: Store, t: string, s: TaskEventSnapshot)
    requires ExternalHead(start, t) && HeadMet(start, met, start, t, s) && StoreInv(start)
    ensures NamesExternal(met.cas, s)
  {
    hide StoreInv, Evolves, SnapshotAt, DescriptorIn;
    RevisionMonotone(start, met, t);
    RevisionMonotone(met, start, t);
    EvolvesParts(start, met);
    EvolvesParts(met, start);
    SnapshotStable(met, start, t, s.projection.revision);
    DescriptorStable(start.cas, met.cas, s);
  }

  lemma SeenAfter(store: Store, t: string, p: TaskProjection, s: TaskEventSnapshot)
    requires StoreInv(store) && Recalls(store, t, p) && Told(store, t, s) && p.revision <= s.projection.revision
    ensures s.projection.goalId == p.goalId && t in store.db.projections
  {
    hide StoreInv, SnapshotAt;
    GoalOfTask(store, t, p.revision, s.projection.revision);
    Present(store, t, s);
  }

  // What naming the external descriptor says about the two digest fields.
  lemma ExternalFields(cas: set<Digest>, s: TaskEventSnapshot)
    requires NamesExternal(cas, s)
    ensures StringField(s.data, "descriptorDigest").Some? && StringField(s.data, "descriptorObjectDigest").Some?
    ensures var o := Load(cas, StringField(s.data, "descriptorObjectDigest").value);
            o.Ok? && o.value.kind == DESCRIPTOR_OBJECT_KIND
  {
  }
}
