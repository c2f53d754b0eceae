// When a task matches a listing throughout: it stays on the list while it is checkpointed.
module TaskStays {
  import opened Base
  import opened Json
  import opened Domain
  import opened Tables
  import opened Transactions
  import opened JournalInvariants
  import opened Storage
  import opened Evolution
  import opened Workers
  import opened Snapshots
  import opened HostStorage
  import opened Descriptors
  import opened ContinuityRecords
  import opened Admissions
  import opened Continuity
  import opened TaskList
  import opened TaskWalk
  import C = Checkpoints

  // The object a checkpoint event names, if it names one by digest.
  function CheckpointNamed(s: TaskEventSnapshot): Option<Digest> {
    match Field(s.data, "checkpointObjectDigest")
    case Some(Hash(d)) => Some(d)
    case _ => None
  }

  // One revision belongs to the list, its descriptor was stored at the start, and its
  // checkpoint was admitted with its own event.
  ghost predicate RevisionListed(start: Store, end: Store, q: Query, t: string, revision: int) {
    && EventAt(end.db, t, revision).Some? && SnapshotAt(end.db, t, revision).Some?
    && var e, s := EventAt(end.db, t, revision).value, SnapshotAt(end.db, t, revision).value;
    && NamesExternal(start.cas, s)
    && (q.includeTerminal || !s.projection.state.Terminal())
    && CheckpointIn(end.cas, s).Ok? && InWorkspace(q, CheckpointIn(end.cas, s).value)
    && (Bears(s) ==> CheckpointNamed(s).Some? && CheckpointNamed(s).value in EdgesOf(end.db, e.eventId))
  }

  lemma CheckpointReadsEarlier(small: set<Digest>, big: set<Digest>, s: TaskEventSnapshot)
    requires small <= big && CheckpointIn(big, s).Ok?
    requires Bears(s) ==> CheckpointNamed(s).Some? && CheckpointNamed(s).value in small
    ensures CheckpointIn(small, s) == CheckpointIn(big, s)
  {
    hide C.FromJson, Open;
  }

  // What an event's edges name is stored in every healthy store that has the event.
  lemma EdgesStored(met: Store, end: Store, t: string, revision: int, d: Digest)
    requires StoreInv(met) && Evolves(met, end) && EventAt(met.db, t, revision).Some?
    requires d in EdgesOf(end.db, EventAt(met.db, t, revision).value.eventId)
    ensures d in met.cas
  {
    hide TasksAdvance, ExtensionInv, BoardInv, NewsInv, LeaseInv, HistoryInv, TimingInv, UniqueEvents, StreamInv;
    var e := EventAt(met.db, t, revision).value;
    LogMembers(met.db.events, t);
    assert e in met.db.events;
    assert EdgesOk(e, met.db.edges);
    assert d in met.db.edges[e.eventId];
    assert d in met.db.objects;
  }

  lemma AdvancedMatches(start: Store, met: Store, end: Store, q: Query, t: string)
    requires StoreInv(start) && StoreInv(met) && StoreInv(end) && Evolves(start, met) && Evolves(met, end)
    requires MatchesNow(start, q, t) && Revision(start, t) < Revision(met, t)
    requires RevisionListed(start, end, q, t, Revision(met, t))
    ensures MatchesNow(met, q, t)
  {
    hide StoreInv, Evolves, DescriptorIn, CheckpointIn, SnapshotAt, BornDescribed, InWorkspace, Bears, CheckpointNamed, EdgesOf;
    var m := Revision(met, t);
    HeadOfAdvanced(start, met, t);
    HeadSnapshot(met, t);
    EventsUpToHead(met, t, m);
    EvolvesParts(start, met);
    EvolvesParts(met, end);
    BornDescribedStable(start, met, t);
    SnapshotStable(met, end, t, m);
    EventAtStable(met.db, end.db, t, m);
    var s := SnapshotAt(met.db, t, m).value;
    DescriptorStable(start.cas, met.cas, s);
    if Bears(s) {
      EdgesStored(met, end, t, m, CheckpointNamed(s).value);
    }
    CheckpointReadsEarlier(met.cas, end.cas, s);
  }

  lemma HeadOfAdvanced(start: Store, met: Store, t: string)
    requires StoreInv(met) && Evolves(start, met) && t in start.db.projections
    ensures t in met.db.projections && t in met.db.streams
    ensures met.db.projections[t].goalId == start.db.projections[t].goalId
  {
    assert TaskAdvances(TasksOf(start), TasksOf(met), t);
    StoreTasks(met);
  }

  // Theorem: a task matches throughout if it matches at the start and each of its later
  // revisions belongs to the list, whatever else happens and however it interleaves.
  lemma StaysListed(start: Store, end: Store, q: Query, t: string)
    requires StoreInv(start) && StoreInv(end) && Evolves(start, end) && MatchesNow(start, q, t)
    requires forall m :: Revision(start, t) < m <= Revision(end, t) ==> RevisionListed(start, end, q, t, m)
    ensures MatchesThroughout(start, end, q, t)
  {
    hide StoreInv, Evolves, MatchesNow, RevisionListed;
    forall met | Between(start, met, end)
      ensures MatchesNow(met, q, t)
    {
      RevisionMonotone(start, met, t);
      RevisionMonotone(met, end, t);
      if Revision(met, t) == Revision(start, t) {
        MatchesNowStable(start, met, q, t);
      } else {
        AdvancedMatches(start, met, end, q, t);
      }
    }
  }

  // Theorem: a continuing checkpoint in the workspace asked for, which hands on the head's
  // descriptor, keeps its task on the list in every store on the way.
  lemma CheckpointStaysListed(start: Store, r: Record, c: CheckpointRequest, q: Query)
    requires StoreInv(start) && Disciplined(start, Append(r)) && MatchesNow(start, q, c.taskId)
    requires AppendTaskEvent(start.db, RecordRequest(r)).result == Ok(Created)
    requires RequestValid(c) && CheckpointAct(c, r) && c.disposition == Continue
    requires var head := SnapshotAt(start.db, c.taskId, Revision(start, c.taskId));
             && head.Some?
             && r.projection.goalId == head.value.projection.goalId
             && Field(r.data, "descriptorDigest") == StringField(head.value.data, "descriptorDigest")
             && Field(r.data, "descriptorObjectDigest") == StringField(head.value.data, "descriptorObjectDigest")
    requires InWorkspace(q, Some(RecordOf(c)))
    ensures MatchesThroughout(start, Perform(start, Append(r)), q, c.taskId)
  {
    hide StoreInv, Evolves, MatchesNow, RevisionListed, AppendTaskEvent, Perform, RequestValid, CheckpointAct, SnapshotAt;
    hide Disciplined, Field, StringField, InWorkspace;
    var end := Perform(start, Append(r));
    StepKeeps(start, Append(r));
    AppendEvolves(start, r);
    ActNamesTask(c, r);
    CreatedAt(start, r);
    NextListed(start, r, c, q);
    StaysListed(start, end, q, c.taskId);
  }

  lemma ActNamesTask(c: CheckpointRequest, r: Record)
    requires CheckpointAct(c, r)
    ensures r.projection.taskId == c.taskId && r.expectedRevision == c.expectedRevision
    ensures r.projection.revision == c.expectedRevision + 1 && r.projection.state == c.disposition.State()
    ensures r.kind == CHECKPOINT_EVENT && CheckpointObject(c.checkpoint) in r.referenced
    ensures exists descriptor, descriptorObject :: r.data == RecordData(descriptor, descriptorObject, c.checkpoint, c.writer)
  {
    hide RecordData, CheckpointObject;
  }

  lemma NextListed(start: Store, r: Record, c: CheckpointRequest, q: Query)
    requires StoreInv(start) && Disciplined(start, Append(r)) && MatchesNow(start, q, c.taskId)
    requires AppendTaskEvent(start.db, RecordRequest(r)).result == Ok(Created)
    requires RequestValid(c) && CheckpointAct(c, r) && c.disposition == Continue
    requires var head := SnapshotAt(start.db, c.taskId, Revision(start, c.taskId));
             && head.Some?
             && r.projection.goalId == head.value.projection.goalId
             && Field(r.data, "descriptorDigest") == StringField(head.value.data, "descriptorDigest")
             && Field(r.data, "descriptorObjectDigest") == StringField(head.value.data, "descriptorObjectDigest")
    requires InWorkspace(q, Some(RecordOf(c)))
    ensures RevisionListed(start, Perform(start, Append(r)), q, c.taskId, c.expectedRevision + 1)
  {
    hide StoreInv, AppendTaskEvent, SnapshotAt, Disciplined, RecordData, C.WorkingCheckpoint.ToJson, C.WorkingCheckpoint.Valid;
    hide C.IsWriterLabel, DescriptorIn, CheckpointIn, InWorkspace, PayloadJson, StringField, CheckpointAct, CheckpointObject;
    var end := Perform(start, Append(r));
    var t := c.taskId;
    ActNamesTask(c, r);
    CreatedAt(start, r);
    AcceptedSnapshot(start, r);
    SnapshotNeedsEvent(end.db, t, c.expectedRevision + 1);
    var descriptor, descriptorObject :| r.data == RecordData(descriptor, descriptorObject, c.checkpoint, c.writer);
    RecordDataFields(descriptor, descriptorObject, c.checkpoint, c.writer);
    ReferencedStored(start, r, CheckpointObject(c.checkpoint));
    RecordDataReads(end.cas, r.kind, descriptor, descriptorObject, c.checkpoint, c.writer, r.projection,
                    Address(EVENT_OBJECT_KIND, PayloadJson(r)));
    HeadIsExternal(start, t, q);
    DescriptorHandedOn(start.cas, SnapshotAt(start.db, t, Revision(start, t)).value, SnapshotOfRecord(r));
    NewEventAt(start, r, CheckpointObject(c.checkpoint));
  }

  lemma HeadIsExternal(store: Store, t: string, q: Query)
    requires StoreInv(store) && MatchesNow(store, q, t)
    ensures t in store.db.projections && SnapshotAt(store.db, t, Revision(store, t)).Some?
    ensures NamesExternal(store.cas, SnapshotAt(store.db, t, Revision(store, t)).value)
    ensures SnapshotAt(store.db, t, Revision(store, t)).value.projection.taskId == t
  {
    hide StoreInv, DescriptorIn, SnapshotAt, CheckpointAt, BornDescribed;
    EventsUpToHead(store, t, Revision(store, t));
    HeadSnapshot(store, t);
    SnapshotNeedsEvent(store.db, t, Revision(store, t));
    EventsReadBack(store, t, Revision(store, t));
  }

  lemma ReferencedStored(store: Store, r: Record, o: StoredObject)
    requires Disciplined(store, Append(r)) && o in r.referenced
    ensures o.digest in store.cas
  {
  }

  // The new event stands at its revision, and its edges name what the record referenced.
  lemma NewEventAt(store: Store, r: Record, o: StoredObject)
    requires StoreInv(store) && AppendTaskEvent(store.db, RecordRequest(r)).result == Ok(Created) && o in r.referenced
    ensures var after := Perform(store, Append(r)).db;
            && EventAt(after, r.projection.taskId, r.projection.revision).Some?
            && EventAt(after, r.projection.taskId, r.projection.revision).value.eventId == r.eventId
            && o.digest in EdgesOf(after, r.eventId)
  {
    hide StoreInv, AppendTaskEvent, Snapshot, AdmissionRefusal, AdmittedAll, PayloadJson, StreamInv, TaskProjection.WellFormed;
    StoreParts(store);
    CreatedMeansAppended(store.db, RecordRequest(r));
    CommitFence(store, r);
    HistoryLength(store.db, r.projection.taskId, r.expectedRevision);
    LogSnoc(store.db.events, AdmittedRow(RecordRequest(r)), r.projection.taskId);
    assert o.digest in Digests(r.referenced) by {
      var i :| 0 <= i < |r.referenced| && r.referenced[i] == o;
    }
  }
}
