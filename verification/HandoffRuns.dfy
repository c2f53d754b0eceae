// What the operator handoff says of external work, over every run of adoptions and checkpoints.
module HandoffRuns {
  import opened Base
  import opened Json
  import opened Domain
  import opened Tables
  import opened Transactions
  import opened Storage
  import opened Evolution
  import opened Snapshots
  import opened HostStorage
  import opened Descriptors
  import opened ContinuityRecords
  import opened Handoff
  import opened History
  import opened HistoryRuns
  import C = Checkpoints
  import Text

  // A continuity record hands over external work: no effect to repeat, no decision to await.
  lemma RecordHandsOver(s: TaskEventSnapshot, c: C.WorkingCheckpoint, writer: Option<string>)
    requires Names(s, c, writer)
    ensures MustNotRepeat(s) == [] && !OutcomeUnknown(s.kind)
    ensures StringField(s.data, "decisionRequestId").None?
    ensures s.projection.state == Ready || s.projection.state.Terminal()
  {
    hide RecordData, C.WorkingCheckpoint.Valid, C.IsWriterLabel, External, DescriptorDigest, CheckpointObject;
    var t, g := s.projection.taskId, s.projection.goalId;
    RecordDataFields(Hash(External(t, g).Digest()), Hash(DescriptorDigest(t, g)), c, writer);
    assert "effectDigest" !in RECORD_FIELDS + {"writerLabel"} && "decisionRequestId" !in RECORD_FIELDS + {"writerLabel"};
  }

  lemma ToldHandsOver(store: Store, t: string, s: TaskEventSnapshot)
    requires StoreInv(store) && Told(store, t, s) && AllNamed(store.db)
    ensures MustNotRepeat(s) == [] && !OutcomeUnknown(s.kind)
    ensures StringField(s.data, "decisionRequestId").None?
    ensures s.projection.state == Ready || s.projection.state.Terminal()
  {
    hide StoreInv, SnapshotOf, Names, AdmittedBy, EdgesOf, MustNotRepeat, StringField, OutcomeUnknown, CheckpointObject;
    hide DescriptorDigest, SnapshotAt;
    var i := ToldAt(store, t, s);
    assert Attested(store.db, i);
    var s', c, writer :| EventNames(store.db, i, s', c, writer);
    RecordHandsOver(s, c, writer);
  }

  // Whichever event the descriptor is read from, it is the task's own.
  lemma ToldDescriptor(store: Store, t: string, s: TaskEventSnapshot)
    requires StoreInv(store) && Told(store, t, s) && AllNamed(store.db)
    ensures DescriptorIn(store.cas, s) == Ok(Some(External(t, s.projection.goalId)))
  {
    hide StoreInv, AllNamed, SnapshotAt, AdmittedBy, FromJson, Open;
    var g := s.projection.goalId;
    ToldNames(store, t, s);
    var i := ToldAt(store, t, s);
    ReferenceStored(store, |store.db.events| - 1, DescriptorDigest(t, g));
    assert Text.IsLabel(DESCRIPTOR_OBJECT_KIND);
    OpenAddress(DESCRIPTOR_OBJECT_KIND, External(t, g).ToJson());
    DescriptorRoundTrip(External(t, g));
  }

  // A terminal event is the last of its task.
  lemma TerminalIsHead(store: Store, t: string, s: TaskEventSnapshot)
    requires StoreInv(store) && Told(store, t, s) && s.projection.state.Terminal()
    ensures s.projection.revision == Revision(store, t)
  {
    hide StoreInv, Snapshot, SequentialLog;
    var i := s.projection.revision;
    SnapshotNeedsEvent(store.db, t, i);
    EventsUpToHead(store, t, i);
    EventsReadBack(store, t, i);
    LogSequential(store, t, i);
    if i < Revision(store, t) {
      EventsUpToHead(store, t, Revision(store, t));
      SequentialOrder(Log(store.db.events, t), i - 1, Revision(store, t) - 1);
    }
  }

  lemma StringDigest(store: Store, t: string, s: TaskEventSnapshot)
    requires StoreInv(store) && Told(store, t, s) && AllNamed(store.db)
    ensures StringField(s.data, "descriptorDigest") == Some(Hash(External(t, s.projection.goalId).Digest()))
  {
    hide StoreInv, AllNamed, SnapshotAt, AdmittedBy;
    ToldNames(store, t, s);
  }

  // Theorem: in every run of adoptions and checkpoints, whatever a capsule was built from,
  // it asks for continued external work exactly while the work is not over and for nothing
  // afterwards, forbids no repetition, and is told of a finished task only at its last event.
  lemma ContinuityHandoff(acts: seq<Action>, t: string, told: TaskEventSnapshot, seen: TaskEventSnapshot)
    requires ContinuityRun(FRESH, acts)
    requires Told(Run(FRESH, acts), t, told) && Told(Run(FRESH, acts), t, seen)
    ensures var store := Run(FRESH, acts);
            && DescriptorIn(store.cas, seen).Ok?
            && var c := CapsuleOf(told, DescriptorIn(store.cas, seen).value);
            && c.nextAdmissible == (if c.taskState.Terminal() then [] else [CONTINUE])
            && c.mustNotRepeat == []
            && c.descriptorDigest == Some(Hash(External(t, c.goalId).Digest()))
            && (c.taskRevision < Revision(store, t) ==> c.nextAdmissible == [CONTINUE])
  {
    hide StoreInv, Attested, ContinuityRun, DescriptorIn, MustNotRepeat, OutcomeUnknown, SnapshotAt, TaskDescriptor.ToJson;
    hide TaskProjection.WellFormed, StringField;
    var store := Run(FRESH, acts);
    FreshStoreInv();
    RunKeeps(FRESH, acts);
    RunNamed(FRESH, acts);
    ToldHandsOver(store, t, told);
    ToldDescriptor(store, t, seen);
    StringDigest(store, t, told);
    if told.projection.state.Terminal() {
      TerminalIsHead(store, t, told);
    }
  }
}
