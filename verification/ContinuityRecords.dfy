// What an external-continuity event records, and how a reader takes it apart again.
module ContinuityRecords {
  import opened Base
  import opened Json
  import opened Domain
  import opened Storage
  import opened Evolution
  import opened Workers
  import opened Snapshots
  import opened HostStorage
  import opened Descriptors
  import C = Checkpoints
  import Text

  const CHECKPOINT_OBJECT_KIND := "host-working-checkpoint"
  const CHECKPOINT_EVENT := Core(TaskContextCheckpointed)

  datatype CheckpointRecord = CheckpointRecord(
    checkpoint: C.WorkingCheckpoint, digest: Digest, objectDigest: Digest, taskRevision: int, writer: Option<string>)

  const RECORD_FIELDS := {"descriptorDigest", "descriptorObjectDigest", "checkpointDigest", "checkpointObjectDigest"}

  // The 96-bit hash token of a task is modelled as the task identity itself.
  function ContinueNode(t: string): string {
    "node:external-continuity:" + t + ":continue"
  }

  function EventId(t: string, stage: string, revision: nat): string {
    "event:external-continuity:" + t + ":" + stage + ":r" + Text.Decimal(revision)
  }

  function CheckpointObject(c: C.WorkingCheckpoint): StoredObject {
    Described(CHECKPOINT_OBJECT_KIND, c.ToJson())
  }

  function RecordData(descriptor: Value, descriptorObject: Value, c: C.WorkingCheckpoint, writer: Option<string>): Value {
    var fields := map[
      "descriptorDigest" := descriptor,
      "descriptorObjectDigest" := descriptorObject,
      "checkpointDigest" := Hash(c.Digest()),
      "checkpointObjectDigest" := Hash(CheckpointObject(c).digest)];
    Obj(if writer.Some? then fields["writerLabel" := Str(writer.value)] else fields)
  }

  // validate_writer_label over what the payload holds; a present null is refused as well.
  function WriterIn(data: Value): Result<Option<string>, HostError> {
    match Field(data, "writerLabel")
    case None => Ok(None)
    case Some(v) => if v.Str? && C.IsWriterLabel(Some(v.s)) then Ok(Some(v.s)) else Err(JournalCorruption)
  }

  function CheckpointObjectIn(cas: set<Digest>, named: Value): Result<C.WorkingCheckpoint, HostError> {
    match Load(cas, named)
    case Err(e) => Err(e)
    case Ok(o) =>
      if o.kind != CHECKPOINT_OBJECT_KIND then Err(ObjectCorrupt)
      else
        match C.FromJson(o.payload)
        case None => Err(ObjectCorrupt)
        case Some(c) => Ok(c)
  }

  // _checkpoint_from_snapshot
  function RecordIn(cas: set<Digest>, s: TaskEventSnapshot): Result<CheckpointRecord, HostError> {
    if !s.data.Obj? then Err(JournalCorruption)
    else if s.data.fields.Keys != RECORD_FIELDS && s.data.fields.Keys != RECORD_FIELDS + {"writerLabel"}
    then Err(JournalCorruption)
    else
      match WriterIn(s.data)
      case Err(e) => Err(e)
      case Ok(writer) =>
        var digest, object' := s.data.fields["checkpointDigest"], s.data.fields["checkpointObjectDigest"];
        if !IsString(digest) || !IsString(object') then Err(JournalCorruption)
        else
          match CheckpointObjectIn(cas, object')
          case Err(e) => Err(e)
          case Ok(c) =>
            if c.taskId != s.projection.taskId || digest != Hash(c.Digest()) then Err(JournalCorruption)
            else Ok(CheckpointRecord(c, c.Digest(), object'.digest, s.projection.revision, writer))
  }

  predicate Bears(s: TaskEventSnapshot) {
    || s.kind == CHECKPOINT_EVENT
    || (s.kind == Core(TaskCreated)
        && Field(s.data, "checkpointDigest").Some? && Field(s.data, "checkpointObjectDigest").Some?)
  }

  // _checkpoint_at_revision, given the event: a checkpoint event, or a creation that
  // carries a seed. Any other event has no checkpoint.
  function CheckpointIn(cas: set<Digest>, s: TaskEventSnapshot): Result<Option<CheckpointRecord>, HostError> {
    if Bears(s) then
      match RecordIn(cas, s)
      case Ok(record) => Ok(Some(record))
      case Err(e) => Err(e)
    else Ok(None)
  }

  function CheckpointAt(store: Store, t: string, revision: int): Result<Option<CheckpointRecord>, HostError> {
    match SnapshotAt(store.db, t, revision)
    case None => Ok(None)
    case Some(s) => CheckpointIn(store.cas, s)
  }

  // _initial_checkpoint: the seed of revision 1, else the checkpoint of revision 2.
  function InitialCheckpoint(store: Store, t: string): Result<Option<CheckpointRecord>, HostError> {
    match CheckpointAt(store, t, 1)
    case Err(e) => Err(e)
    case Ok(Some(seeded)) => Ok(Some(seeded))
    case Ok(None) => CheckpointAt(store, t, 2)
  }

  lemma CheckpointObjectReads(cas: set<Digest>, c: C.WorkingCheckpoint)
    requires c.Valid() && CheckpointObject(c).digest in cas
    ensures CheckpointObjectIn(cas, Hash(CheckpointObject(c).digest)) == Ok(c)
  {
    hide C.FromJson, Open, C.WorkingCheckpoint.ToJson, C.WorkingCheckpoint.Valid;
    assert Text.IsLabel(CHECKPOINT_OBJECT_KIND);
    OpenAddress(CHECKPOINT_OBJECT_KIND, c.ToJson());
    C.CheckpointRoundTrip(c);
  }

  lemma RecordDataFields(descriptor: Value, descriptorObject: Value, c: C.WorkingCheckpoint, writer: Option<string>)
    ensures var data := RecordData(descriptor, descriptorObject, c, writer);
            && data.Obj?
            && data.fields.Keys == (if writer.Some? then RECORD_FIELDS + {"writerLabel"} else RECORD_FIELDS)
            && data.fields["descriptorDigest"] == descriptor && data.fields["descriptorObjectDigest"] == descriptorObject
            && data.fields["checkpointDigest"] == Hash(c.Digest())
            && data.fields["checkpointObjectDigest"] == Hash(CheckpointObject(c).digest)
            && (writer.Some? ==> data.fields["writerLabel"] == Str(writer.value))
  {
    hide C.WorkingCheckpoint.ToJson;
    assert RecordData(descriptor, descriptorObject, c, writer).fields.Keys ==
           if writer.Some? then RECORD_FIELDS + {"writerLabel"} else RECORD_FIELDS;
  }

  // What a reader takes out of the data a writer recorded.
  lemma RecordDataReads(
    cas: set<Digest>, kind: EventKind, descriptor: Value, descriptorObject: Value, c: C.WorkingCheckpoint,
    writer: Option<string>, p: TaskProjection, payload: Digest)
    requires c.Valid() && c.taskId == p.taskId && C.IsWriterLabel(writer) && CheckpointObject(c).digest in cas
    requires kind == CHECKPOINT_EVENT || kind == Core(TaskCreated)
    ensures var s := TaskEventSnapshot(kind, RecordData(descriptor, descriptorObject, c, writer), p, payload);
            && CheckpointIn(cas, s) ==
               Ok(Some(CheckpointRecord(c, c.Digest(), CheckpointObject(c).digest, p.revision, writer)))
            && Field(s.data, "descriptorDigest") == Some(descriptor)
            && Field(s.data, "descriptorObjectDigest") == Some(descriptorObject)
  {
    hide C.WorkingCheckpoint.ToJson, C.WorkingCheckpoint.Valid, C.IsWriterLabel, RecordData, CheckpointObjectIn;
    CheckpointObjectReads(cas, c);
    RecordDataFields(descriptor, descriptorObject, c, writer);
  }

  // A checkpoint that has been read is read the same way for ever.
  lemma CheckpointInStable(before: set<Digest>, after: set<Digest>, s: TaskEventSnapshot)
    requires before <= after && CheckpointIn(before, s).Ok?
    ensures CheckpointIn(after, s) == CheckpointIn(before, s)
  {
  }

  lemma CheckpointStable(before: Store, after: Store, t: string, revision: int)
    requires Evolves(before, after) && SnapshotAt(before.db, t, revision).Some? && CheckpointAt(before, t, revision).Ok?
    ensures CheckpointAt(after, t, revision) == CheckpointAt(before, t, revision)
  {
    hide CheckpointIn;
    EvolvesParts(before, after);
    SnapshotStable(before, after, t, revision);
    CheckpointInStable(before.cas, after.cas, SnapshotAt(before.db, t, revision).value);
  }

  lemma CheckpointNeedsSnapshot(store: Store, t: string, revision: int)
    requires CheckpointAt(store, t, revision).Ok? && CheckpointAt(store, t, revision).value.Some?
    ensures SnapshotAt(store.db, t, revision).Some?
  {
  }

  // Theorem: once a task has an initial checkpoint it never has another.
  lemma InitialCheckpointStable(before: Store, after: Store, t: string)
    requires StoreInv(before) && Evolves(before, after)
    requires InitialCheckpoint(before, t).Ok? && InitialCheckpoint(before, t).value.Some?
    ensures InitialCheckpoint(after, t) == InitialCheckpoint(before, t)
  {
    hide CheckpointIn, StoreInv, Evolves, SnapshotAt;
    if CheckpointAt(before, t, 1).value.Some? {
      CheckpointNeedsSnapshot(before, t, 1);
      CheckpointStable(before, after, t, 1);
    } else {
      CheckpointNeedsSnapshot(before, t, 2);
      SnapshotNeedsEvent(before.db, t, 2);
      EventsUpToHead(before, t, 2);
      EventsUpToHead(before, t, 1);
      EventsReadBack(before, t, 1);
      CheckpointStable(before, after, t, 1);
      CheckpointStable(before, after, t, 2);
    }
  }

  // When a reader is given a checkpoint record: the data holds the four digests and at most a
  // writer, the checkpoint is stored under its digest and is this task's, and the record says
  // just that, at the event's own revision.
  lemma RecordExactly(cas: set<Digest>, s: TaskEventSnapshot, r: CheckpointRecord)
    ensures RecordIn(cas, s) == Ok(r) <==>
              && s.data.Obj?
              && var f := s.data.fields;
              && f.Keys - {"writerLabel"} == {"descriptorDigest", "descriptorObjectDigest", "checkpointDigest", "checkpointObjectDigest"}
              && (if "writerLabel" in f then f["writerLabel"].Str? && C.IsWriterLabel(r.writer) && r.writer == Some(f["writerLabel"].s)
                  else r.writer == None)
              && f["checkpointDigest"] == Hash(r.checkpoint.Digest()) && r.digest == r.checkpoint.Digest()
              && f["checkpointObjectDigest"] == Hash(r.objectDigest)
              && r.objectDigest in cas && Open(r.objectDigest).Some?
              && Open(r.objectDigest).value.kind == "host-working-checkpoint"
              && C.FromJson(Open(r.objectDigest).value.payload) == Some(r.checkpoint)
              && r.checkpoint.taskId == s.projection.taskId
              && r.taskRevision == s.projection.revision
  {
    hide Open, C.FromJson, C.WorkingCheckpoint.ToJson, C.IsWriterLabel;
    if s.data.Obj? {
      var f := s.data.fields;
      assert f.Keys - {"writerLabel"} == RECORD_FIELDS <==> f.Keys == RECORD_FIELDS || f.Keys == RECORD_FIELDS + {"writerLabel"};
    }
  }
}
