// Reading Task Events back: a row, the object its payload digest names, and the checks
// that tie the two together.
module Snapshots {
  import opened Base
  import opened Json
  import opened Domain
  import opened Tables
  import opened Storage
  import opened Evolution
  import opened Workers

  datatype TaskEventSnapshot = TaskEventSnapshot(
    kind: EventKind, data: Value, projection: TaskProjection, payloadDigest: Digest)

  // The bytes at an address, decoded, if they are an object of the expected kind.
  function GetObject(cas: set<Digest>, d: Digest, kind: string): Result<Value, HostError> {
    if d !in cas then Err(ObjectMissing)
    else
      match Open(d)
      case None => Err(ObjectCorrupt)
      case Some(o) => if o.kind != kind then Err(ObjectCorrupt) else Ok(o.payload)
  }

  // _read_task_event_pointer
  function ReadPointer(cas: set<Digest>, e: EventRow): Result<TaskEventSnapshot, HostError> {
    match GetObject(cas, e.payloadDigest, EVENT_OBJECT_KIND)
    case Err(error) => Err(error)
    case Ok(v) =>
      if !v.Obj? || v.fields.Keys != EVENT_FIELDS then Err(ObjectCorrupt)
      else if v.fields["schemaVersion"] != Num(1) || v.fields["kind"] != Str(EVENT_WIRE_KIND) then Err(ObjectCorrupt)
      else if v.fields["eventKind"] != Str(e.kind.Text()) then Err(JournalCorruption)
      else
        match ProjectionFromJson(v.fields["projection"])
        case None => Err(ObjectCorrupt)
        case Some(p) =>
          if p.taskId != e.streamId || p.revision != e.streamRevision then Err(JournalCorruption)
          else Ok(TaskEventSnapshot(e.kind, v.fields["data"], p, e.payloadDigest))
  }

  // What an event of a healthy store reads as.
  function SnapshotOf(e: EventRow): Option<TaskEventSnapshot> {
    match Snapshot(e)
    case None => None
    case Some(t) => Some(TaskEventSnapshot(e.kind, t.data, t.projection, e.payloadDigest))
  }

  function SnapshotAt(db: Db, t: string, revision: int): Option<TaskEventSnapshot> {
    match EventAt(db, t, revision)
    case None => None
    case Some(e) => SnapshotOf(e)
  }

  lemma ReadPointerOk(cas: set<Digest>, e: EventRow)
    requires PayloadMatches(e) && e.payloadDigest in cas
    ensures SnapshotOf(e).Some? && ReadPointer(cas, e) == Ok(SnapshotOf(e).value)
  {
  }

  lemma PayloadInCas(store: Store, t: string, revision: int)
    requires StoreInv(store) && EventAt(store.db, t, revision).Some?
    ensures EventAt(store.db, t, revision).value.payloadDigest in store.cas
  {
    LogMembers(store.db.events, t);
    assert EventAt(store.db, t, revision).value in store.db.events;
  }

  // Theorem: in a healthy store every event reads back, as what was recorded under its
  // stream and revision.
  lemma EventsReadBack(store: Store, t: string, revision: int)
    requires StoreInv(store) && EventAt(store.db, t, revision).Some?
    ensures var e := EventAt(store.db, t, revision).value;
            && SnapshotAt(store.db, t, revision).Some?
            && ReadPointer(store.cas, e) == Ok(SnapshotAt(store.db, t, revision).value)
    ensures var s := SnapshotAt(store.db, t, revision).value;
            && s.projection.taskId == t
            && s.projection.revision == revision
            && s.projection.WellFormed()
            && s.projection == ProjectionOf(EventAt(store.db, t, revision).value)
  {
    StoreParts(store);
    EventFacts(store.db, t, revision);
    PayloadInCas(store, t, revision);
    ReadPointerOk(store.cas, EventAt(store.db, t, revision).value);
  }

  lemma SnapshotStable(before: Store, after: Store, t: string, revision: int)
    requires Evolves(before, after) && SnapshotAt(before.db, t, revision).Some?
    ensures SnapshotAt(after.db, t, revision) == SnapshotAt(before.db, t, revision)
  {
    EventAtStable(before.db, after.db, t, revision);
  }

  // A task's events are exactly those at revisions 1 to its current one.
  lemma EventsUpToHead(store: Store, t: string, revision: int)
    requires StoreInv(store)
    ensures EventAt(store.db, t, revision).Some? <==> 1 <= revision <= Revision(store, t)
  {
    hide StoreInv, HistoryInv, Snapshot;
    StoreParts(store);
    if t in store.db.projections {
      CurrentEvent(store.db, t);
    } else {
      LogEmpty(store.db.events, t);
    }
  }

  // The current projection is the one in the head event.
  lemma HeadSnapshot(store: Store, t: string)
    requires StoreInv(store) && t in store.db.projections
    ensures t in store.db.streams && store.db.streams[t].revision == Revision(store, t) >= 1
    ensures SnapshotAt(store.db, t, Revision(store, t)).Some?
    ensures SnapshotAt(store.db, t, Revision(store, t)).value.projection == store.db.projections[t]
  {
    StoreParts(store);
    CurrentEvent(store.db, t);
    EventsReadBack(store, t, Revision(store, t));
  }

  // A pointer reads exactly as the event its payload holds, of the row's kind, stream and revision.
  lemma ReadPointerExactly(cas: set<Digest>, e: EventRow, s: TaskEventSnapshot)
    ensures ReadPointer(cas, e) == Ok(s) <==>
              && e.payloadDigest in cas
              && EventAtDigest(e.payloadDigest) == Some(TaskEvent(e.kind.Text(), s.data, s.projection))
              && s.kind == e.kind && s.payloadDigest == e.payloadDigest
              && s.projection.taskId == e.streamId && s.projection.revision == e.streamRevision
  {
    hide ProjectionFromJson, Open;
  }
}
