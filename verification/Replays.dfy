// Lost responses at the journal itself: what a repeated append is told, however much was
// appended since, and what no append can do at all.
module Replays {
  import opened Base
  import opened Json
  import opened Domain
  import opened Tables
  import opened Transactions
  import opened JournalInvariants
  import opened Answers
  import opened Storage
  import opened Evolution
  import opened Workers

  // The pointer of the record's namespace is still the one the record set.
  predicate OwnsPointer(db: Db, r: Record) {
    r.extension.Some? ==>
      Pointer(db.extensions, r.projection.taskId, r.extension.value.ns) ==
      Some(ExtensionRow(r.extension.value.stored.digest, r.eventId, r.projection.revision, false))
  }

  // The same record, under a lease of its own that is live when it is checked.
  ghost predicate Repeats(later: Store, r: Record, retry: Record) {
    && retry == r.(lease := retry.lease, checkedAtMs := retry.checkedAtMs)
    && Preflight(RecordRequest(retry)).None?
    && (retry.lease.Some? ==>
          retry.checkedAtMs.Some? && LeaseValidates(later.db, retry.lease.value, retry.checkedAtMs.value))
  }

  // The row and the edges a created append wrote.
  ghost predicate Stands(db: Db, r: Record) {
    && FindEvent(db.events, r.eventId).Some?
    && db.events[FindEvent(db.events, r.eventId).value] == AdmittedRow(RecordRequest(r))
    && EventEdges(RecordRequest(r).payloadObject, r.referenced).Some?
    && EdgesOf(db, r.eventId) == EventEdges(RecordRequest(r).payloadObject, r.referenced).value
  }

  lemma CreatedStands(met: Store, r: Record)
    requires AppendTaskEvent(met.db, RecordRequest(r)).result == Ok(Created)
    ensures Stands(Perform(met, Append(r)).db, r)
  {
    hide AppendTaskEvent, PayloadJson, AdmissionRefusal, AdmittedAll, Preflight;
    CreatedMeansAppended(met.db, RecordRequest(r));
    var after := Perform(met, Append(r)).db;
    assert after.events == met.db.events + [AdmittedRow(RecordRequest(r))];
    assert after.events[|met.db.events|] == AdmittedRow(RecordRequest(r));
  }

  lemma FoundLater(events: seq<EventRow>, more: seq<EventRow>, id: string)
    requires events <= more && UniqueEvents(more) && FindEvent(events, id).Some?
    ensures FindEvent(more, id) == FindEvent(events, id)
  {
    var i := FindEvent(events, id).value;
    assert more[i].eventId == id;
    assert FindEvent(more, id).Some?;
  }

  lemma StandsLater(before: Store, later: Store, r: Record)
    requires StoreInv(later) && Evolves(before, later) && Stands(before.db, r) && r.eventId in before.db.edges
    ensures Stands(later.db, r)
  {
    hide PayloadJson, TasksAdvance, StreamInv, CausesPointBack, EdgeInv, ExtensionInv, HistoryInv, BoardInv, NewsInv;
    FoundLater(before.db.events, later.db.events, r.eventId);
  }

  lemma EdgesWritten(met: Store, r: Record)
    requires AppendTaskEvent(met.db, RecordRequest(r)).result == Ok(Created)
    ensures r.eventId in Perform(met, Append(r)).db.edges
  {
    hide AppendTaskEvent, PayloadJson;
    CreatedMeansAppended(met.db, RecordRequest(r));
  }

  // How a standing event answers its repetition.
  lemma AnswerOf(later: Store, r: Record, retry: Record)
    requires StoreInv(later) && Stands(later.db, r) && Repeats(later, r, retry)
    ensures var out := AppendTaskEvent(later.db, RecordRequest(retry));
            if OwnsPointer(later.db, r)
            then out.result == Ok(Existing) && out.db == later.db.(leases := out.db.leases)
            else out == Outcome(later.db, Err(EventConflict))
  {
    hide StoreInv, Preflight, ReplayConflict, OwnsPointer, PayloadJson, EventEdges;
    SamePayload(r, retry);
    StandingConflict(later, r, retry);
  }

  lemma StandingConflict(later: Store, r: Record, retry: Record)
    requires StoreInv(later) && Stands(later.db, r) && Repeats(later, r, retry)
    ensures ReplayConflict(later.db, RecordRequest(retry), FindEvent(later.db.events, r.eventId).value) ==
            if OwnsPointer(later.db, r) then None else Some(EventConflict)
  {
    hide PayloadJson, StreamInv, CausesPointBack, EdgeInv, HistoryInv, BoardInv, NewsInv, Preflight, EventEdges, UniqueEvents;
    hide LeaseValidates;
    SamePayload(r, retry);
    assert later.db.boundary == 1;
    if r.extension.Some? {
      var key := ExtensionKey(r.projection.taskId, r.extension.value.ns);
      if key in later.db.extensions {
        NeverLegacy(later, key);
      }
    }
  }

  lemma SamePayload(r: Record, retry: Record)
    requires retry == r.(lease := retry.lease, checkedAtMs := retry.checkedAtMs)
    ensures PayloadJson(retry) == PayloadJson(r)
    ensures AdmittedRow(RecordRequest(retry)) == AdmittedRow(RecordRequest(r))
    ensures RecordRequest(retry).payloadObject == RecordRequest(r).payloadObject
    ensures RecordRequest(retry).event == RecordRequest(r).event
  {
  }

  lemma NeverLegacy(store: Store, key: ExtensionKey)
    requires StoreInv(store) && key in store.db.extensions
    ensures !store.db.extensions[key].legacy
  {
    hide HistoryInv, StreamInv, UniqueEvents, CausesPointBack, EdgeInv, LeaseInv, BoardInv, NewsInv;
    assert ExtensionOk(Log(store.db.events, key.taskId), key.ns, store.db.extensions[key]);
  }

  // Theorem: however much was appended since, the repetition of a committed record is
  // answered as existing if and only if its event still owns its namespace's pointer, and
  // is refused as a conflict otherwise. Either way no table but the leases changes.
  lemma RepetitionAnswered(met: Store, later: Store, r: Record, retry: Record)
    requires AppendTaskEvent(met.db, RecordRequest(r)).result == Ok(Created)
    requires StoreInv(later) && Evolves(Perform(met, Append(r)), later) && Repeats(later, r, retry)
    ensures var out := AppendTaskEvent(later.db, RecordRequest(retry));
            && out.db == later.db.(leases := out.db.leases)
            && (out.result == Ok(Existing) <==> OwnsPointer(later.db, r))
            && (out.result != Ok(Existing) ==> out.result == Err(EventConflict))
  {
    hide StoreInv, Evolves, AppendTaskEvent, Stands, Repeats, Perform, OwnsPointer;
    CreatedStands(met, r);
    EdgesWritten(met, r);
    StandsLater(Perform(met, Append(r)), later, r);
    AnswerOf(later, r, retry);
  }

  // ---- What the journal refuses by itself, whoever asks ----

  // Theorem: no request at all extends a task that is terminal, takes a revision other than
  // the next, or names a cause that is not recorded; and a transition needs a live lease.
  lemma NothingAfterTheEnd(db: Db, a: AppendRequest)
    requires StreamInv(db.events, db.streams, db.projections)
    requires AppendTaskEvent(db, a).result == Ok(Created)
    ensures a.projection.taskId in db.projections <==> a.expectedRevision > 0
    ensures a.projection.revision == 1 + (if a.projection.taskId in db.projections then db.projections[a.projection.taskId].revision else 0)
    ensures a.projection.taskId in db.projections ==>
              && !db.projections[a.projection.taskId].state.Terminal()
              && a.expectedLease.Some? && a.leaseCheckedAtMs.Some?
              && LeaseValidates(db, a.expectedLease.value, a.leaseCheckedAtMs.value)
    ensures a.event.causedBy.Some? ==> exists i :: 0 <= i < |db.events| && db.events[i].eventId == a.event.causedBy.value
    ensures forall i :: 0 <= i < |db.events| ==> db.events[i].eventId != a.event.eventId
  {
    hide AppendTaskEvent, AdmittedAll, EventEdges;
    CreatedMeansAppended(db, a);
    var t := a.projection.taskId;
    if t in db.streams {
      assert StreamOk(Log(db.events, t), db.streams[t]) && ProjectionOk(t, db.streams[t], db.projections[t]);
    }
    if a.event.causedBy.Some? {
      var i := FindEvent(db.events, a.event.causedBy.value).value;
      assert db.events[i].eventId == a.event.causedBy.value;
    }
  }

  // Theorem: what the storage hands to the journal of a record, and the tables then hold.
  lemma RecordWritten(met: Store, r: Record)
    requires StoreInv(met) && AppendTaskEvent(met.db, RecordRequest(r)).result == Ok(Created)
    ensures var after, p := Perform(met, Append(r)).db, r.projection;
            var payload := Address("host-event-payload", EventToJson(TaskEvent(r.kind.Text(), r.data, p)));
            && after.events == met.db.events + [EventRow(r.eventId, p.taskId, TaskStream, p.revision, r.kind, payload,
                                                         r.causedBy, p.updatedAtMs)]
            && after.projections == met.db.projections[p.taskId := p]
            && r.eventId in after.edges
            && (forall d :: d in after.edges[r.eventId] <==> d == payload || exists o :: o in r.referenced && o.digest == d)
            && (r.extension.Some? ==>
                  Pointer(after.extensions, p.taskId, r.extension.value.ns)
                  == Some(ExtensionRow(r.extension.value.stored.digest, r.eventId, p.revision, false)))
            && (forall t, ns :: t != p.taskId || r.extension.None? || ns != r.extension.value.ns ==>
                  Pointer(after.extensions, t, ns) == Pointer(met.db.extensions, t, ns))
            && after.leases == (if r.lease.None? then met.db.leases else met.db.leases - {p.taskId})
  {
    hide StoreInv, AppendTaskEvent, EventKind.Text, EventToJson, ObjectsAfter;
    StoreParts(met);
    CreatedWrites(met.db, RecordRequest(r));
  }
}
