// Runs in which extension events come only from append_preserving: what a resume reports
// about namespaces is then exact, and never changes for a given revision.
module ExtensionRuns {
  import opened Base
  import opened Domain
  import opened Tables
  import opened Transactions
  import opened JournalInvariants
  import opened Storage
  import opened Evolution
  import opened ExtensionReads

  // Every extension event carries its namespace's new state.
  predicate Preserving(act: Action) {
    act.Append? && act.record.kind.Extension? ==> act.record.extension.Some?
  }

  ghost predicate PreservingRun(acts: seq<Action>) {
    forall i :: 0 <= i < |acts| ==> Preserving(acts[i])
  }

  ghost predicate AllCovered(events: seq<EventRow>, extensions: map<ExtensionKey, ExtensionRow>) {
    forall i :: 0 <= i < |events| && events[i].kind.Extension? ==>
      ExtensionKey(events[i].streamId, events[i].kind.ns) in extensions
  }

  lemma AppendCovers(db: Db, a: AppendRequest)
    requires AllCovered(db.events, db.extensions)
    requires a.event.kind.Extension? ==> a.extensionState.Some?
    ensures var after := AppendTaskEvent(db, a).db; AllCovered(after.events, after.extensions)
  {
    if AppendTaskEvent(db, a).result == Ok(Created) {
      CreatedMeansAppended(db, a);
    }
  }

  lemma StepCovers(store: Store, act: Action)
    requires AllCovered(store.db.events, store.db.extensions) && Preserving(act)
    ensures var after := Step(store, act); AllCovered(after.db.events, after.db.extensions)
  {
    hide AppendTaskEvent, AllCovered, Disciplined;
    match act
    case Append(r) => AppendCovers(store.db, RecordRequest(r));
    case Put(_, _) =>
    case Acquire(u, o, now, ttl) => AcquireEffect(store.db, u, o, now, ttl);
    case Release(_) =>
    case Post(m) => PostEffect(store.db, m);
    case Publish(n) => PublishEffect(store.db, n);
  }

  lemma {:induction false} RunCovers(store: Store, acts: seq<Action>)
    requires AllCovered(store.db.events, store.db.extensions) && PreservingRun(acts)
    ensures var after := Run(store, acts); AllCovered(after.db.events, after.db.extensions)
  {
    if |acts| > 0 {
      RunCovers(store, acts[..|acts| - 1]);
      StepCovers(Run(store, acts[..|acts| - 1]), acts[|acts| - 1]);
    }
  }

  lemma AllCoveredIsCovered(db: Db, t: string, revision: int)
    requires AllCovered(db.events, db.extensions)
    ensures Covered(db, t, revision)
  {
    var log := Log(db.events, t);
    LogMembers(db.events, t);
    forall ns | ns in NamespacesAt(db, t, revision)
      ensures ns in Durable(db.extensions, t)
    {
      var k :| 0 <= k < Min(revision, |log|) && log[k].kind.Extension? && log[k].kind.ns == ns;
      var i :| 0 <= i < |db.events| && db.events[i] == log[k];
      assert ExtensionKey(t, ns) in db.extensions;
      DurableIsPointer(db.extensions, t, ns);
    }
  }

  // What an undisturbed read of the namespaces reports for a revision.
  function Reported(db: Db, t: string, revision: int): set<string> {
    NamespacesAt(db, t, revision) * Durable(db.extensions, t)
  }

  // Theorem: in such runs the namespaces reported for a revision are exactly those with an
  // extension event at or before it, and they never change as the task advances.
  lemma ReportedNamespacesExact(acts: seq<Action>, i: nat, t: string, revision: int)
    requires i <= |acts| && PreservingRun(acts) && revision <= Revision(Run(FRESH, acts[..i]), t)
    ensures var early, late := Run(FRESH, acts[..i]).db, Run(FRESH, acts).db;
            && Reported(early, t, revision) == NamespacesAt(early, t, revision)
            && Reported(late, t, revision) == Reported(early, t, revision)
  {
    hide StoreInv, Evolves, NamespacesAt, Durable;
    var early, late := Run(FRESH, acts[..i]), Run(FRESH, acts);
    FreshStoreInv();
    RunCovers(FRESH, acts[..i]);
    RunKeeps(FRESH, acts[..i]);
    RunExtends(FRESH, acts, i, |acts|);
    assert acts[..|acts|] == acts;
    AllCoveredIsCovered(early.db, t, revision);
    NamespacesCompleteIffCovered(early.db, t, revision);
    NamespacesStable(early, late, t, revision);
    CoveredStable(early, late, t, revision);
    NamespacesCompleteIffCovered(late.db, t, revision);
  }

  // ---- Any run: which reports are complete ----

  // The i-th action of the run is an admitted event of the task that carried the namespace's
  // state.
  ghost predicate CarriesState(acts: seq<Action>, i: nat, t: string, ns: string) {
    && i < |acts|
    && acts[i].Append?
    && Disciplined(Run(FRESH, acts[..i]), acts[i])
    && CarriedBy(Run(FRESH, acts[..i]), acts[i].record, t, ns)
  }

  ghost predicate CarriedBy(store: Store, r: Record, t: string, ns: string) {
    && r.projection.taskId == t
    && r.extension.Some? && r.extension.value.ns == ns
    && AppendTaskEvent(store.db, RecordRequest(r)).result == Ok(Created)
  }

  ghost predicate Carried(acts: seq<Action>, t: string, ns: string) {
    exists i: nat :: CarriesState(acts, i, t, ns)
  }

  // One action gives a namespace its pointer exactly by carrying its state.
  lemma StepPoints(store: Store, act: Action, t: string, ns: string)
    ensures Pointer(Perform(store, act).db.extensions, t, ns).Some?
            <==> || Pointer(store.db.extensions, t, ns).Some?
                 || (act.Append? && CarriedBy(store, act.record, t, ns))
  {
    hide AppendTaskEvent, AcquireLease, ReleaseLease, AppendBoardMessage, AppendNewsPublication;
    match act
    case Append(r) =>
      if AppendTaskEvent(store.db, RecordRequest(r)).result == Ok(Created) {
        CreatedMeansAppended(store.db, RecordRequest(r));
        ExtensionsOfAppend(store, r, t, ns);
      } else {
        NotCreatedMeansKept(store.db, RecordRequest(r));
      }
    case Put(_, _) =>
    case Acquire(u, o, now, ttl) => AcquireEffect(store.db, u, o, now, ttl);
    case Release(l) => ReleaseKeepsPointers(store.db, l);
    case Post(m) => PostEffect(store.db, m);
    case Publish(n) => PublishEffect(store.db, n);
  }

  lemma ReleaseKeepsPointers(db: Db, lease: LeaseRecord)
    ensures ReleaseLease(db, lease).db.extensions == db.extensions
  {
  }

  lemma ExtensionsOfAppend(store: Store, r: Record, t: string, ns: string)
    requires AppendedBy(store.db, RecordRequest(r), Perform(store, Append(r)).db)
    ensures Pointer(Perform(store, Append(r)).db.extensions, t, ns).Some?
            <==> || Pointer(store.db.extensions, t, ns).Some?
                 || (r.projection.taskId == t && r.extension.Some? && r.extension.value.ns == ns)
  {
    hide AppendTaskEvent, AdmissionRefusal, EventEdges, AdmittedAll, PayloadJson;
  }

  lemma CarriedSnoc(acts: seq<Action>, t: string, ns: string)
    requires |acts| > 0
    ensures Carried(acts, t, ns) <==>
              || Carried(acts[..|acts| - 1], t, ns)
              || CarriesState(acts, |acts| - 1, t, ns)
  {
    hide Run, Disciplined, CarriedBy;
    var init := acts[..|acts| - 1];
    if Carried(init, t, ns) {
      var i: nat :| CarriesState(init, i, t, ns);
      assert init[..i] == acts[..i];
      assert CarriesState(acts, i, t, ns);
    }
    if Carried(acts, t, ns) {
      var i: nat :| CarriesState(acts, i, t, ns);
      if i < |acts| - 1 {
        assert init[..i] == acts[..i];
        assert CarriesState(init, i, t, ns);
      }
    }
  }

  // In every run a namespace has a pointer if and only if some admitted event carried its
  // state.
  lemma {:induction false} PointerIffCarried(acts: seq<Action>, t: string, ns: string)
    ensures Pointer(Run(FRESH, acts).db.extensions, t, ns).Some? <==> Carried(acts, t, ns)
  {
    hide Disciplined, Perform, CarriedBy, Carried, Pointer;
    if |acts| == 0 {
      NothingCarried(t, ns);
    } else {
      var init := acts[..|acts| - 1];
      PointerIffCarried(init, t, ns);
      CarriedSnoc(acts, t, ns);
      StepPoints(Run(FRESH, init), acts[|acts| - 1], t, ns);
    }
  }

  lemma NothingCarried(t: string, ns: string)
    ensures !Carried([], t, ns) && Pointer(FRESH.db.extensions, t, ns).None?
  {
  }

  // Theorem: in any run at all, an undisturbed report for a revision names every namespace
  // with an extension event at or before it if and only if for each of these some admitted
  // event, early or late, carried the namespace's state.
  lemma ReportCompleteIff(acts: seq<Action>, t: string, revision: int)
    ensures var db := Run(FRESH, acts).db;
            Reported(db, t, revision) == NamespacesAt(db, t, revision)
            <==> forall ns :: ns in NamespacesAt(db, t, revision) ==> Carried(acts, t, ns)
  {
    hide Run, NamespacesAt, Durable, Carried, Pointer;
    var db := Run(FRESH, acts).db;
    NamespacesCompleteIffCovered(db, t, revision);
    forall ns
      ensures ns in Durable(db.extensions, t) <==> Carried(acts, t, ns)
    {
      DurableIsPointer(db.extensions, t, ns);
      PointerIffCarried(acts, t, ns);
    }
  }
}
