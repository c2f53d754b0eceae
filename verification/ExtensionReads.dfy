// Extension namespaces and extension state: what readers see of the pointers that events
// of component namespaces move.
module ExtensionReads {
  import opened Base
  import opened Tables
  import opened JournalInvariants
  import opened Storage
  import opened Evolution
  import opened Workers
  import opened Snapshots
  import opened HostStorage
  import Text

  // Namespaces with an extension event among the first events of a history.
  function NamespacesUpTo(log: seq<EventRow>, revision: int): set<string> {
    set k | 0 <= k < Min(revision, |log|) && log[k].kind.Extension? :: log[k].kind.ns
  }

  function NamespacesAt(db: Db, t: string, revision: int): set<string> {
    NamespacesUpTo(Log(db.events, t), revision)
  }

  // Which namespaces those are, said of the event table.
  lemma NamespacesExactly(db: Db, t: string, revision: int, ns: string)
    requires StreamInv(db.events, db.streams, db.projections)
    ensures ns in NamespacesAt(db, t, revision) <==>
              exists i :: && 0 <= i < |db.events|
                          && db.events[i].streamId == t && db.events[i].streamRevision <= revision
                          && db.events[i].kind.Extension? && db.events[i].kind.ns == ns
  {
    var log := Log(db.events, t);
    LogMembers(db.events, t);
    if |log| > 0 {
      assert log[0] in db.events && log[0].streamId == t;
      assert StreamOk(log, db.streams[t]);
    }
    if ns in NamespacesAt(db, t, revision) {
      var k :| 0 <= k < Min(revision, |log|) && log[k].kind.Extension? && log[k].kind.ns == ns;
      assert log[k] in db.events && log[k].streamRevision == k + 1;
    }
    if i :| && 0 <= i < |db.events| && db.events[i].streamId == t && db.events[i].streamRevision <= revision
            && db.events[i].kind.Extension? && db.events[i].kind.ns == ns
    {
      assert db.events[i] in log;
      var k :| 0 <= k < |log| && log[k] == db.events[i];
      assert log[k].streamRevision == k + 1;
    }
  }

  // The namespaces of a task that hold a pointer.
  function Durable(extensions: map<ExtensionKey, ExtensionRow>, t: string): set<string> {
    set key | key in extensions && key.taskId == t :: key.ns
  }

  predicate IsNamespace(ns: string) {
    Text.IsLabel(ns) && '.' !in ns
  }

  // Every extension event up to a revision moved its namespace's pointer: what holds when
  // extension events come only from append_preserving.
  ghost predicate Covered(db: Db, t: string, revision: int) {
    NamespacesAt(db, t, revision) <= Durable(db.extensions, t)
  }

  lemma DurableIsPointer(extensions: map<ExtensionKey, ExtensionRow>, t: string, ns: string)
    ensures ns in Durable(extensions, t) <==> Pointer(extensions, t, ns).Some?
  {
    if Pointer(extensions, t, ns).Some? {
      assert ExtensionKey(t, ns) in extensions;
    }
  }

  lemma DurableGrows(before: Store, after: Store, t: string)
    requires StoreInv(before) && Evolves(before, after)
    ensures Durable(before.db.extensions, t) <= Durable(after.db.extensions, t)
  {
    hide StoreInv;
    forall ns | ns in Durable(before.db.extensions, t)
      ensures ns in Durable(after.db.extensions, t)
    {
      DurableIsPointer(before.db.extensions, t, ns);
      DurableIsPointer(after.db.extensions, t, ns);
      PointerTask(before, t, ns);
      assert TaskAdvances(TasksOf(before), TasksOf(after), t);
    }
  }

  lemma PointerTask(store: Store, t: string, ns: string)
    requires StoreInv(store) && Pointer(store.db.extensions, t, ns).Some?
    ensures t in store.db.projections
    ensures ExtensionOk(Log(store.db.events, t), ns, Pointer(store.db.extensions, t, ns).value)
    ensures Pointer(store.db.extensions, t, ns).value.stateDigest in store.db.objects
  {
    var key := ExtensionKey(t, ns);
    assert ExtensionOk(Log(store.db.events, key.taskId), key.ns, store.db.extensions[key]);
    if t !in store.db.streams {
      LogEmpty(store.db.events, t);
    }
  }

  // The history up to a revision the task has reached never changes.
  lemma NamespacesStable(before: Store, after: Store, t: string, revision: int)
    requires StoreInv(before) && Evolves(before, after) && revision <= Revision(before, t)
    ensures NamespacesAt(after.db, t, revision) == NamespacesAt(before.db, t, revision)
  {
    hide StoreInv;
    EvolvesParts(before, after);
    LogPrefix(before.db.events, after.db.events, t);
    if 1 <= revision {
      EventsUpToHead(before, t, revision);
    }
    PrefixNamespaces(Log(before.db.events, t), Log(after.db.events, t), revision);
  }

  lemma PrefixNamespaces(log: seq<EventRow>, longer: seq<EventRow>, revision: int)
    requires log <= longer && revision <= |log|
    ensures NamespacesUpTo(longer, revision) == NamespacesUpTo(log, revision)
  {
    forall ns | ns in NamespacesUpTo(longer, revision)
      ensures ns in NamespacesUpTo(log, revision)
    {
      var k :| 0 <= k < revision && longer[k].kind.Extension? && longer[k].kind.ns == ns;
      assert log[k] == longer[k];
    }
    forall ns | ns in NamespacesUpTo(log, revision)
      ensures ns in NamespacesUpTo(longer, revision)
    {
      var k :| 0 <= k < revision && log[k].kind.Extension? && log[k].kind.ns == ns;
      assert log[k] == longer[k];
    }
  }

  // Once covered, a revision stays covered.
  lemma CoveredStable(before: Store, after: Store, t: string, revision: int)
    requires StoreInv(before) && Evolves(before, after) && revision <= Revision(before, t)
    requires Covered(before.db, t, revision)
    ensures Covered(after.db, t, revision)
  {
    hide StoreInv, Evolves, Durable, NamespacesAt;
    NamespacesStable(before, after, t, revision);
    DurableGrows(before, after, t);
  }

  // task_extension_namespaces: the task's revision, the pointers, the history, in three
  // separate reads.
  method TaskExtensionNamespaces(storage: Host, t: string, atRevision: int)
    returns (r: Result<set<string>, HostError>, ghost pointers: set<string>)
    requires storage.Valid()
    modifies storage`cas, storage`others, storage.journal
    ensures storage.OnlyRead()
    ensures Durable(old(storage.State()).db.extensions, t) <= pointers <= Durable(storage.State().db.extensions, t)
    ensures r.Ok? ==>
              && 1 <= atRevision <= Revision(storage.State(), t)
              && r.value == NamespacesAt(storage.State().db, t, atRevision) * pointers
              && (forall ns :: ns in pointers ==> IsNamespace(ns))
    ensures old(storage.others) == [] && 1 <= atRevision <= Revision(old(storage.State()), t)
            && (forall ns :: ns in Durable(old(storage.State()).db.extensions, t) ==> IsNamespace(ns))
            ==> r.Ok?
  {
    hide StoreInv, Evolves, Durable, NamespacesUpTo, IsNamespace;
    ghost var start := storage.State();
    EvolvesReflexive(start);
    pointers := Durable(start.db.extensions, t);
    if atRevision < 1 {
      return Err(ValueError), pointers;
    }
    var projection := storage.GetTask(t);
    ghost var first := storage.State();
    DurableGrows(start, first, t);
    if projection.None? {
      return Err(UnknownTask), pointers;
    }
    if atRevision > projection.value.revision {
      return Err(ValueError), pointers;
    }
    storage.Yield();
    ghost var second := storage.State();
    EvolvesTransitive(start, first, second);
    DurableGrows(start, second, t);
    var durable := Durable(storage.journal.extensions, t);
    pointers := durable;
    if exists ns :: ns in durable && !IsNamespace(ns) {
      return Err(JournalCorruption), pointers;
    }
    storage.Yield();
    EvolvesTransitive(start, second, storage.State());
    DurableGrows(second, storage.State(), t);
    RevisionMonotone(first, second, t);
    RevisionMonotone(second, storage.State(), t);
    var history := Log(storage.journal.events, t);
    return Ok(NamespacesUpTo(history, atRevision) * durable), pointers;
  }

  // What the pointers leave of a covered revision is all of it.
  lemma NamespacesCompleteIffCovered(db: Db, t: string, revision: int)
    ensures NamespacesAt(db, t, revision) * Durable(db.extensions, t) == NamespacesAt(db, t, revision)
            <==> Covered(db, t, revision)
  {
    var all, durable := NamespacesAt(db, t, revision), Durable(db.extensions, t);
    if all * durable == all {
      forall ns | ns in all
        ensures ns in durable
      {
        assert ns in all * durable;
      }
    }
    if all <= durable {
      assert all * durable == all;
    }
  }
}
