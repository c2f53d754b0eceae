// The identities of continuity events: they name their task, their stage and their revision,
// so the next one is always free.
module IdentityRuns {
  import opened Base
  import opened Domain
  import opened Tables
  import opened Transactions
  import opened JournalInvariants
  import opened Storage
  import opened Evolution
  import opened Workers
  import opened ContinuityRecords
  import opened Continuity
  import opened Adoption
  import opened HistoryRuns
  import Text

  // ---- Distinct identities ----

  predicate IsDigit(c: char) { '0' <= c <= '9' }

  lemma {:induction false} DecimalDigits(n: nat)
    ensures |Text.Decimal(n)| >= 1 && forall i :: 0 <= i < |Text.Decimal(n)| ==> IsDigit(Text.Decimal(n)[i])
  {
    if n >= 10 {
      DecimalDigits(n / 10);
      DecimalDigits(n % 10);
    }
  }

  lemma LastDigit(n: nat)
    requires n >= 10
    ensures Text.Decimal(n) == Text.Decimal(n / 10) + [('0' as int + n % 10) as char]
  {
    assert Text.Decimal(n % 10) == [('0' as int + n % 10) as char];
  }

  lemma {:induction false} DecimalInjective(m: nat, n: nat)
    requires Text.Decimal(m) == Text.Decimal(n)
    ensures m == n
  {
    DecimalDigits(m / 10);
    DecimalDigits(n / 10);
    if m >= 10 && n >= 10 {
      LastDigit(m);
      LastDigit(n);
      var s := Text.Decimal(m);
      assert s[..|s| - 1] == Text.Decimal(m / 10) && s[..|s| - 1] == Text.Decimal(n / 10);
      assert s[|s| - 1] == ('0' as int + m % 10) as char == ('0' as int + n % 10) as char;
      DecimalInjective(m / 10, n / 10);
    } else if m >= 10 {
      LastDigit(m);
    } else if n >= 10 {
      LastDigit(n);
    }
  }

  lemma NotLonger(a: string, d: string, b: string, e: string)
    requires a + d == b + e && a != "" && !IsDigit(a[|a| - 1])
    requires forall i :: 0 <= i < |e| ==> IsDigit(e[i])
    ensures |a| <= |b|
  {
    assert (a + d)[|a| - 1] == (b + e)[|a| - 1];
  }

  // Texts that end in digits after a letter split in one way only.
  lemma SplitOnce(a: string, d: string, b: string, e: string)
    requires a + d == b + e && a != "" && b != ""
    requires !IsDigit(a[|a| - 1]) && !IsDigit(b[|b| - 1])
    requires forall i :: 0 <= i < |d| ==> IsDigit(d[i])
    requires forall i :: 0 <= i < |e| ==> IsDigit(e[i])
    ensures a == b && d == e
  {
    NotLonger(a, d, b, e);
    NotLonger(b, e, a, d);
    assert a == (a + d)[..|a|] && b == (b + e)[..|b|];
    assert d == (a + d)[|a|..] && e == (b + e)[|b|..];
  }

  function Front(t: string, stage: string): string {
    "event:external-continuity:" + t + ":" + stage + ":r"
  }

  // Theorem: equal identities of these stages are of one task, one stage and one revision.
  lemma IdentitiesDiffer(t: string, stage: string, revision: nat, t': string, stage': string, revision': nat)
    requires stage in {"adopt", "checkpoint"} && stage' in {"adopt", "checkpoint"}
    requires EventId(t, stage, revision) == EventId(t', stage', revision')
    ensures t == t' && stage == stage' && revision == revision'
  {
    DecimalDigits(revision);
    DecimalDigits(revision');
    var a, b := Front(t, stage), Front(t', stage');
    assert a[|a| - 1] == 'r' && b[|b| - 1] == 'r';
    SplitOnce(a, Text.Decimal(revision), b, Text.Decimal(revision'));
    DecimalInjective(revision, revision');
    FrontsDiffer(t, stage, t', stage');
  }

  lemma FrontsDiffer(t: string, stage: string, t': string, stage': string)
    requires stage in {"adopt", "checkpoint"} && stage' in {"adopt", "checkpoint"}
    requires Front(t, stage) == Front(t', stage')
    ensures t == t' && stage == stage'
  {
    var head := "event:external-continuity:";
    TwoParts(head, t, ":" + stage + ":r");
    TwoParts(head, t', ":" + stage' + ":r");
    assert Front(t, stage) == head + t + (":" + stage + ":r") && Front(t', stage') == head + t' + (":" + stage' + ":r");
    TailsDiffer(t + (":" + stage + ":r"), t, stage, t', stage');
  }

  lemma TwoParts(head: string, t: string, tail: string)
    ensures (head + t + tail)[|head|..] == t + tail
  {
  }

  lemma TailsDiffer(u: string, t: string, stage: string, t': string, stage': string)
    requires stage in {"adopt", "checkpoint"} && stage' in {"adopt", "checkpoint"}
    requires u == t + (":" + stage + ":r") == t' + (":" + stage' + ":r")
    ensures t == t' && stage == stage'
  {
    StageLetter(u, t, stage);
    StageLetter(u, t', stage');
  }

  lemma StageLetter(u: string, t: string, stage: string)
    requires stage in {"adopt", "checkpoint"} && u == t + (":" + stage + ":r")
    ensures |u| >= 4 && u[|u| - 4] == (if stage == "adopt" then 'p' else 'n')
    ensures t == u[..|u| - (|stage| + 3)]
  {
  }

  // ---- Every run of adoptions and checkpoints ----

  // The event's identity is that of its task, its stage and its revision.
  predicate Identified(e: EventRow) {
    e.streamRevision >= 1 && exists stage :: stage in {"adopt", "checkpoint"} && e.eventId == EventId(e.streamId, stage, e.streamRevision)
  }

  ghost predicate AllIdentified(events: seq<EventRow>) {
    forall i :: 0 <= i < |events| ==> Identified(events[i])
  }

  lemma CreationIdentified(a: AdoptRequest, r: Record)
    requires Creates(a, r)
    ensures Identified(AdmittedRow(RecordRequest(r)))
  {
    hide EventId, PayloadJson, RecordData;
    assert r.eventId == EventId(r.projection.taskId, "adopt", 1);
  }

  lemma CheckpointIdentified(q: CheckpointRequest, r: Record)
    requires RequestValid(q) && CheckpointAct(q, r)
    ensures Identified(AdmittedRow(RecordRequest(r)))
  {
    hide EventId, PayloadJson, RecordData, CheckpointObject;
    assert r.eventId == EventId(r.projection.taskId, "checkpoint", r.projection.revision);
  }

  lemma ContinuityIdentified(met: Store, r: Record)
    requires ContinuityAppend(met, r)
    ensures Identified(AdmittedRow(RecordRequest(r)))
  {
    hide Creates, RequestValid, CheckpointAct, HandsOn, Identified, WellAsked, PayloadJson;
    if a :| WellAsked(a) && Creates(a, r) {
      CreationIdentified(a, r);
    } else {
      var q :| CheckpointCommit(q, met, r);
      CheckpointIdentified(q, r);
    }
  }

  lemma IdentifiedStep(store: Store, act: Action)
    requires StoreInv(store) && AllIdentified(store.db.events) && ContinuityAct(store, act)
    ensures AllIdentified(Step(store, act).db.events)
  {
    hide StoreInv, AppendTaskEvent, Disciplined, Identified, ContinuityAppend, AcquireLease, ReleaseLease, AppendBoardMessage;
    hide AppendNewsPublication;
    if Disciplined(store, act) {
      EventsAfter(store, act);
      if act.Append? && AppendTaskEvent(store.db, RecordRequest(act.record)).result == Ok(Created) {
        CreatedMeansAppended(store.db, RecordRequest(act.record));
        ContinuityIdentified(store, act.record);
      }
    }
  }

  lemma {:induction false} RunIdentified(acts: seq<Action>)
    requires ContinuityRun(FRESH, acts)
    ensures AllIdentified(Run(FRESH, acts).db.events)
  {
    hide StoreInv, AllIdentified, ContinuityAct;
    if |acts| > 0 {
      var init := acts[..|acts| - 1];
      forall i | 0 <= i < |init|
        ensures ContinuityAct(Run(FRESH, init[..i]), init[i])
      {
        assert init[..i] == acts[..i];
        assert ContinuityAct(Run(FRESH, acts[..i]), acts[i]);
      }
      RunIdentified(init);
      FreshStoreInv();
      RunKeeps(FRESH, init);
      IdentifiedStep(Run(FRESH, init), acts[|acts| - 1]);
    } else {
      NothingIdentified();
    }
  }

  lemma NothingIdentified()
    ensures AllIdentified(FRESH.db.events)
  {
  }

  // Theorem: after every run of adoptions and checkpoints of any tasks, the identity of the
  // next checkpoint of a task is unused, and so is that of the adoption of a new task.
  lemma NextIsUnused(acts: seq<Action>, t: string, stage: string, revision: nat)
    requires ContinuityRun(FRESH, acts) && stage in {"adopt", "checkpoint"}
    requires revision > Revision(Run(FRESH, acts), t)
    ensures FindEvent(Run(FRESH, acts).db.events, EventId(t, stage, revision)).None?
  {
    hide StoreInv, ContinuityRun, EventId, Run, StreamInv, HistoryInv;
    var store := Run(FRESH, acts);
    FreshStoreInv();
    RunKeeps(FRESH, acts);
    RunIdentified(acts);
    StoreParts(store);
    var found := FindEvent(store.db.events, EventId(t, stage, revision));
    if found.Some? {
      var e := store.db.events[found.value];
      assert Identified(e);
      var stage' :| stage' in {"adopt", "checkpoint"} && e.eventId == EventId(e.streamId, stage', e.streamRevision);
      IdentitiesDiffer(t, stage, revision, e.streamId, stage', e.streamRevision);
      RowUpToHead(store, found.value);
    }
  }

  lemma RowUpToHead(store: Store, i: nat)
    requires StreamInv(store.db.events, store.db.streams, store.db.projections) && i < |store.db.events|
    ensures store.db.events[i].streamRevision <= Revision(store, store.db.events[i].streamId)
  {
    var e := store.db.events[i];
    var t := e.streamId;
    LogMembers(store.db.events, t);
    assert e in Log(store.db.events, t);
    assert StreamOk(Log(store.db.events, t), store.db.streams[t]) && ProjectionOk(t, store.db.streams[t], store.db.projections[t]);
  }
}
