// The operator handoff: what the head of a task says may be done next.
module Handoff {
  import opened Base
  import opened Json
  import opened Domain
  import opened Storage
  import opened Evolution
  import opened Snapshots
  import opened HostStorage
  import opened Descriptors

  datatype Capsule = Capsule(
    taskId: string,
    goalId: string,
    taskState: TaskState,
    taskRevision: int,
    eventKind: EventKind,
    eventPayloadDigest: Digest,
    readyFrontier: seq<string>,
    descriptorDigest: Option<Value>,
    proposalDigest: Option<Value>,
    decisionRequestId: Option<Value>,
    childTaskId: Option<Value>,
    dispatchObjectDigest: Option<Value>,
    backendJobId: Option<Value>,
    outcomeObjectDigest: Option<Value>,
    mustNotRepeat: seq<Value>,
    nextAdmissible: seq<string>)

  // Events after which an effect named by the payload has been seen to happen.
  predicate ObservesEffect(kind: EventKind) {
    && kind.Core?
    && (kind.core.EffectDispatchObserved? || kind.core.VerificationRecorded? || kind.core.VerificationAccepted?
        || kind.core.TaskOutcomeRecorded? || kind.core.TaskStateChanged?)
  }

  predicate OutcomeUnknown(kind: EventKind) {
    kind == Core(EffectOutcomeUnknown) || kind == Core(RuntimeOutcomeUnknown)
  }

  function MustNotRepeat(s: TaskEventSnapshot): seq<Value> {
    match StringField(s.data, "effectDigest")
    case None => []
    case Some(d) => if ObservesEffect(s.kind) then [d] else []
  }

  const RECONCILE := "reconcile-existing-dispatch"
  const DECIDE := "resolve-decision-request"
  const CONTINUE := "continue-external-work"

  predicate IsExternal(d: Option<TaskDescriptor>) {
    d.Some? && d.value.workloadId == EXTERNAL_WORKLOAD
  }

  function NextAdmissible(s: TaskEventSnapshot, d: Option<TaskDescriptor>): seq<string> {
    if OutcomeUnknown(s.kind) then [RECONCILE]
    else if s.projection.state.Blocked? && StringField(s.data, "decisionRequestId").Some? then [DECIDE]
    else if IsExternal(d) && s.projection.state.Ready? then [CONTINUE]
    else if IsExternal(d) && s.projection.state.Terminal() then []
    else if s.projection.readyFrontier != [] then s.projection.readyFrontier
    else if s.projection.state.Terminal() then ["inspect-terminal-outcome"]
    else ["inspect-current-task"]
  }

  function CapsuleOf(s: TaskEventSnapshot, d: Option<TaskDescriptor>): Capsule {
    var p := s.projection;
    Capsule(
      p.taskId, p.goalId, p.state, p.revision, s.kind, s.payloadDigest, p.readyFrontier,
      StringField(s.data, "descriptorDigest"), StringField(s.data, "proposalDigest"),
      StringField(s.data, "decisionRequestId"), StringField(s.data, "childTaskId"),
      StringField(s.data, "dispatchDigest"), StringField(s.data, "jobId"), StringField(s.data, "outcomeDigest"),
      MustNotRepeat(s), NextAdmissible(s, d))
  }

  // A handoff leaves nothing to do exactly for finished external work with no dispatch of
  // unknown outcome. Its words are told apart from every frontier, since a frontier holds
  // node identities.
  lemma HandoffNeverStrands(s: TaskEventSnapshot, d: Option<TaskDescriptor>)
    requires s.projection.WellFormed()
    ensures NextAdmissible(s, d) == [] <==> IsExternal(d) && s.projection.state.Terminal() && !OutcomeUnknown(s.kind)
    ensures OutcomeUnknown(s.kind) <==> NextAdmissible(s, d) == [RECONCILE]
    ensures NextAdmissible(s, d) == [CONTINUE]
            <==> IsExternal(d) && s.projection.state.Ready? && !OutcomeUnknown(s.kind)
    ensures NextAdmissible(s, d) == [DECIDE]
            <==> s.projection.state.Blocked? && StringField(s.data, "decisionRequestId").Some? && !OutcomeUnknown(s.kind)
  {
    hide TaskProjection.WellFormed, StringField, IsExternal, OutcomeUnknown;
    WordsDiffer();
    NotAFrontier(s.projection, RECONCILE);
    NotAFrontier(s.projection, DECIDE);
    NotAFrontier(s.projection, CONTINUE);
  }

  lemma NotAFrontier(p: TaskProjection, word: string)
    requires p.WellFormed() && |word| > 0 && word[0] != 'n'
    ensures p.readyFrontier != [word]
  {
    assert [word][0] == word;
  }

  lemma WordsDiffer()
    ensures RECONCILE[0] == 'r' && DECIDE[0] == 'r' && CONTINUE[0] == 'c' && RECONCILE != DECIDE
    ensures "inspect-terminal-outcome"[0] == 'i' && "inspect-current-task"[0] == 'i'
  {
    assert RECONCILE[2] == 'c' && DECIDE[2] == 's';
  }

  // A capsule field holds the string the data holds under a name, and nothing otherwise.
  ghost predicate NamesField(named: Option<Value>, data: Value, name: string) {
    && (named.Some? <==> data.Obj? && name in data.fields && (data.fields[name].Str? || data.fields[name].Hash?))
    && (named.Some? ==> data.Obj? && name in data.fields && named.value == data.fields[name])
  }

  // An effect must not be repeated exactly after an event that saw it happen.
  ghost predicate Forbids(c: Capsule, s: TaskEventSnapshot) {
    var d := Field(s.data, "effectDigest");
    c.mustNotRepeat ==
    if s.kind in {Core(EffectDispatchObserved), Core(VerificationRecorded), Core(VerificationAccepted),
                  Core(TaskOutcomeRecorded), Core(TaskStateChanged)}
       && d.Some? && (d.value.Str? || d.value.Hash?)
    then [d.value] else []
  }

  // Every other part is the event's projection, its payload, or its own field of a name.
  ghost predicate Tells(c: Capsule, s: TaskEventSnapshot) {
    && c.taskId == s.projection.taskId && c.goalId == s.projection.goalId
    && c.taskState == s.projection.state && c.taskRevision == s.projection.revision
    && c.readyFrontier == s.projection.readyFrontier
    && c.eventKind == s.kind && c.eventPayloadDigest == s.payloadDigest
    && NamesField(c.descriptorDigest, s.data, "descriptorDigest")
    && NamesField(c.proposalDigest, s.data, "proposalDigest")
    && NamesField(c.decisionRequestId, s.data, "decisionRequestId")
    && NamesField(c.childTaskId, s.data, "childTaskId")
    && NamesField(c.dispatchObjectDigest, s.data, "dispatchDigest")
    && NamesField(c.backendJobId, s.data, "jobId")
    && NamesField(c.outcomeObjectDigest, s.data, "outcomeDigest")
  }

  // What may be done next, in the order in which the situations are looked at.
  ghost predicate Admits(c: Capsule, s: TaskEventSnapshot, d: Option<TaskDescriptor>) {
    var external := d.Some? && d.value.workloadId == "ordivon.host.external-continuity.v1";
    var over := s.projection.state in {Completed, Failed, Cancelled};
    c.nextAdmissible ==
    if s.kind in {Core(EffectOutcomeUnknown), Core(RuntimeOutcomeUnknown)} then ["reconcile-existing-dispatch"]
    else if s.projection.state == Blocked && c.decisionRequestId.Some? then ["resolve-decision-request"]
    else if external && s.projection.state == Ready then ["continue-external-work"]
    else if external && over then []
    else if s.projection.readyFrontier != [] then s.projection.readyFrontier
    else if over then ["inspect-terminal-outcome"]
    else ["inspect-current-task"]
  }

  lemma CapsuleSays(s: TaskEventSnapshot, d: Option<TaskDescriptor>)
    ensures Forbids(CapsuleOf(s, d), s) && Tells(CapsuleOf(s, d), s) && Admits(CapsuleOf(s, d), s, d)
  {
  }

  // operator_handoff: the head event, then a descriptor read that may see a later head.
  method OperatorHandoff(storage: Host, t: string, expectedRevision: Option<int>)
    returns (r: Result<Capsule, HostError>, ghost told: Option<TaskEventSnapshot>, ghost seen: Option<TaskEventSnapshot>)
    requires storage.Valid()
    modifies storage`cas, storage`others, storage.journal
    ensures storage.OnlyRead()
    ensures r.Ok? ==>
              && told.Some? && Told(storage.State(), t, told.value)
              && Revision(old(storage.State()), t) <= told.value.projection.revision
              && seen.Some? && Told(storage.State(), t, seen.value)
              && told.value.projection.revision <= seen.value.projection.revision <= Revision(storage.State(), t)
              && DescriptorIn(storage.State().cas, seen.value).Ok?
              && r.value == CapsuleOf(told.value, DescriptorIn(storage.State().cas, seen.value).value)
    // A dispatch of unknown outcome is never hidden behind other work, and only finished work
    // leaves nothing to do.
    ensures r.Ok? ==>
              && (OutcomeUnknown(r.value.eventKind) <==> r.value.nextAdmissible == [RECONCILE])
              && (r.value.nextAdmissible == [] ==> r.value.taskState.Terminal())
    ensures r.Ok? ==>
              && r.value.taskId == t
              && Forbids(r.value, told.value)
              && Tells(r.value, told.value)
              && Admits(r.value, told.value, DescriptorIn(storage.State().cas, seen.value).value)
    ensures expectedRevision.Some? && expectedRevision.value < 1 ==> r == Err(ValueError)
    ensures r.Ok? && expectedRevision.Some? ==> r.value.taskRevision == expectedRevision.value
    ensures old(storage.others) == [] && ExternalHead(old(storage.State()), t)
            && (expectedRevision.Some? ==> 1 <= expectedRevision.value == Revision(old(storage.State()), t))
            ==> r.Ok?
  {
    hide StoreInv, Evolves, SnapshotAt, DescriptorIn, NextAdmissible, MustNotRepeat, StringField, Forbids, Tells, Admits;
    ghost var start := storage.State();
    EvolvesReflexive(start);
    told, seen := None, None;
    if expectedRevision.Some? && expectedRevision.value < 1 {
      return Err(ValueError), told, seen;
    }
    var snapshot := storage.ReadTaskEvent(t);
    ghost var first := storage.State();
    if snapshot.Err? {
      return Err(snapshot.error), told, seen;
    }
    told := Some(snapshot.value);
    if expectedRevision.Some? && snapshot.value.projection.revision != expectedRevision.value {
      return Err(ValueError), told, seen;
    }
    var descriptor, s := ReadTaskDescriptor(storage, t);
    seen := s;
    EvolvesTransitive(start, first, storage.State());
    ToldStable(first, storage.State(), t, snapshot.value);
    if descriptor.Err? {
      return Err(descriptor.error), told, seen;
    }
    HandoffNeverStrands(snapshot.value, descriptor.value);
    CapsuleSays(snapshot.value, descriptor.value);
    return Ok(CapsuleOf(snapshot.value, descriptor.value)), told, seen;
  }
}
