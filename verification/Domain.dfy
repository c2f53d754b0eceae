// Task projections, Event kinds and the payload a Task Event stores.
module Domain {
  import opened Base
  import opened Json
  import Text

  datatype TaskState = Ready | Running | Waiting | Verifying | Completed | Blocked | Failed | Cancelled {
    predicate Terminal() { Completed? || Failed? || Cancelled? }

    function Name(): string {
      match this
      case Ready => "ready"
      case Running => "running"
      case Waiting => "waiting"
      case Verifying => "verifying"
      case Completed => "completed"
      case Blocked => "blocked"
      case Failed => "failed"
      case Cancelled => "cancelled"
    }
  }

  function ParseState(s: string): Option<TaskState> {
    if s == "ready" then Some(Ready)
    else if s == "running" then Some(Running)
    else if s == "waiting" then Some(Waiting)
    else if s == "verifying" then Some(Verifying)
    else if s == "completed" then Some(Completed)
    else if s == "blocked" then Some(Blocked)
    else if s == "failed" then Some(Failed)
    else if s == "cancelled" then Some(Cancelled)
    else None
  }

  datatype CoreKind =
    | TaskCreated | TaskStateChanged | TaskFrontierChanged | TaskContextCheckpointed
    | CognitionRequested | CognitionSelectionAdmitted | CognitionProposalResolved
    | EffectDispatchPrepared | EffectOutcomeUnknown | EffectDispatchObserved
    | VerificationRecorded | TaskOutcomeRecorded | TaskResultApplied | RuntimeLinked
    | RuntimeDispatchPrepared | RuntimeOutcomeUnknown | RuntimeDispatchObserved | VerificationAccepted

  // A kind is one of the Host's own, or belongs to a component's namespace: the part
  // of its text before the first dot.
  datatype EventKind = Core(core: CoreKind) | Extension(ns: string, name: string) {
    function Text(): string {
      match this
      case Extension(ns, name) => ns + "." + name
      case Core(TaskCreated) => "task.created"
      case Core(TaskStateChanged) => "task.state-changed"
      case Core(TaskFrontierChanged) => "task.frontier-changed"
      case Core(TaskContextCheckpointed) => "task.context-checkpointed"
      case Core(CognitionRequested) => "cognition.requested"
      case Core(CognitionSelectionAdmitted) => "cognition.selection-admitted"
      case Core(CognitionProposalResolved) => "cognition.proposal-resolved"
      case Core(EffectDispatchPrepared) => "effect.dispatch-prepared"
      case Core(EffectOutcomeUnknown) => "effect.outcome-unknown"
      case Core(EffectDispatchObserved) => "effect.dispatch-observed"
      case Core(VerificationRecorded) => "verification.recorded"
      case Core(TaskOutcomeRecorded) => "task.outcome-recorded"
      case Core(TaskResultApplied) => "task.result-applied"
      case Core(RuntimeLinked) => "runtime.linked"
      case Core(RuntimeDispatchPrepared) => "runtime.dispatch-prepared"
      case Core(RuntimeOutcomeUnknown) => "runtime.outcome-unknown"
      case Core(RuntimeDispatchObserved) => "runtime.dispatch-observed"
      case Core(VerificationAccepted) => "verification.accepted"
    }
  }

  // Each of the Host's own kinds has its own text.
  lemma CoreTextsDiffer(j: CoreKind, k: CoreKind)
    requires Core(j).Text() == Core(k).Text()
    ensures j == k
  {
    var s, t := Core(j).Text(), Core(k).Text();
    assert |s| == |t|;
  }

  datatype EventAdmission = Created | Existing

  predicate HasIdentity(id: string, prefix: string) {
    prefix <= id && Text.Trimmed(id)
  }

  datatype TaskProjection = TaskProjection(
    taskId: string,
    goalId: string,
    state: TaskState,
    activeNodeId: Option<string>,
    readyFrontier: seq<string>,
    revision: int,
    updatedAtMs: int)
  {
    // The rules a projection is constructed under.
    predicate WellFormed() {
      && HasIdentity(taskId, "task:") && HasIdentity(goalId, "goal:")
      && (activeNodeId.Some? ==> "node:" <= activeNodeId.value)
      && (forall i :: 0 <= i < |readyFrontier| ==> "node:" <= readyFrontier[i])
      && (forall i, j :: 0 <= i < j < |readyFrontier| ==> readyFrontier[i] != readyFrontier[j])
      && (activeNodeId.Some? ==> activeNodeId.value !in readyFrontier)
      && revision >= 1
      && updatedAtMs >= 0
      && (state.Ready? ==> readyFrontier != [])
      && (state.Running? ==> activeNodeId.Some?)
      && (state.Terminal() ==> activeNodeId.None? && readyFrontier == [])
    }
  }

  function ProjectionToJson(p: TaskProjection): Value {
    Obj(map[
      "taskId" := Str(p.taskId),
      "goalId" := Str(p.goalId),
      "state" := Str(p.state.Name()),
      "activeNodeId" := NullOr(p.activeNodeId),
      "readyFrontier" := Strings(p.readyFrontier),
      "revision" := Num(p.revision),
      "updatedAtMs" := Num(p.updatedAtMs)])
  }

  const PROJECTION_FIELDS :=
    {"taskId", "goalId", "state", "activeNodeId", "readyFrontier", "revision", "updatedAtMs"}

  function ProjectionFromJson(v: Value): Option<TaskProjection> {
    if !v.Obj? || v.fields.Keys != PROJECTION_FIELDS then None
    else
      var f := v.fields;
      if !f["taskId"].Str? || !f["goalId"].Str? || !f["state"].Str? then None
      else if !f["activeNodeId"].Null? && !f["activeNodeId"].Str? then None
      else if !IsStrings(f["readyFrontier"]) then None
      else if !f["revision"].Num? || !f["updatedAtMs"].Num? then None
      else if ParseState(f["state"].s).None? then None
      else
        var p := TaskProjection(
          f["taskId"].s, f["goalId"].s, ParseState(f["state"].s).value,
          if f["activeNodeId"].Null? then None else Some(f["activeNodeId"].s),
          AsStrings(f["readyFrontier"]), f["revision"].n, f["updatedAtMs"].n);
        if p.WellFormed() then Some(p) else None
  }

  lemma StateRoundTrip(s: TaskState)
    ensures ParseState(s.Name()) == Some(s)
  {
  }

  // A stored projection reads back as itself, and only a well-formed one reads at all.
  lemma ProjectionRoundTrip(p: TaskProjection)
    ensures ProjectionFromJson(ProjectionToJson(p)) == if p.WellFormed() then Some(p) else None
  {
    var f := ProjectionToJson(p).fields;
    assert f.Keys == PROJECTION_FIELDS;
    StateRoundTrip(p.state);
    StringsRoundTrip(p.readyFrontier);
    assert f["taskId"] == Str(p.taskId) && f["goalId"] == Str(p.goalId);
    assert f["state"] == Str(p.state.Name()) && f["activeNodeId"] == NullOr(p.activeNodeId);
    assert f["readyFrontier"] == Strings(p.readyFrontier);
    assert f["revision"] == Num(p.revision) && f["updatedAtMs"] == Num(p.updatedAtMs);
  }

  // What one Task Event says: its kind, the writer's data and the projection it leads to.
  datatype TaskEvent = TaskEvent(kindText: string, data: Value, projection: TaskProjection)

  const EVENT_OBJECT_KIND := "host-event-payload"
  const EVENT_WIRE_KIND := "ordivon.host-task-event"
  const EVENT_FIELDS := {"schemaVersion", "kind", "eventKind", "data", "projection"}

  function EventToJson(e: TaskEvent): Value {
    Obj(map[
      "schemaVersion" := Num(1),
      "kind" := Str(EVENT_WIRE_KIND),
      "eventKind" := Str(e.kindText),
      "data" := e.data,
      "projection" := ProjectionToJson(e.projection)])
  }

  function EventFromJson(v: Value): Option<TaskEvent> {
    if !v.Obj? || v.fields.Keys != EVENT_FIELDS then None
    else
      var f := v.fields;
      if f["schemaVersion"] != Num(1) || f["kind"] != Str(EVENT_WIRE_KIND) || !f["eventKind"].Str? then None
      else
        match ProjectionFromJson(f["projection"])
        case None => None
        case Some(p) => Some(TaskEvent(f["eventKind"].s, f["data"], p))
  }

  lemma EventRoundTrip(e: TaskEvent)
    ensures EventFromJson(EventToJson(e)) == if e.projection.WellFormed() then Some(e) else None
  {
    var f := EventToJson(e).fields;
    assert f.Keys == EVENT_FIELDS;
    assert f["schemaVersion"] == Num(1) && f["kind"] == Str(EVENT_WIRE_KIND);
    assert f["eventKind"] == Str(e.kindText) && f["data"] == e.data;
    assert f["projection"] == ProjectionToJson(e.projection);
    ProjectionRoundTrip(e.projection);
  }

  function EventDigest(e: TaskEvent): Digest {
    Address(EVENT_OBJECT_KIND, EventToJson(e))
  }

  // The event stored at an address, if the address holds an event payload.
  function EventAtDigest(d: Digest): Option<TaskEvent> {
    match Open(d)
    case None => None
    case Some(o) => if o.kind == EVENT_OBJECT_KIND then EventFromJson(o.payload) else None
  }

  lemma EventDigestRoundTrip(e: TaskEvent)
    requires e.projection.WellFormed()
    ensures EventAtDigest(EventDigest(e)) == Some(e)
    ensures Genuine(Described(EVENT_OBJECT_KIND, EventToJson(e)))
  {
    assert Text.IsLabel(EVENT_OBJECT_KIND);
    OpenAddress(EVENT_OBJECT_KIND, EventToJson(e));
    EventRoundTrip(e);
  }

  // The successor a kernel transition commits: nothing moves a terminal Task, the
  // revision advances by one and the clock never repeats.
  datatype Transition = Transition(
    state: Option<TaskState>, frontier: Option<seq<string>>, activeNodeId: Option<string>)

  function NextProjection(current: TaskProjection, t: Transition, clock: int): Result<TaskProjection, HostError> {
    if current.state.Terminal() then Err(TaskStateMismatch)
    else if clock < 0 then Err(ValueError)
    else
      var state := if t.state.None? then current.state else t.state.value;
      var next := TaskProjection(
        current.taskId,
        current.goalId,
        state,
        if !state.Running? then None else if t.activeNodeId.None? then current.activeNodeId else t.activeNodeId,
        if t.frontier.None? then current.readyFrontier else t.frontier.value,
        current.revision + 1,
        Max(clock, current.updatedAtMs + 1));
      if next.WellFormed() then Ok(next) else Err(ValueError)
  }

  // The transition relation behind NextProjection, without the writer's choices.
  predicate Succeeds(p: TaskProjection, q: TaskProjection) {
    && !p.state.Terminal()
    && q.WellFormed()
    && q.taskId == p.taskId
    && q.goalId == p.goalId
    && q.revision == p.revision + 1
    && q.updatedAtMs > p.updatedAtMs
    && (!q.state.Running? ==> q.activeNodeId.None?)
  }

  // Some writer's choice and some clock reading turn p into q.
  ghost predicate CanBecome(p: TaskProjection, q: TaskProjection) {
    exists t, clock :: NextProjection(p, t, clock) == Ok(q)
  }

  // Succeeds is exactly "NextProjection can produce it".
  lemma SucceedsIffReachable(p: TaskProjection, q: TaskProjection)
    requires p.WellFormed()
    ensures Succeeds(p, q) <==> CanBecome(p, q)
  {
    if Succeeds(p, q) {
      var t := Transition(Some(q.state), Some(q.readyFrontier), q.activeNodeId);
      assert NextProjection(p, t, q.updatedAtMs) == Ok(q);
    }
  }

  // Theorem: what a transition produces, field by field, and every way it is refused. What is
  // not given is kept; only a running task has an active node; time never stands still.
  lemma NextExactly(p: TaskProjection, t: Transition, clock: int)
    ensures var next := NextProjection(p, t, clock);
            && (p.state in {Completed, Failed, Cancelled} ==> next == Err(TaskStateMismatch))
            && (p.state !in {Completed, Failed, Cancelled} && next.Err? ==> next == Err(ValueError))
            && (next.Ok? ==>
                  var q := next.value;
                  && clock >= 0 && q.WellFormed()
                  && q.taskId == p.taskId && q.goalId == p.goalId
                  && (t.state.Some? ==> q.state == t.state.value) && (t.state.None? ==> q.state == p.state)
                  && (t.frontier.Some? ==> q.readyFrontier == t.frontier.value)
                  && (t.frontier.None? ==> q.readyFrontier == p.readyFrontier)
                  && (q.state != Running ==> q.activeNodeId == None)
                  && (q.state == Running && t.activeNodeId.Some? ==> q.activeNodeId == t.activeNodeId)
                  && (q.state == Running && t.activeNodeId.None? ==> q.activeNodeId == p.activeNodeId)
                  && q.revision == p.revision + 1
                  && (clock > p.updatedAtMs ==> q.updatedAtMs == clock)
                  && (clock <= p.updatedAtMs ==> q.updatedAtMs == p.updatedAtMs + 1))
    ensures p.state !in {Completed, Failed, Cancelled} && clock >= 0 && NextProjection(p, t, clock).Err? ==>
              forall q: TaskProjection ::
                && q.taskId == p.taskId && q.goalId == p.goalId
                && q.state == (if t.state.Some? then t.state.value else p.state)
                && q.readyFrontier == (if t.frontier.Some? then t.frontier.value else p.readyFrontier)
                && q.activeNodeId == (if q.state != Running then None else if t.activeNodeId.Some? then t.activeNodeId
                                      else p.activeNodeId)
                && q.revision == p.revision + 1
                && q.updatedAtMs == (if clock > p.updatedAtMs then clock else p.updatedAtMs + 1)
                ==> !q.WellFormed()
  {
    hide TaskProjection.WellFormed;
  }

  // The nodes a projection names: the active one, then the ready ones.
  function Nodes(p: TaskProjection): seq<string> {
    (if p.activeNodeId.Some? then [p.activeNodeId.value] else []) + p.readyFrontier
  }

  ghost predicate NoneTwice(nodes: seq<string>) {
    forall i, j :: 0 <= i < |nodes| && 0 <= j < |nodes| && nodes[i] == nodes[j] ==> i == j
  }

  lemma NodesApart(p: TaskProjection)
    ensures NoneTwice(Nodes(p)) <==>
              && (forall i, j :: 0 <= i < j < |p.readyFrontier| ==> p.readyFrontier[i] != p.readyFrontier[j])
              && (p.activeNodeId.Some? ==> p.activeNodeId.value !in p.readyFrontier)
  {
    var nodes, offset := Nodes(p), if p.activeNodeId.Some? then 1 else 0;
    assert forall i :: 0 <= i < |p.readyFrontier| ==> nodes[offset + i] == p.readyFrontier[i];
    assert forall i :: offset <= i < |nodes| ==> nodes[i] == p.readyFrontier[i - offset];
    assert p.activeNodeId.Some? ==> nodes[0] == p.activeNodeId.value;
  }

  // The construction rules, said of the nodes together: each is a node identity, none occurs
  // twice, a ready task has a ready node, a running one an active node, an ended one none.
  lemma WellFormedExactly(p: TaskProjection)
    ensures p.WellFormed() <==>
              && "task:" <= p.taskId && Text.Trimmed(p.taskId) && "goal:" <= p.goalId && Text.Trimmed(p.goalId)
              && (forall n :: n in Nodes(p) ==> "node:" <= n) && NoneTwice(Nodes(p))
              && p.revision > 0 && p.updatedAtMs >= 0
              && (p.state == Ready ==> p.readyFrontier != []) && (p.state == Running ==> p.activeNodeId.Some?)
              && (p.state in {Completed, Failed, Cancelled} ==> Nodes(p) == [])
  {
    hide Text.Trimmed, NoneTwice;
    NodesApart(p);
    assert forall n :: n in Nodes(p) <==> p.activeNodeId == Some(n) || n in p.readyFrontier;
    assert forall i :: 0 <= i < |p.readyFrontier| ==> p.readyFrontier[i] in Nodes(p);
  }
}
