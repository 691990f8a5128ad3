/** What every run of the planning graph keeps: its trace, its shape, and what the trace records. */
module PlanningProperties {
  import opened Basics
  import opened CoreState
  import opened Protocol
  import opened PlanningTypes
  import opened PlanningGraph

  // ---------- The trace is one chain ----------

  /** Event `i` carries index `i`, and its parent is the event before it. */
  predicate LinkedAt(runId: string, events: seq<TraceEvent>, i: nat)
    requires i < |events|
  {
    && events[i].runId == runId
    && events[i].stepId == StepId(i, TypeOf(events[i].payload))
    && events[i].parentId == if i == 0 then None else Some(events[i - 1].stepId)
  }

  ghost predicate Linear(runId: string, events: seq<TraceEvent>) {
    forall i: nat :: i < |events| ==> LinkedAt(runId, events, i)
  }

  /** The event a cursor at index 0 of run `runId` leaves at position `i`. */
  function ChainEvent(cursor: Cursor, payloads: seq<Payload>, i: nat): TraceEvent
    requires i < |payloads|
  {
    TraceEvent(
      cursor.runId,
      StepId(cursor.eventIndex + i, TypeOf(payloads[i])),
      if i == 0 then cursor.parentId else Some(StepId(cursor.eventIndex + i - 1, TypeOf(payloads[i - 1]))),
      payloads[i])
  }

  lemma EventsTail(cursor: Cursor, payloads: seq<Payload>, i: nat)
    requires 0 < i < |payloads|
    ensures EventsFrom(cursor, payloads)[i] == EventsFrom(Advance(cursor, payloads[0]), payloads[1..])[i - 1]
  {
  }

  lemma {:induction false} EventShape(cursor: Cursor, payloads: seq<Payload>, i: nat)
    requires i < |payloads|
    ensures EventsFrom(cursor, payloads)[i] == ChainEvent(cursor, payloads, i)
    decreases i
  {
    if i > 0 {
      EventsTail(cursor, payloads, i);
      EventShape(Advance(cursor, payloads[0]), payloads[1..], i - 1);
    }
  }

  lemma EventsLinear(runId: string, payloads: seq<Payload>)
    ensures Linear(runId, EventsOf(runId, payloads))
    ensures forall i :: 0 <= i < |payloads| ==> EventsOf(runId, payloads)[i].payload == payloads[i]
  {
    var cursor := FirstCursor(runId);
    var events := EventsOf(runId, payloads);
    forall i: nat | i < |payloads|
      ensures events[i].payload == payloads[i] && LinkedAt(runId, events, i)
    {
      EventShape(cursor, payloads, i);
      if i > 0 {
        EventShape(cursor, payloads, i - 1);
      }
    }
  }

  lemma NoDashInDigits(n: nat)
    ensures '-' !in Padded(n, 6)
  {
    PaddedDigits(n, 6);
    assert '-' !in DIGITS;
  }

  /** Rendering keeps step IDs apart, past six digits too. */
  lemma RenderInjective(a: StepId, b: StepId)
    requires Render(a) == Render(b)
    ensures a.index == b.index
  {
    NoDashInDigits(a.index);
    NoDashInDigits(b.index);
    SplitAtFirst(Padded(a.index, 6), Name(a.eventType), Padded(b.index, 6), Name(b.eventType), '-');
    PaddedInjective(a.index, b.index, 6);
  }

  ghost predicate DistinctSteps(events: seq<TraceEvent>) {
    forall i, j :: 0 <= i < j < |events| ==> Render(events[i].stepId) != Render(events[j].stepId)
  }

  /** Step IDs of a chain never repeat, however long it grows. */
  lemma StepIdsDistinct(runId: string, events: seq<TraceEvent>)
    requires Linear(runId, events)
    ensures DistinctSteps(events)
  {
    forall i, j | 0 <= i < j < |events| ensures Render(events[i].stepId) != Render(events[j].stepId) {
      assert LinkedAt(runId, events, i) && LinkedAt(runId, events, j);
      if Render(events[i].stepId) == Render(events[j].stepId) {
        RenderInjective(events[i].stepId, events[j].stepId);
      }
    }
  }

  /** The event a runner appends to whatever trace a failed run left behind. */
  function FailureEvent(runId: string, events: seq<TraceEvent>, failure: Failure): TraceEvent {
    TraceEvent(
      runId, StepId(|events|, RunFailure),
      if events == [] then None else Some(events[|events| - 1].stepId), RunFailed(failure))
  }

  lemma FailureExtendsChain(runId: string, events: seq<TraceEvent>, failure: Failure)
    requires Linear(runId, events)
    ensures Linear(runId, events + [FailureEvent(runId, events, failure)])
  {
    var extended := events + [FailureEvent(runId, events, failure)];
    forall i: nat | i < |extended| ensures LinkedAt(runId, extended, i) {
      if i < |events| {
        assert LinkedAt(runId, events, i);
      }
    }
  }

  /**
   Wherever a run stops, whichever collaborator raised, its trace is one chain of distinct step IDs,
   and the runner's failure event extends that chain (it is the whole chain if nothing ran).
   */
  lemma TraceLinearUnderAnyFailure<W>(
    c: Collaborators<W>, world: W, runId: string, task: TaskContract, budget: nat,
    initialTransfers: seq<Transfer>, failure: Failure)
    ensures var events := RunGraph(c, world, runId, task, budget, initialTransfers).events;
            var extended := events + [FailureEvent(runId, events, failure)];
            Linear(runId, events) && Linear(runId, extended) && DistinctSteps(extended)
    ensures Linear(runId, [FailureEvent(runId, [], failure)])
  {
    var run := RunGraph(c, world, runId, task, budget, initialTransfers);
    var drive := Drive(c, Observe, world, InitialState(runId, task, budget, initialTransfers));
    var before := InitialPayloads(task, initialTransfers);
    EventsLinear(runId, before + drive.payloads);
    if run.result.Ok? {
      EventsLinear(runId, before + drive.payloads + [RunEnded(run.result.value.totalTransferBytes)]);
    }
    FailureExtendsChain(runId, run.events, failure);
    StepIdsDistinct(runId, run.events + [FailureEvent(runId, run.events, failure)]);
    FailureExtendsChain(runId, [], failure);
    assert [] + [FailureEvent(runId, [], failure)] == [FailureEvent(runId, [], failure)];
  }

  // ---------- Bounds that hold even for runs that fail ----------

  function Visits(node: Node, visited: seq<Node>): nat {
    |Filter(v => v == node, visited)|
  }

  lemma VisitsCons(node: Node, first: Node, rest: seq<Node>)
    ensures Visits(node, [first] + rest) == (if first == node then 1 else 0) + Visits(node, rest)
  {
    assert ([first] + rest)[1..] == rest;
  }

  /** The planner is asked at most once per step of budget; the ending runs at most once. */
  lemma {:induction false} DriveBounded<W>(c: Collaborators<W>, node: Node, world: W, state: PlanningState)
    requires node.Plan? ==> state.remainingSteps > 0
    ensures var visited := Drive(c, node, world, state).visited;
            && |visited| <= Rank(node, state)
            && Visits(Plan, visited) <= state.remainingSteps
            && Visits(Finalize, visited) <= 1 && Visits(Evaluate, visited) <= 1
            && (node.Evaluate? ==> Visits(Finalize, visited) == 0)
    decreases Rank(node, state)
  {
    var step := RunNode(c, node, world, state);
    DriveUnfolds(c, node, world, state);
    var rest: seq<Node> := [];
    if step.result.Ok? {
      RankDecreases(c, node, world, state);
      var next := Successor(node, step.result.value);
      if next.Some? {
        DriveBounded(c, next.value, step.world, step.result.value);
        rest := Drive(c, next.value, step.world, step.result.value).visited;
      }
    }
    assert Drive(c, node, world, state).visited == [node] + rest;
    VisitsCons(Plan, node, rest);
    VisitsCons(Finalize, node, rest);
    VisitsCons(Evaluate, node, rest);
  }

  // ---------- The shape of completed runs ----------

  ghost predicate AllActions(decisions: seq<JointDecision>) {
    forall i :: 0 <= i < |decisions| ==> decisions[i].JointAction?
  }

  predicate Finished(decisions: seq<JointDecision>) {
    decisions != [] && decisions[|decisions| - 1].FinishDecision?
  }

  /** The decisions that call for an execution: all of them, bar a closing finish. */
  function Actions(decisions: seq<JointDecision>): seq<JointDecision> {
    if Finished(decisions) then decisions[..|decisions| - 1] else decisions
  }

  /** `observation` is what the executor returned for `decision` somewhere in the run. */
  ghost predicate ExecutedBy<W(!new)>(c: Collaborators<W>, decision: JointDecision, observation: ExecutionResult) {
    exists world, snapshot :: c.execute(world, decision, snapshot).1 == Ok(observation)
  }

  ghost predicate AllExecuted<W(!new)>(
    c: Collaborators<W>, decisions: seq<JointDecision>, observations: seq<ExecutionResult>) {
    && |decisions| == |observations| && AllActions(decisions)
    && (forall i :: 0 <= i < |decisions| ==> ExecutedBy(c, decisions[i], observations[i]))
  }

  /** What holds of a state whenever `node` is about to run on it. */
  ghost predicate Coherent<W(!new)>(c: Collaborators<W>, node: Node, state: PlanningState) {
    match node
    case Observe => AllExecuted(c, state.decisions, state.observations)
    case Plan =>
      && AllExecuted(c, state.decisions, state.observations)
      && state.remainingSteps > 0 && state.infrastructure.Some?
    case Execute =>
      && state.decisions != [] && state.infrastructure.Some?
      && state.pendingDecision == Some(state.decisions[|state.decisions| - 1])
      && state.pendingDecision.value.JointAction?
      && AllExecuted(c, state.decisions[..|state.decisions| - 1], state.observations)
    case Finalize => Settled(c, state)
    case Evaluate => Settled(c, state) && state.finalAnswer.Some?
  }

  /** No more actions: the planner finished, or the budget ran out. */
  ghost predicate Settled<W(!new)>(c: Collaborators<W>, state: PlanningState) {
    && AllExecuted(c, Actions(state.decisions), state.observations)
    && (Finished(state.decisions) || state.remainingSteps == 0)
  }

  lemma NodeCoherent<W(!new)>(c: Collaborators<W>, node: Node, world: W, state: PlanningState)
    requires Coherent(c, node, state) && RunNode(c, node, world, state).result.Ok?
    ensures var state' := RunNode(c, node, world, state).result.value;
            match Successor(node, state')
            case Some(next) => Coherent(c, next, state')
            case None => Settled(c, state') && state'.finalAnswer.Some? && state'.evaluation.Some?
  {
    var state' := RunNode(c, node, world, state).result.value;
    match node
    case Execute => ExecuteCoherent(c, world, state);
    case Plan => assert state'.decisions[..|state'.decisions| - 1] == state.decisions;
    case _ =>
  }

  lemma ExecuteCoherent<W(!new)>(c: Collaborators<W>, world: W, state: PlanningState)
    requires Coherent(c, Execute, state) && ExecuteNode(c, world, state).result.Ok?
    ensures Coherent(c, Observe, ExecuteNode(c, world, state).result.value)
  {
    var state' := ExecuteNode(c, world, state).result.value;
    var before := state.decisions[..|state.decisions| - 1];
    var last := state.pendingDecision.value;
    assert c.execute(world, last, state.infrastructure.value).1 == Ok(state'.observations[|state.observations|]);
    assert ExecutedBy(c, last, state'.observations[|state.observations|]);
    forall i | 0 <= i < |state'.decisions|
      ensures state'.decisions[i].JointAction? && ExecutedBy(c, state'.decisions[i], state'.observations[i])
    {
      if i < |before| {
        assert before[i].JointAction? && ExecutedBy(c, before[i], state.observations[i]);
      }
    }
  }

  /** Every node but a finishing plan uses up exactly one unit of rank, and steps are never created. */
  lemma NodeShape<W(!new)>(c: Collaborators<W>, node: Node, world: W, state: PlanningState)
    requires Coherent(c, node, state) && RunNode(c, node, world, state).result.Ok?
    ensures var state' := RunNode(c, node, world, state).result.value;
            && |state'.decisions| + state'.remainingSteps == |state.decisions| + state.remainingSteps
            && (node.Plan? ==> |state'.decisions| == |state.decisions| + 1)
            && (!node.Plan? ==> state'.decisions == state.decisions)
  {
  }

  lemma {:induction false} DriveShape<W(!new)>(c: Collaborators<W>, node: Node, world: W, state: PlanningState)
    requires Coherent(c, node, state) && Drive(c, node, world, state).result.Ok?
    ensures var drive := Drive(c, node, world, state);
            var final := drive.result.value;
            && Settled(c, final) && final.finalAnswer.Some? && final.evaluation.Some?
            && |final.decisions| + final.remainingSteps == |state.decisions| + state.remainingSteps
            && (node.Finalize? || node.Evaluate? ==> final.decisions == state.decisions)
            && |drive.visited| + Skipped(node, final) == Rank(node, state)
    decreases Rank(node, state)
  {
    var step := RunNode(c, node, world, state);
    DriveUnfolds(c, node, world, state);
    RankDecreases(c, node, world, state);
    NodeCoherent(c, node, world, state);
    NodeShape(c, node, world, state);
    var next := Successor(node, step.result.value);
    if next.Some? {
      DriveShape(c, next.value, step.world, step.result.value);
    }
  }

  /** The rank left unused by a planner that finishes early. */
  function Skipped(node: Node, final: PlanningState): nat {
    if !node.Finalize? && !node.Evaluate? && Finished(final.decisions) then 3 * final.remainingSteps + 2 else 0
  }

  lemma {:induction false} DriveVisits<W(!new)>(c: Collaborators<W>, node: Node, world: W, state: PlanningState)
    requires Coherent(c, node, state) && Drive(c, node, world, state).result.Ok?
    ensures var visited := Drive(c, node, world, state).visited;
            && Visits(Evaluate, visited) == 1
            && Visits(Finalize, visited) == (if node.Evaluate? then 0 else 1)
            && Visits(Plan, visited) == |Drive(c, node, world, state).result.value.decisions| - |state.decisions|
    decreases Rank(node, state)
  {
    var step := RunNode(c, node, world, state);
    DriveUnfolds(c, node, world, state);
    RankDecreases(c, node, world, state);
    NodeCoherent(c, node, world, state);
    var next := Successor(node, step.result.value);
    var rest: seq<Node> := [];
    if next.Some? {
      DriveVisits(c, next.value, step.world, step.result.value);
      rest := Drive(c, next.value, step.world, step.result.value).visited;
    }
    NodeShape(c, node, world, state);
    assert Drive(c, node, world, state).visited == [node] + rest;
    VisitsCons(Plan, node, rest);
    VisitsCons(Finalize, node, rest);
    VisitsCons(Evaluate, node, rest);
  }

  /**
   A completed run with budget n asks the planner once per decision and never more than n times;
   a finish comes last or not at all; observations answer the action decisions one to one, in order;
   and it visits 3n+3 nodes if the budget ran out, 3k+4 if the planner finished after k actions.
   */
  lemma CompletedRunShape<W(!new)>(
    c: Collaborators<W>, world: W, runId: string, task: TaskContract, budget: nat, initialTransfers: seq<Transfer>)
    requires RunGraph(c, world, runId, task, budget, initialTransfers).result.Ok?
    ensures var run := RunGraph(c, world, runId, task, budget, initialTransfers);
            var r := run.result.value;
            && |r.decisions| <= budget
            && AllExecuted(c, Actions(r.decisions), r.observations)
            && (!Finished(r.decisions) ==> |r.decisions| == budget)
            && |run.visited| == (if Finished(r.decisions) then 3 * |r.observations| + 4 else 3 * budget + 3)
            && Visits(Plan, run.visited) == |r.decisions|
            && Visits(Finalize, run.visited) == 1 && Visits(Evaluate, run.visited) == 1
  {
    var initial := InitialState(runId, task, budget, initialTransfers);
    DriveShape(c, Observe, world, initial);
    DriveVisits(c, Observe, world, initial);
  }

  // ---------- The trace records the run ----------

  /** What a reader of the trace can rebuild. */
  datatype Recovered = Recovered(
    snapshot: Option<InfrastructureState>,
    decisions: seq<JointDecision>,
    observations: seq<ExecutionResult>,
    initialTransfers: seq<Transfer>,
    transfers: seq<Transfer>,
    finalAnswer: Option<string>,
    evaluation: Option<EvaluationResult>)

  const NOTHING := Recovered(None, [], [], [], [], None, None)

  function ReplayEvent(r: Recovered, payload: Payload): Recovered {
    match payload
    case Materialized(transfer) => r.(initialTransfers := r.initialTransfers + [transfer])
    case SnapshotTaken(snapshot) => r.(snapshot := Some(snapshot))
    case PlannerEnded(decision) => r.(decisions := r.decisions + [decision])
    case Transferred(transfer) => r.(transfers := r.transfers + [transfer])
    case OperatorEnded(observation) => r.(observations := r.observations + [observation])
    case FinalizeEnded(answer) => r.(finalAnswer := Some(answer))
    case Evaluated(evaluation) => r.(evaluation := Some(evaluation))
    case _ => r
  }

  function Replay(r: Recovered, payloads: seq<Payload>): Recovered
    decreases |payloads|
  {
    if payloads == [] then r else Replay(ReplayEvent(r, payloads[0]), payloads[1..])
  }

  lemma {:induction false} ReplayConcat(r: Recovered, first: seq<Payload>, second: seq<Payload>)
    ensures Replay(r, first + second) == Replay(Replay(r, first), second)
    decreases |first|
  {
    if first == [] {
      assert first + second == second;
    } else {
      assert (first + second)[1..] == first[1..] + second;
      ReplayConcat(ReplayEvent(r, first[0]), first[1..], second);
    }
  }

  lemma {:induction false} ReplayMaterialized(r: Recovered, transfers: seq<Transfer>)
    ensures Replay(r, MaterializePayloads(transfers)) == r.(initialTransfers := r.initialTransfers + transfers)
    decreases |transfers|
  {
    if transfers == [] {
      assert r.initialTransfers + transfers == r.initialTransfers;
    } else {
      var r' := ReplayEvent(r, Materialized(transfers[0]));
      assert MaterializePayloads(transfers)[1..] == MaterializePayloads(transfers[1..]);
      assert r'.initialTransfers + transfers[1..] == r.initialTransfers + transfers;
      ReplayMaterialized(r', transfers[1..]);
    }
  }

  lemma {:induction false} ReplayTransferred(r: Recovered, transfers: seq<Transfer>)
    ensures Replay(r, TransferPayloads(transfers)) == r.(transfers := r.transfers + transfers)
    decreases |transfers|
  {
    if transfers == [] {
      assert r.transfers + transfers == r.transfers;
    } else {
      var r' := ReplayEvent(r, Transferred(transfers[0]));
      assert TransferPayloads(transfers)[1..] == TransferPayloads(transfers[1..]);
      assert r'.transfers + transfers[1..] == r.transfers + transfers;
      ReplayTransferred(r', transfers[1..]);
    }
  }

  lemma ReplayOne(r: Recovered, payload: Payload)
    ensures Replay(r, [payload]) == ReplayEvent(r, payload)
  {
    assert [payload][1..] == [];
  }

  lemma TransferredBySnoc(observations: seq<ExecutionResult>, observation: ExecutionResult)
    ensures TransferredBy(observations + [observation]) == TransferredBy(observations) + observation.transfers
  {
    var transfersOf := (o: ExecutionResult) => o.transfers;
    assert Map(transfersOf, observations + [observation]) == Map(transfersOf, observations) + [observation.transfers];
    FlattenSnoc(Map(transfersOf, observations), observation.transfers);
  }

  /** The recorded part of a state. */
  function RecordOf(state: PlanningState, initialTransfers: seq<Transfer>): Recovered {
    Recovered(
      state.infrastructure, state.decisions, state.observations, initialTransfers, TransferredBy(state.observations),
      state.finalAnswer, state.evaluation)
  }

  lemma ExecuteReplays<W>(c: Collaborators<W>, world: W, state: PlanningState, initialTransfers: seq<Transfer>)
    requires ExecuteNode(c, world, state).result.Ok?
    ensures var step := ExecuteNode(c, world, state);
            Replay(RecordOf(state, initialTransfers), step.payloads) == RecordOf(step.result.value, initialTransfers)
  {
    var step := ExecuteNode(c, world, state);
    var r := RecordOf(state, initialTransfers);
    var observation := step.result.value.observations[|state.observations|];
    var started := [OperatorStarted(state.pendingDecision.value.semantic.operator)];
    var transferred := TransferPayloads(observation.transfers);
    ReplayConcat(r, started + transferred, [OperatorEnded(observation)]);
    ReplayConcat(r, started, transferred);
    ReplayOne(r, started[0]);
    ReplayTransferred(r, observation.transfers);
    ReplayOne(Replay(r, started + transferred), OperatorEnded(observation));
    TransferredBySnoc(state.observations, observation);
  }

  lemma PairReplays(r: Recovered, first: Payload, second: Payload)
    ensures Replay(r, [first, second]) == ReplayEvent(ReplayEvent(r, first), second)
  {
    assert [first, second] == [first] + [second];
    ReplayConcat(r, [first], [second]);
    ReplayOne(r, first);
    ReplayOne(ReplayEvent(r, first), second);
  }

  lemma NodeReplays<W>(c: Collaborators<W>, node: Node, world: W, state: PlanningState, initialTransfers: seq<Transfer>)
    requires node.Plan? ==> state.remainingSteps > 0
    requires RunNode(c, node, world, state).result.Ok?
    ensures var step := RunNode(c, node, world, state);
            Replay(RecordOf(state, initialTransfers), step.payloads) == RecordOf(step.result.value, initialTransfers)
  {
    var step := RunNode(c, node, world, state);
    var r := RecordOf(state, initialTransfers);
    match node
    case Execute => ExecuteReplays(c, world, state, initialTransfers);
    case Plan =>
      assert step.payloads == [step.payloads[0]] + [step.payloads[1], step.payloads[2]];
      ReplayConcat(r, [step.payloads[0]], [step.payloads[1], step.payloads[2]]);
      ReplayOne(r, step.payloads[0]);
      PairReplays(r, step.payloads[1], step.payloads[2]);
    case Finalize => PairReplays(r, step.payloads[0], step.payloads[1]);
    case _ => ReplayOne(r, step.payloads[0]);
  }

  lemma {:induction false} DriveReplays<W>(
    c: Collaborators<W>, node: Node, world: W, state: PlanningState, initialTransfers: seq<Transfer>)
    requires node.Plan? ==> state.remainingSteps > 0
    requires Drive(c, node, world, state).result.Ok?
    ensures var drive := Drive(c, node, world, state);
            Replay(RecordOf(state, initialTransfers), drive.payloads) == RecordOf(drive.result.value, initialTransfers)
    decreases Rank(node, state)
  {
    var step := RunNode(c, node, world, state);
    DriveUnfolds(c, node, world, state);
    RankDecreases(c, node, world, state);
    NodeReplays(c, node, world, state, initialTransfers);
    var next := Successor(node, step.result.value);
    if next.Some? {
      DriveReplays(c, next.value, step.world, step.result.value, initialTransfers);
      var rest := Drive(c, next.value, step.world, step.result.value);
      ReplayConcat(RecordOf(state, initialTransfers), step.payloads, rest.payloads);
    }
  }

  // ---------- The observations a stretch of trace records ----------

  function Observed(payloads: seq<Payload>): seq<ExecutionResult> {
    Replay(NOTHING, payloads).observations
  }

  lemma {:induction false} ReplayObserves(r: Recovered, payloads: seq<Payload>)
    ensures Replay(r, payloads).observations == r.observations + Observed(payloads)
    decreases |payloads|
  {
    if payloads != [] {
      ReplayObserves(ReplayEvent(r, payloads[0]), payloads[1..]);
      ReplayObserves(ReplayEvent(NOTHING, payloads[0]), payloads[1..]);
    }
  }

  lemma ObservedConcat(first: seq<Payload>, second: seq<Payload>)
    ensures Observed(first + second) == Observed(first) + Observed(second)
  {
    ReplayConcat(NOTHING, first, second);
    ReplayObserves(Replay(NOTHING, first), second);
  }

  lemma NodeObserves<W>(c: Collaborators<W>, node: Node, world: W, state: PlanningState)
    requires node.Plan? ==> state.remainingSteps > 0
    requires RunNode(c, node, world, state).result.Ok?
    ensures var step := RunNode(c, node, world, state);
            step.result.value.observations == state.observations + Observed(step.payloads)
  {
    NodeReplays(c, node, world, state, []);
    ReplayObserves(RecordOf(state, []), RunNode(c, node, world, state).payloads);
  }

  lemma ExecuteObserves<W>(c: Collaborators<W>, world: W, state: PlanningState)
    requires ExecuteNode(c, world, state).result.Ok?
    ensures var step := ExecuteNode(c, world, state);
            && |Observed(step.payloads)| == 1
            && step.result.value.observations == state.observations + Observed(step.payloads)
  {
    NodeObserves(c, Execute, world, state);
  }

  lemma QuietObserves<W>(c: Collaborators<W>, node: Node, world: W, state: PlanningState)
    requires (node.Plan? ==> state.remainingSteps > 0) && !node.Execute?
    requires RunNode(c, node, world, state).result.Ok?
    ensures Observed(RunNode(c, node, world, state).payloads) == []
  {
    NodeObserves(c, node, world, state);
  }

  lemma DriveObserves<W>(c: Collaborators<W>, node: Node, world: W, state: PlanningState)
    requires node.Plan? ==> state.remainingSteps > 0
    requires var step := RunNode(c, node, world, state);
             step.result.Ok? && Successor(node, step.result.value).Some?
    ensures var step := RunNode(c, node, world, state);
            var next := Successor(node, step.result.value).value;
            && (next.Plan? ==> step.result.value.remainingSteps > 0)
            && Observed(Drive(c, node, world, state).payloads) ==
               Observed(step.payloads) + Observed(Drive(c, next, step.world, step.result.value).payloads)
  {
    DriveUnfolds(c, node, world, state);
    var step := RunNode(c, node, world, state);
    ObservedConcat(
      step.payloads, Drive(c, Successor(node, step.result.value).value, step.world, step.result.value).payloads);
  }

  /** Only executions observe: past any other node, the rest of a drive observes all there is. */
  lemma QuietDriveObserves<W>(c: Collaborators<W>, node: Node, world: W, state: PlanningState)
    requires (node.Plan? ==> state.remainingSteps > 0) && !node.Execute?
    requires var step := RunNode(c, node, world, state);
             step.result.Ok? && Successor(node, step.result.value).Some?
    ensures var step := RunNode(c, node, world, state);
            var next := Successor(node, step.result.value).value;
            && (next.Plan? ==> step.result.value.remainingSteps > 0)
            && Observed(Drive(c, node, world, state).payloads) ==
               Observed(Drive(c, next, step.world, step.result.value).payloads)
  {
    DriveObserves(c, node, world, state);
    QuietObserves(c, node, world, state);
  }

  function Payloads(events: seq<TraceEvent>): seq<Payload> {
    Map((e: TraceEvent) => e.payload, events)
  }

  /**
   Reading a completed run's trace back yields its decisions, observations, answer, evaluation and
   every transfer, in order; the closing event carries the bytes of exactly those transfers.
   */
  lemma TraceRecoversRun<W>(
    c: Collaborators<W>, world: W, runId: string, task: TaskContract, budget: nat, initialTransfers: seq<Transfer>)
    requires RunGraph(c, world, runId, task, budget, initialTransfers).result.Ok?
    ensures var run := RunGraph(c, world, runId, task, budget, initialTransfers);
            var r := run.result.value;
            var recovered := Replay(NOTHING, Payloads(run.events));
            && recovered.decisions == r.decisions && recovered.observations == r.observations
            && recovered.initialTransfers == r.initialTransfers == initialTransfers
            && recovered.transfers == TransferredBy(r.observations)
            && recovered.finalAnswer == Some(r.finalAnswer) && recovered.evaluation == Some(r.evaluation)
            && r.totalTransferBytes == TotalBytes(recovered.initialTransfers + recovered.transfers)
            && run.events != [] && run.events[|run.events| - 1].payload == RunEnded(r.totalTransferBytes)
  {
    var run := RunGraph(c, world, runId, task, budget, initialTransfers);
    var initial := InitialState(runId, task, budget, initialTransfers);
    var drive := Drive(c, Observe, world, initial);
    var before := InitialPayloads(task, initialTransfers);
    var ended := RunEnded(run.result.value.totalTransferBytes);
    EventsLinear(runId, before + drive.payloads + [ended]);
    assert Payloads(run.events) == before + drive.payloads + [ended];
    InitialReplays(task, initialTransfers);
    assert TransferredBy([]) == [];
    assert RecordOf(initial, initialTransfers) == NOTHING.(initialTransfers := initialTransfers);
    DriveReplays(c, Observe, world, initial, initialTransfers);
    ReplayConcat(NOTHING, before, drive.payloads);
    ReplayConcat(NOTHING, before + drive.payloads, [ended]);
    ReplayOne(RecordOf(drive.result.value, initialTransfers), ended);
  }

  lemma InitialReplays(task: TaskContract, initialTransfers: seq<Transfer>)
    ensures Replay(NOTHING, InitialPayloads(task, initialTransfers)) == NOTHING.(initialTransfers := initialTransfers)
  {
    var started := TaskStarted(task.taskId, task.benchmarkId);
    ReplayConcat(NOTHING, [started], MaterializePayloads(initialTransfers));
    ReplayOne(NOTHING, started);
    ReplayMaterialized(NOTHING, initialTransfers);
    assert [] + initialTransfers == initialTransfers;
  }

  lemma PayloadsOf(runId: string, payloads: seq<Payload>)
    ensures Payloads(EventsOf(runId, payloads)) == payloads
  {
    EventsLinear(runId, payloads);
  }

  /** However a run ends, its trace opens with the task and then each initial transfer, in order. */
  lemma TraceOpens<W>(
    c: Collaborators<W>, world: W, runId: string, task: TaskContract, budget: nat, initialTransfers: seq<Transfer>)
    ensures var run := RunGraph(c, world, runId, task, budget, initialTransfers);
            var n := |initialTransfers|;
            && |run.events| > n
            && run.events[0].payload == TaskStarted(task.taskId, task.benchmarkId)
            && (forall i :: 0 <= i < n ==> run.events[i + 1].payload == Materialized(initialTransfers[i]))
  {
    var run := RunGraph(c, world, runId, task, budget, initialTransfers);
    var before := InitialPayloads(task, initialTransfers);
    var drive := Drive(c, Observe, world, InitialState(runId, task, budget, initialTransfers));
    var ended := if run.result.Ok? then [RunEnded(run.result.value.totalTransferBytes)] else [];
    assert before + drive.payloads + [] == before + drive.payloads;
    var all := before + drive.payloads + ended;
    assert run.events == EventsOf(runId, all);
    PayloadsOf(runId, all);
    forall i | 0 <= i < |before| ensures run.events[i].payload == before[i] {
      assert Payloads(run.events)[i] == all[i] && all[i] == before[i];
    }
  }

  /** What a drive adds to the record, when its first node went well, is what the rest of it adds. */
  lemma DriveRecords<W>(
    c: Collaborators<W>, node: Node, world: W, state: PlanningState, initialTransfers: seq<Transfer>)
    requires node.Plan? ==> state.remainingSteps > 0
    requires var step := RunNode(c, node, world, state);
             step.result.Ok? && Successor(node, step.result.value).Some?
    ensures var step := RunNode(c, node, world, state);
            var next := Successor(node, step.result.value).value;
            && (next.Plan? ==> step.result.value.remainingSteps > 0)
            && Replay(RecordOf(state, initialTransfers), Drive(c, node, world, state).payloads) ==
               Replay(
                 RecordOf(step.result.value, initialTransfers),
                 Drive(c, next, step.world, step.result.value).payloads)
  {
    DriveUnfolds(c, node, world, state);
    NodeReplays(c, node, world, state, initialTransfers);
    var step := RunNode(c, node, world, state);
    ReplayConcat(
      RecordOf(state, initialTransfers), step.payloads,
      Drive(c, Successor(node, step.result.value).value, step.world, step.result.value).payloads);
  }

  /** The trace of a run that failed in the graph records what its drive did. */
  lemma FailedRunRecords<W>(
    c: Collaborators<W>, world: W, runId: string, task: TaskContract, budget: nat, initialTransfers: seq<Transfer>)
    ensures var initial := InitialState(runId, task, budget, initialTransfers);
            RunGraph(c, world, runId, task, budget, initialTransfers).result.Err? ==>
              Replay(NOTHING, Payloads(RunGraph(c, world, runId, task, budget, initialTransfers).events)) ==
              Replay(RecordOf(initial, initialTransfers), Drive(c, Observe, world, initial).payloads)
  {
    var initial := InitialState(runId, task, budget, initialTransfers);
    var before, payloads := InitialPayloads(task, initialTransfers), Drive(c, Observe, world, initial).payloads;
    PayloadsOf(runId, before + payloads);
    InitialReplays(task, initialTransfers);
    ReplayConcat(NOTHING, before, payloads);
    assert TransferredBy([]) == [];
    assert RecordOf(initial, initialTransfers) == NOTHING.(initialTransfers := initialTransfers);
  }

  /** The observations a run made before it ended, as its trace records them. */
  function ObservedBefore<W>(run: Run<W>): seq<ExecutionResult> {
    Observed(Payloads(run.events))
  }

  /** Completed or not, a run's trace records the observations of its drive. */
  lemma RunObserves<W>(
    c: Collaborators<W>, world: W, runId: string, task: TaskContract, budget: nat, initialTransfers: seq<Transfer>)
    ensures Observed(Payloads(RunGraph(c, world, runId, task, budget, initialTransfers).events)) ==
            Observed(Drive(c, Observe, world, InitialState(runId, task, budget, initialTransfers)).payloads)
  {
    var run := RunGraph(c, world, runId, task, budget, initialTransfers);
    var before := InitialPayloads(task, initialTransfers);
    var payloads := Drive(c, Observe, world, InitialState(runId, task, budget, initialTransfers)).payloads;
    InitialReplays(task, initialTransfers);
    ObservedConcat(before, payloads);
    PayloadsOf(runId, before + payloads);
    if run.result.Ok? {
      var ended := RunEnded(run.result.value.totalTransferBytes);
      PayloadsOf(runId, before + payloads + [ended]);
      ObservedConcat(before + payloads, [ended]);
      ReplayOne(NOTHING, ended);
    }
  }

  lemma BytesConcat(a: seq<Transfer>, b: seq<Transfer>)
    ensures TotalBytes(a + b) == TotalBytes(a) + TotalBytes(b)
  {
    var bytesOf := (t: Transfer) => t.bytes;
    assert Map(bytesOf, a + b) == Map(bytesOf, a) + Map(bytesOf, b);
    TotalConcat(Map(bytesOf, a), Map(bytesOf, b));
  }

  /** The byte total of a run counts every transfer's bytes, the initial ones and those of each action. */
  lemma BytesAddUp(initial: seq<Transfer>, observations: seq<ExecutionResult>, next: ExecutionResult, t: Transfer)
    ensures TotalBytes([]) == 0 && TotalBytes(initial + [t]) == TotalBytes(initial) + t.bytes
    ensures TotalBytes(initial + TransferredBy([])) == TotalBytes(initial)
    ensures TotalBytes(initial + TransferredBy(observations + [next])) ==
            TotalBytes(initial + TransferredBy(observations)) + TotalBytes(next.transfers)
  {
    BytesConcat(initial, [t]);
    assert Map((each: Transfer) => each.bytes, [t]) == [t.bytes] && [t.bytes][1..] == [];
    assert TotalBytes([t]) == Total([t.bytes]);
    assert initial + TransferredBy([]) == initial;
    TransferredBySnoc(observations, next);
    var before := initial + TransferredBy(observations);
    assert initial + TransferredBy(observations + [next]) == before + next.transfers;
    BytesConcat(before, next.transfers);
  }

  // ---------- How long the trace is ----------

  /** Events still to come from `node`, beyond six per action and one per transfer. */
  function Ending(node: Node, finished: bool): nat {
    match node
    case Observe => if finished then 7 else 4
    case Plan => if finished then 6 else 3
    case Execute => if finished then 3 else 0
    case Finalize => 3
    case Evaluate => 1
  }

  /** Events a node adds, beyond six per action and one per transfer. */
  function Spent(node: Node): int {
    match node
    case Plan => 3
    case Execute => -4
    case Finalize => 2
    case _ => 1
  }

  function Recorded(observations: seq<ExecutionResult>): nat {
    6 * |observations| + |TransferredBy(observations)|
  }

  lemma NodeLength<W>(c: Collaborators<W>, node: Node, world: W, state: PlanningState)
    requires node.Plan? ==> state.remainingSteps > 0
    requires RunNode(c, node, world, state).result.Ok?
    ensures var step := RunNode(c, node, world, state);
            |step.payloads| + Recorded(state.observations) == Spent(node) + Recorded(step.result.value.observations)
  {
    if node.Execute? {
      TransferredBySnoc(
        state.observations, RunNode(c, node, world, state).result.value.observations[|state.observations|]);
    }
  }

  /** A finish is what tells the two endings apart. */
  lemma EndingStep<W(!new)>(c: Collaborators<W>, node: Node, world: W, state: PlanningState)
    requires Coherent(c, node, state) && Drive(c, node, world, state).result.Ok?
    ensures var finished := Finished(Drive(c, node, world, state).result.value.decisions);
            var next := Successor(node, RunNode(c, node, world, state).result.value);
            Ending(node, finished) == Spent(node) + if next.Some? then Ending(next.value, finished) else 0
  {
    var step := RunNode(c, node, world, state);
    DriveUnfolds(c, node, world, state);
    NodeCoherent(c, node, world, state);
    var next := Successor(node, step.result.value);
    if next.Some? {
      DriveShape(c, next.value, step.world, step.result.value);
    }
  }

  lemma {:induction false} DriveLength<W(!new)>(c: Collaborators<W>, node: Node, world: W, state: PlanningState)
    requires Coherent(c, node, state) && Drive(c, node, world, state).result.Ok?
    ensures var drive := Drive(c, node, world, state);
            |drive.payloads| + Recorded(state.observations) ==
            Ending(node, Finished(drive.result.value.decisions)) + Recorded(drive.result.value.observations)
    decreases Rank(node, state)
  {
    var step := RunNode(c, node, world, state);
    DriveUnfolds(c, node, world, state);
    RankDecreases(c, node, world, state);
    NodeCoherent(c, node, world, state);
    NodeLength(c, node, world, state);
    EndingStep(c, node, world, state);
    var next := Successor(node, step.result.value);
    if next.Some? {
      DriveLength(c, next.value, step.world, step.result.value);
    }
  }

  /** With m materializations, k actions and T transfers: m+6k+T+6 events, or m+6k+T+9 after a finish. */
  lemma TraceLength<W(!new)>(
    c: Collaborators<W>, world: W, runId: string, task: TaskContract, budget: nat, initialTransfers: seq<Transfer>)
    requires RunGraph(c, world, runId, task, budget, initialTransfers).result.Ok?
    ensures var run := RunGraph(c, world, runId, task, budget, initialTransfers);
            var r := run.result.value;
            var k := |Actions(r.decisions)|;
            |run.events| ==
            |initialTransfers| + 6 * k + |TransferredBy(r.observations)| + (if Finished(r.decisions) then 9 else 6)
  {
    var initial := InitialState(runId, task, budget, initialTransfers);
    DriveShape(c, Observe, world, initial);
    DriveLength(c, Observe, world, initial);
    assert TransferredBy([]) == [];
  }

  // ---------- What the trace says, in order ----------

  /** What the observer returned, each time it was asked from `node` on. */
  function Snapshots<W>(c: Collaborators<W>, node: Node, world: W, state: PlanningState): seq<InfrastructureState>
    requires node.Plan? ==> state.remainingSteps > 0
    decreases Rank(node, state)
  {
    var step := RunNode(c, node, world, state);
    if step.result.Err? then []
    else
      RankDecreases(c, node, world, state);
      var next := Successor(node, step.result.value);
      (if node.Observe? then [c.observe(world).1.value] else [])
      + (if next.None? then [] else Snapshots(c, next.value, step.world, step.result.value))
  }

  lemma EndingSeesNothing<W>(c: Collaborators<W>, node: Node, world: W, state: PlanningState)
    requires node.Finalize? || node.Evaluate?
    ensures Snapshots(c, node, world, state) == []
    decreases Rank(node, state)
  {
    var step := RunNode(c, node, world, state);
    if node.Finalize? && step.result.Ok? {
      EndingSeesNothing(c, Evaluate, step.world, step.result.value);
    }
  }

  function Deciding(snapshot: InfrastructureState, remaining: nat, decision: JointDecision): seq<Payload> {
    [SnapshotTaken(snapshot), PlannerStarted(remaining), PlannerEnded(decision), Proposed(decision)]
  }

  function Acting(decision: JointDecision, observation: ExecutionResult): seq<Payload> {
    (if decision.JointAction? then [OperatorStarted(decision.semantic.operator)] else [])
    + TransferPayloads(observation.transfers) + [OperatorEnded(observation)]
  }

  /** Rounds of observing, deciding and acting, closed by a finish or by a last look with no budget left. */
  function Script(
    snapshots: seq<InfrastructureState>, remaining: nat, decisions: seq<JointDecision>,
    observations: seq<ExecutionResult>): seq<Payload>
    decreases |snapshots|
  {
    if snapshots == [] then []
    else if decisions == [] then [SnapshotTaken(snapshots[0])]
    else if observations == [] then Deciding(snapshots[0], remaining, decisions[0])
    else
      Deciding(snapshots[0], remaining, decisions[0]) + Acting(decisions[0], observations[0])
      + Script(snapshots[1..], if remaining > 0 then remaining - 1 else 0, decisions[1..], observations[1..])
  }

  function Closing(final: PlanningState): seq<Payload>
    requires final.finalAnswer.Some? && final.evaluation.Some?
  {
    [FinalizeStarted, FinalizeEnded(final.finalAnswer.value), Evaluated(final.evaluation.value)]
  }

  lemma DriveCloses<W(!new)>(c: Collaborators<W>, world: W, state: PlanningState)
    requires Coherent(c, Finalize, state) && Drive(c, Finalize, world, state).result.Ok?
    ensures var drive := Drive(c, Finalize, world, state);
            var final := drive.result.value;
            && final.decisions == state.decisions && final.observations == state.observations
            && final.finalAnswer.Some? && final.evaluation.Some? && drive.payloads == Closing(final)
  {
    var step := FinalizeNode(c, world, state);
    DriveUnfolds(c, Finalize, world, state);
    DriveUnfolds(c, Evaluate, step.world, step.result.value);
  }

  /** The rest of a drive, as a script: what it decided and observed from here on. */
  ghost predicate Scripted<W>(
    c: Collaborators<W>, node: Node, world: W, state: PlanningState, script: seq<Payload>)
    requires node.Plan? ==> state.remainingSteps > 0
  {
    var drive := Drive(c, node, world, state);
    && drive.result.Ok? && drive.result.value.finalAnswer.Some? && drive.result.value.evaluation.Some?
    && drive.payloads == script + Closing(drive.result.value)
  }

  lemma HistoryGrows<W(!new)>(c: Collaborators<W>, node: Node, world: W, state: PlanningState)
    requires Coherent(c, node, state) && Drive(c, node, world, state).result.Ok?
    ensures var final := Drive(c, node, world, state).result.value;
            state.decisions <= final.decisions && state.observations <= final.observations
    decreases Rank(node, state)
  {
    var step := RunNode(c, node, world, state);
    DriveUnfolds(c, node, world, state);
    RankDecreases(c, node, world, state);
    NodeCoherent(c, node, world, state);
    var next := Successor(node, step.result.value);
    if next.Some? {
      HistoryGrows(c, next.value, step.world, step.result.value);
    }
  }

  function Since<T>(before: seq<T>, after: seq<T>): seq<T>
    requires before <= after
  {
    after[|before|..]
  }

  lemma SinceOne<T>(before: seq<T>, x: T, after: seq<T>)
    requires before + [x] <= after
    ensures before <= after && Since(before, after) == [x] + Since(before + [x], after)
  {
    assert after[|before|] == x;
  }

  /** A script from the node after an observation, preceded by its snapshot, is a script from the observation. */
  lemma OpensScript<W(!new)>(c: Collaborators<W>, world: W, state: PlanningState, script: seq<Payload>)
    requires ObserveNode(c, world, state).result.Ok? && script != []
    requires var seen := ObserveNode(c, world, state);
             && script[0] == SnapshotTaken(seen.result.value.infrastructure.value)
             && Scripted(c, if state.remainingSteps > 0 then Plan else Finalize,
                 seen.world, seen.result.value, script[1..])
    ensures Scripted(c, Observe, world, state, script)
  {
    var seen := ObserveNode(c, world, state);
    DriveUnfolds(c, Observe, world, state);
    assert script == [script[0]] + script[1..];
    ConcatAssociates([script[0]], script[1..], Closing(Drive(c, Observe, world, state).result.value));
  }

  lemma {:induction false} DriveScript<W(!new)>(c: Collaborators<W>, world: W, state: PlanningState)
    returns (snapshots: seq<InfrastructureState>)
    requires Coherent(c, Observe, state) && Drive(c, Observe, world, state).result.Ok?
    ensures var final := Drive(c, Observe, world, state).result.value;
            && state.decisions <= final.decisions && state.observations <= final.observations
            && snapshots == Snapshots(c, Observe, world, state)
            && |snapshots| == |final.observations| - |state.observations| + 1
            && Scripted(c, Observe, world, state, Script(
                 snapshots, state.remainingSteps,
                 Since(state.decisions, final.decisions), Since(state.observations, final.observations)))
    decreases Rank(Observe, state)
  {
    var seen := ObserveNode(c, world, state);
    DriveUnfolds(c, Observe, world, state);
    RankDecreases(c, Observe, world, state);
    NodeCoherent(c, Observe, world, state);
    var snapshot := seen.result.value.infrastructure.value;
    var rest: seq<InfrastructureState> := [];
    if state.remainingSteps == 0 {
      DriveCloses(c, seen.world, seen.result.value);
      EndingSeesNothing(c, Finalize, seen.world, seen.result.value);
    } else {
      rest := PlanScript(c, seen.world, seen.result.value, snapshot);
    }
    snapshots := [snapshot] + rest;
    assert snapshots[1..] == rest;
    var final := Drive(c, Observe, world, state).result.value;
    OpensScript(c, world, state, Script(
      snapshots, state.remainingSteps,
      Since(state.decisions, final.decisions), Since(state.observations, final.observations)));
  }

  lemma {:induction false} PlanScript<W(!new)>(
    c: Collaborators<W>, world: W, state: PlanningState, snapshot: InfrastructureState)
    returns (rest: seq<InfrastructureState>)
    requires Coherent(c, Plan, state) && Drive(c, Plan, world, state).result.Ok?
    ensures var final := Drive(c, Plan, world, state).result.value;
            && state.decisions <= final.decisions && state.observations <= final.observations
            && |state.decisions| < |final.decisions|
            && rest == Snapshots(c, Plan, world, state)
            && |rest| == |final.observations| - |state.observations|
            && Scripted(c, Plan, world, state, Script(
                 [snapshot] + rest, state.remainingSteps,
                 Since(state.decisions, final.decisions), Since(state.observations, final.observations))[1..])
    decreases Rank(Plan, state)
  {
    var planned := PlanNode(c, world, state);
    DriveUnfolds(c, Plan, world, state);
    RankDecreases(c, Plan, world, state);
    NodeCoherent(c, Plan, world, state);
    HistoryGrows(c, Plan, world, state);
    var after := planned.result.value;
    var decision := after.pendingDecision.value;
    var final := Drive(c, Plan, world, state).result.value;
    rest := [];
    ghost var acted: seq<Payload> := [];
    if decision.FinishDecision? {
      DriveCloses(c, planned.world, after);
      EndingSeesNothing(c, Finalize, planned.world, after);
      assert Since(state.decisions, final.decisions) == [decision];
      assert Since(state.observations, final.observations) == [];
    } else {
      rest := ExecuteScript(c, planned.world, after, decision);
      SinceOne(state.decisions, decision, final.decisions);
      var observations := Since(state.observations, final.observations);
      acted := Acting(decision, observations[0])
               + Script(rest, after.remainingSteps, Since(after.decisions, final.decisions), observations[1..]);
    }
    RoundTail(
      [snapshot] + rest, state.remainingSteps, decision,
      Since(state.decisions, final.decisions), Since(state.observations, final.observations));
    assert ([snapshot] + rest)[1..] == rest;
    ConcatAssociates(planned.payloads, acted, Closing(final));
  }

  /** A script opens with a snapshot; the rest of its first round follows. */
  lemma RoundTail(
    snapshots: seq<InfrastructureState>, remaining: nat, decision: JointDecision,
    decisions: seq<JointDecision>, observations: seq<ExecutionResult>)
    requires snapshots != [] && decisions != [] && decisions[0] == decision && remaining > 0
    ensures Script(snapshots, remaining, decisions, observations) != []
    ensures Script(snapshots, remaining, decisions, observations)[0] == SnapshotTaken(snapshots[0])
    ensures Script(snapshots, remaining, decisions, observations)[1..] ==
            [PlannerStarted(remaining), PlannerEnded(decision), Proposed(decision)]
            + (if observations == [] then [] else
               Acting(decision, observations[0])
               + Script(snapshots[1..], remaining - 1, decisions[1..], observations[1..]))
  {
    var first := Deciding(snapshots[0], remaining, decision);
    assert first[1..] == [PlannerStarted(remaining), PlannerEnded(decision), Proposed(decision)];
    if observations == [] {
      assert first[1..] + [] == first[1..];
    } else {
      var acting := Acting(decision, observations[0]);
      var more := Script(snapshots[1..], remaining - 1, decisions[1..], observations[1..]);
      ConcatAssociates(first, acting, more);
      TailOfConcat(first, acting + more);
    }
  }

  lemma TailOfConcat<T>(a: seq<T>, b: seq<T>)
    requires a != []
    ensures (a + b)[1..] == a[1..] + b && (a + b)[0] == a[0]
  {
  }

  lemma {:induction false} ExecuteScript<W(!new)>(
    c: Collaborators<W>, world: W, state: PlanningState, decision: JointDecision)
    returns (snapshots: seq<InfrastructureState>)
    requires Coherent(c, Execute, state) && Drive(c, Execute, world, state).result.Ok?
    requires state.pendingDecision == Some(decision)
    ensures var final := Drive(c, Execute, world, state).result.value;
            && state.decisions <= final.decisions && state.observations <= final.observations
            && |state.observations| < |final.observations|
            && snapshots == Snapshots(c, Execute, world, state)
            && |snapshots| == |final.observations| - |state.observations|
            && (var observations := Since(state.observations, final.observations);
                Scripted(c, Execute, world, state,
                  Acting(decision, observations[0])
                  + Script(
                      snapshots, state.remainingSteps, Since(state.decisions, final.decisions), observations[1..])))
    decreases Rank(Execute, state)
  {
    var executed := ExecuteNode(c, world, state);
    DriveUnfolds(c, Execute, world, state);
    RankDecreases(c, Execute, world, state);
    NodeCoherent(c, Execute, world, state);
    HistoryGrows(c, Observe, executed.world, executed.result.value);
    snapshots := DriveScript(c, executed.world, executed.result.value);
    var observation := executed.result.value.observations[|state.observations|];
    var final := Drive(c, Execute, world, state).result.value;
    SinceOne(state.observations, observation, final.observations);
    assert executed.payloads == Acting(decision, observation);
    ConcatAssociates(
      executed.payloads,
      Script(snapshots, state.remainingSteps, Since(state.decisions, final.decisions),
             Since(state.observations + [observation], final.observations)),
      Closing(final));
  }

  /**
   The payloads of a completed run, event by event, with what the observer returned each time it was
   asked: nothing else, and in no other order.
   */
  lemma TraceScript<W(!new)>(
    c: Collaborators<W>, world: W, runId: string, task: TaskContract, budget: nat, initialTransfers: seq<Transfer>)
    requires RunGraph(c, world, runId, task, budget, initialTransfers).result.Ok?
    ensures var run := RunGraph(c, world, runId, task, budget, initialTransfers);
            var r := run.result.value;
            var snapshots := Snapshots(c, Observe, world, InitialState(runId, task, budget, initialTransfers));
            && |snapshots| == |r.observations| + 1
            && Payloads(run.events) ==
               InitialPayloads(task, initialTransfers)
               + (Script(snapshots, budget, r.decisions, r.observations)
                  + [FinalizeStarted, FinalizeEnded(r.finalAnswer), Evaluated(r.evaluation)])
               + [RunEnded(r.totalTransferBytes)]
  {
    var run := RunGraph(c, world, runId, task, budget, initialTransfers);
    var initial := InitialState(runId, task, budget, initialTransfers);
    var snapshots := DriveScript(c, world, initial);
    var drive := Drive(c, Observe, world, initial);
    var payloads :=
      InitialPayloads(task, initialTransfers) + drive.payloads + [RunEnded(run.result.value.totalTransferBytes)];
    EventsLinear(runId, payloads);
    assert Payloads(run.events) == payloads;
    assert Since([], drive.result.value.decisions) == drive.result.value.decisions;
    assert Since([], drive.result.value.observations) == drive.result.value.observations;
  }
}
