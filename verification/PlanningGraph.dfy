/** Tasks, the blind planner's view of them, and what the collaborators of a run may do. */
module PlanningTypes {
  import opened Basics
  import opened JsonValues
  import opened CoreState
  import opened Protocol

  datatype OutputFormat = Choice | ShortText | JsonOutput | Structured

  datatype OutputContract = OutputContract(format: OutputFormat, schema: Option<Json>, choices: Option<seq<string>>)

  datatype ArtifactSpec = ArtifactSpec(
    artifactId: Id, logicalType: string, mediaType: string, sizeBytes: nat, sourceRef: Option<string>)

  datatype TaskContract = TaskContract(
    taskId: string, benchmarkId: string, objective: string, artifacts: seq<ArtifactSpec>,
    outputContract: OutputContract, evaluatorId: string)

  datatype EvaluationResult = EvaluationResult(formatValid: bool, benchmarkScore: real)

  /** An execution result with every physical binding field removed. */
  datatype PlannerObservation = PlannerObservation(operator: string, output: map<string, Json>)

  function FromExecution(result: ExecutionResult): PlannerObservation {
    PlannerObservation(result.operator, result.output)
  }

  function Logical(results: seq<ExecutionResult>): (observations: seq<PlannerObservation>)
    ensures |observations| == |results|
  {
    Map(FromExecution, results)
  }

  datatype BlindPlannerContext = BlindPlannerContext(
    task: TaskContract, decisions: seq<JointDecision>, observations: seq<PlannerObservation>, remainingSteps: nat)

  datatype Failure = Failure(code: string)

  /**
   The collaborators of a run, over whatever world `W` they share. Each may change the world
   and each may raise.
   */
  datatype Collaborators<!W> = Collaborators(
    observe: W -> (W, Result<InfrastructureState, Failure>),
    decide: (W, BlindPlannerContext) -> (W, Result<JointDecision, Failure>),
    execute: (W, JointDecision, InfrastructureState) -> (W, Result<ExecutionResult, Failure>),
    finalize: (W, TaskContract, seq<JointDecision>, seq<ExecutionResult>) -> (W, Result<string, Failure>),
    evaluate: (W, TaskContract, string) -> (W, Result<EvaluationResult, Failure>))

  // ---------- The trace ----------

  datatype Payload =
    | TaskStarted(taskId: string, benchmarkId: string)
    | Materialized(transfer: Transfer)
    | SnapshotTaken(state: InfrastructureState)
    | PlannerStarted(remainingSteps: nat)
    | PlannerEnded(decision: JointDecision)
    | Proposed(decision: JointDecision)
    | OperatorStarted(operator: string)
    | Transferred(transfer: Transfer)
    | OperatorEnded(observation: ExecutionResult)
    | FinalizeStarted
    | FinalizeEnded(answer: string)
    | Evaluated(evaluation: EvaluationResult)
    | RunEnded(totalTransferBytes: nat)
    | RunFailed(failure: Failure)

  datatype EventType =
    | TaskStart | MaterializeEnd | InfraSnapshot | PlannerStart | PlannerEnd | ActionProposed | FinishProposed
    | OperatorStart | TransferEnd | OperatorEnd | FinalizeStart | FinalizeEnd | EvaluationEnd | RunEnd | RunFailure

  function TypeOf(payload: Payload): EventType {
    match payload
    case TaskStarted(_, _) => TaskStart
    case Materialized(_) => MaterializeEnd
    case SnapshotTaken(_) => InfraSnapshot
    case PlannerStarted(_) => PlannerStart
    case PlannerEnded(_) => PlannerEnd
    case Proposed(decision) => if decision.JointAction? then ActionProposed else FinishProposed
    case OperatorStarted(_) => OperatorStart
    case Transferred(_) => TransferEnd
    case OperatorEnded(_) => OperatorEnd
    case FinalizeStarted => FinalizeStart
    case FinalizeEnded(_) => FinalizeEnd
    case Evaluated(_) => EvaluationEnd
    case RunEnded(_) => RunEnd
    case RunFailed(_) => RunFailure
  }

  function Name(eventType: EventType): string {
    match eventType
    case TaskStart => "task.start"
    case MaterializeEnd => "artifact.materialize.end"
    case InfraSnapshot => "infra.snapshot"
    case PlannerStart => "planner.start"
    case PlannerEnd => "planner.end"
    case ActionProposed => "joint_action.proposed"
    case FinishProposed => "finish.proposed"
    case OperatorStart => "operator.start"
    case TransferEnd => "artifact.transfer.end"
    case OperatorEnd => "operator.end"
    case FinalizeStart => "finalize.start"
    case FinalizeEnd => "finalize.end"
    case EvaluationEnd => "evaluation.result"
    case RunEnd => "run.end"
    case RunFailure => "run.failed"
  }

  /** The event each payload is written as. */
  lemma PayloadNames(payload: Payload)
    ensures Name(TypeOf(payload)) ==
            match payload
            case TaskStarted(_, _) => "task.start"
            case Materialized(_) => "artifact.materialize.end"
            case SnapshotTaken(_) => "infra.snapshot"
            case PlannerStarted(_) => "planner.start"
            case PlannerEnded(_) => "planner.end"
            case Proposed(JointAction(_, _)) => "joint_action.proposed"
            case Proposed(FinishDecision(_)) => "finish.proposed"
            case OperatorStarted(_) => "operator.start"
            case Transferred(_) => "artifact.transfer.end"
            case OperatorEnded(_) => "operator.end"
            case FinalizeStarted => "finalize.start"
            case FinalizeEnded(_) => "finalize.end"
            case Evaluated(_) => "evaluation.result"
            case RunEnded(_) => "run.end"
            case RunFailed(_) => "run.failed"
  {
  }

  datatype StepId = StepId(index: nat, eventType: EventType)

  /** The step ID as it is written: `000012-operator.end`. */
  function Render(id: StepId): string {
    Padded(id.index, 6) + "-" + Name(id.eventType)
  }

  datatype TraceEvent = TraceEvent(runId: string, stepId: StepId, parentId: Option<StepId>, payload: Payload)

  /** The run ID, next event index and last event ID that every node hands to the next. */
  datatype Cursor = Cursor(runId: string, eventIndex: nat, parentId: Option<StepId>)

  function EventAt(cursor: Cursor, payload: Payload): TraceEvent {
    TraceEvent(cursor.runId, StepId(cursor.eventIndex, TypeOf(payload)), cursor.parentId, payload)
  }

  function Advance(cursor: Cursor, payload: Payload): Cursor {
    Cursor(cursor.runId, cursor.eventIndex + 1, Some(StepId(cursor.eventIndex, TypeOf(payload))))
  }

  function AdvanceAll(cursor: Cursor, payloads: seq<Payload>): Cursor
    decreases |payloads|
  {
    if payloads == [] then cursor else AdvanceAll(Advance(cursor, payloads[0]), payloads[1..])
  }

  /** The events a cursor produces for payloads emitted one after the other. */
  function EventsFrom(cursor: Cursor, payloads: seq<Payload>): (events: seq<TraceEvent>)
    ensures |events| == |payloads|
    decreases |payloads|
  {
    if payloads == [] then []
    else [EventAt(cursor, payloads[0])] + EventsFrom(Advance(cursor, payloads[0]), payloads[1..])
  }

  lemma {:induction false} EmitConcat(cursor: Cursor, first: seq<Payload>, second: seq<Payload>)
    ensures AdvanceAll(cursor, first + second) == AdvanceAll(AdvanceAll(cursor, first), second)
    ensures EventsFrom(cursor, first + second) ==
            EventsFrom(cursor, first) + EventsFrom(AdvanceAll(cursor, first), second)
    decreases |first|
  {
    if first == [] {
      assert first + second == second;
    } else {
      assert (first + second)[1..] == first[1..] + second;
      EmitConcat(Advance(cursor, first[0]), first[1..], second);
    }
  }

  /** Two stretches of emission, one after the other, are one stretch. */
  lemma EmitJoined(
    cursor: Cursor, first: seq<Payload>, second: seq<Payload>,
    start: seq<TraceEvent>, middle: seq<TraceEvent>, end: seq<TraceEvent>)
    requires middle == start + EventsFrom(cursor, first)
    requires end == middle + EventsFrom(AdvanceAll(cursor, first), second)
    ensures end == start + EventsFrom(cursor, first + second)
    ensures AdvanceAll(AdvanceAll(cursor, first), second) == AdvanceAll(cursor, first + second)
  {
    EmitConcat(cursor, first, second);
    ConcatAssociates(start, EventsFrom(cursor, first), EventsFrom(AdvanceAll(cursor, first), second));
  }
}

/**
 The planning graph: observe, plan, execute until the budget runs out or the planner finishes,
 then finalize and evaluate. A raising collaborator ends the run where it is.
 */
module PlanningGraph {
  import opened Basics
  import opened CoreState
  import opened Protocol
  import opened PlanningTypes

  datatype PlanningState = PlanningState(
    cursor: Cursor,
    task: TaskContract,
    remainingSteps: nat,
    decisions: seq<JointDecision>,
    observations: seq<ExecutionResult>,
    infrastructure: Option<InfrastructureState>,
    pendingDecision: Option<JointDecision>,
    finalAnswer: Option<string>,
    evaluation: Option<EvaluationResult>)

  datatype Node = Observe | Plan | Execute | Finalize | Evaluate

  /** What a node leaves behind: the events it appended, the world, and the next state or a failure. */
  datatype NodeOutcome<!W> = NodeOutcome(world: W, payloads: seq<Payload>, result: Result<PlanningState, Failure>)

  /** The state after a node that emitted `payloads` and changed `state` otherwise. */
  function After(state: PlanningState, payloads: seq<Payload>): PlanningState {
    state.(cursor := AdvanceAll(state.cursor, payloads))
  }

  function ObserveNode<W>(c: Collaborators<W>, world: W, state: PlanningState): NodeOutcome<W> {
    match c.observe(world)
    case (world', Err(failure)) => NodeOutcome(world', [], Err(failure))
    case (world', Ok(infrastructure)) =>
      var payloads := [SnapshotTaken(infrastructure)];
      NodeOutcome(world', payloads, Ok(After(state.(infrastructure := Some(infrastructure)), payloads)))
  }

  function PlannerContext(state: PlanningState): BlindPlannerContext {
    BlindPlannerContext(state.task, state.decisions, Logical(state.observations), state.remainingSteps)
  }

  function PlanNode<W>(c: Collaborators<W>, world: W, state: PlanningState): NodeOutcome<W>
    requires state.remainingSteps > 0
  {
    var started := PlannerStarted(state.remainingSteps);
    match c.decide(world, PlannerContext(state))
    case (world', Err(failure)) => NodeOutcome(world', [started], Err(failure))
    case (world', Ok(decision)) =>
      var payloads := [started, PlannerEnded(decision), Proposed(decision)];
      var planned := state.(
        pendingDecision := Some(decision),
        decisions := state.decisions + [decision],
        remainingSteps := state.remainingSteps - 1);
      NodeOutcome(world', payloads, Ok(After(planned, payloads)))
  }

  function MaterializePayloads(transfers: seq<Transfer>): seq<Payload> {
    Map(t => Materialized(t), transfers)
  }

  function TransferPayloads(transfers: seq<Transfer>): seq<Payload> {
    Map(t => Transferred(t), transfers)
  }

  function ExecuteNode<W>(c: Collaborators<W>, world: W, state: PlanningState): NodeOutcome<W> {
    if state.pendingDecision.None? || state.pendingDecision.value.FinishDecision? || state.infrastructure.None? then
      NodeOutcome(world, [], Err(Failure("internal_error")))
    else
      var decision := state.pendingDecision.value;
      var started := OperatorStarted(decision.semantic.operator);
      match c.execute(world, decision, state.infrastructure.value)
      case (world', Err(failure)) => NodeOutcome(world', [started], Err(failure))
      case (world', Ok(observation)) =>
        var payloads := [started] + TransferPayloads(observation.transfers) + [OperatorEnded(observation)];
        NodeOutcome(world', payloads, Ok(After(state.(observations := state.observations + [observation]), payloads)))
  }

  function FinalizeNode<W>(c: Collaborators<W>, world: W, state: PlanningState): NodeOutcome<W> {
    match c.finalize(world, state.task, state.decisions, state.observations)
    case (world', Err(failure)) => NodeOutcome(world', [FinalizeStarted], Err(failure))
    case (world', Ok(answer)) =>
      var payloads := [FinalizeStarted, FinalizeEnded(answer)];
      NodeOutcome(world', payloads, Ok(After(state.(finalAnswer := Some(answer)), payloads)))
  }

  function EvaluateNode<W>(c: Collaborators<W>, world: W, state: PlanningState): NodeOutcome<W> {
    if state.finalAnswer.None? then NodeOutcome(world, [], Err(Failure("internal_error")))
    else
      match c.evaluate(world, state.task, state.finalAnswer.value)
      case (world', Err(failure)) => NodeOutcome(world', [], Err(failure))
      case (world', Ok(evaluation)) =>
        var payloads := [Evaluated(evaluation)];
        NodeOutcome(world', payloads, Ok(After(state.(evaluation := Some(evaluation)), payloads)))
  }

  function RunNode<W>(c: Collaborators<W>, node: Node, world: W, state: PlanningState): NodeOutcome<W>
    requires node.Plan? ==> state.remainingSteps > 0
  {
    match node
    case Observe => ObserveNode(c, world, state)
    case Plan => PlanNode(c, world, state)
    case Execute => ExecuteNode(c, world, state)
    case Finalize => FinalizeNode(c, world, state)
    case Evaluate => EvaluateNode(c, world, state)
  }

  /** The declared edges; no successor means the end of the graph. */
  function Successor(node: Node, state: PlanningState): Option<Node> {
    match node
    case Observe => Some(if state.remainingSteps > 0 then Plan else Finalize)
    case Plan =>
      Some(if state.pendingDecision.Some? && state.pendingDecision.value.FinishDecision? then Finalize else Execute)
    case Execute => Some(Observe)
    case Finalize => Some(Evaluate)
    case Evaluate => None
  }

  /** How many more nodes can run from here. */
  function Rank(node: Node, state: PlanningState): nat {
    match node
    case Execute => 3 * state.remainingSteps + 4
    case Observe => 3 * state.remainingSteps + 3
    case Plan => 3 * state.remainingSteps + 2
    case Finalize => 2
    case Evaluate => 1
  }

  lemma RankDecreases<W>(c: Collaborators<W>, node: Node, world: W, state: PlanningState)
    requires node.Plan? ==> state.remainingSteps > 0
    requires RunNode(c, node, world, state).result.Ok?
    ensures var state' := RunNode(c, node, world, state).result.value;
            var next := Successor(node, state');
            next.Some? ==>
              Rank(next.value, state') < Rank(node, state) && (next.value.Plan? ==> state'.remainingSteps > 0)
  {
  }

  /** The end of a drive through the graph: the events appended, and the nodes visited, on the way. */
  datatype Outcome<!W> = Outcome(
    world: W, payloads: seq<Payload>, visited: seq<Node>, result: Result<PlanningState, Failure>)

  function Drive<W>(c: Collaborators<W>, node: Node, world: W, state: PlanningState): Outcome<W>
    requires node.Plan? ==> state.remainingSteps > 0
    decreases Rank(node, state)
  {
    var step := RunNode(c, node, world, state);
    match step.result
    case Err(failure) => Outcome(step.world, step.payloads, [node], Err(failure))
    case Ok(state') =>
      RankDecreases(c, node, world, state);
      match Successor(node, state')
      case None => Outcome(step.world, step.payloads, [node], Ok(state'))
      case Some(next) =>
        var rest := Drive(c, next, step.world, state');
        Outcome(rest.world, step.payloads + rest.payloads, [node] + rest.visited, rest.result)
  }

  lemma DriveUnfolds<W>(c: Collaborators<W>, node: Node, world: W, state: PlanningState)
    requires node.Plan? ==> state.remainingSteps > 0
    ensures var step := RunNode(c, node, world, state);
            var drive := Drive(c, node, world, state);
            match step.result
            case Err(failure) => drive == Outcome(step.world, step.payloads, [node], Err(failure))
            case Ok(state') =>
              match Successor(node, state')
              case None => drive == Outcome(step.world, step.payloads, [node], Ok(state'))
              case Some(next) =>
                && (next.Plan? ==> state'.remainingSteps > 0)
                && (var rest := Drive(c, next, step.world, state');
                    drive == Outcome(rest.world, step.payloads + rest.payloads, [node] + rest.visited, rest.result))
  {
    if RunNode(c, node, world, state).result.Ok? {
      RankDecreases(c, node, world, state);
    }
  }

  // ---------- Whole runs ----------

  datatype RunResult = RunResult(
    finalAnswer: string,
    evaluation: EvaluationResult,
    decisions: seq<JointDecision>,
    observations: seq<ExecutionResult>,
    initialTransfers: seq<Transfer>,
    totalTransferBytes: nat)

  function TransferredBy(observations: seq<ExecutionResult>): seq<Transfer> {
    Flatten(Map((o: ExecutionResult) => o.transfers, observations))
  }

  function TotalBytes(transfers: seq<Transfer>): nat {
    Total(Map((t: Transfer) => t.bytes, transfers))
  }

  function InitialPayloads(task: TaskContract, initialTransfers: seq<Transfer>): seq<Payload> {
    [TaskStarted(task.taskId, task.benchmarkId)] + MaterializePayloads(initialTransfers)
  }

  function InitialState(
      runId: string, task: TaskContract, budget: nat, initialTransfers: seq<Transfer>): PlanningState {
    PlanningState(
      AdvanceAll(FirstCursor(runId), InitialPayloads(task, initialTransfers)),
      task, budget, [], [], None, None, None, None)
  }

  datatype Run<!W> = Run(world: W, events: seq<TraceEvent>, visited: seq<Node>, result: Result<RunResult, Failure>)

  function FirstCursor(runId: string): Cursor {
    Cursor(runId, 0, None)
  }

  function EventsOf(runId: string, payloads: seq<Payload>): seq<TraceEvent> {
    EventsFrom(FirstCursor(runId), payloads)
  }

  /** Assemble the result; the last event carries the total of every transfer of the run. */
  function Conclude(state: PlanningState, initialTransfers: seq<Transfer>): Result<RunResult, Failure> {
    if state.finalAnswer.None? || state.evaluation.None? then Err(Failure("internal_error"))
    else Ok(RunResult(
      state.finalAnswer.value, state.evaluation.value, state.decisions, state.observations, initialTransfers,
      TotalBytes(initialTransfers + TransferredBy(state.observations))))
  }

  function RunGraph<W>(
    c: Collaborators<W>, world: W, runId: string, task: TaskContract, budget: nat,
    initialTransfers: seq<Transfer>): Run<W>
  {
    var before := InitialPayloads(task, initialTransfers);
    var drive := Drive(c, Observe, world, InitialState(runId, task, budget, initialTransfers));
    match drive.result
    case Err(failure) => Run(drive.world, EventsOf(runId, before + drive.payloads), drive.visited, Err(failure))
    case Ok(state) =>
      match Conclude(state, initialTransfers)
      case Err(failure) => Run(drive.world, EventsOf(runId, before + drive.payloads), drive.visited, Err(failure))
      case Ok(result) =>
        var payloads := before + drive.payloads + [RunEnded(result.totalTransferBytes)];
        Run(drive.world, EventsOf(runId, payloads), drive.visited, Ok(result))
  }
}
