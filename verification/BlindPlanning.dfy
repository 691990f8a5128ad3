/**
 The language-model planner and finalizer. Both see a run only through payloads with every trace of
 where things are, or where they ran, removed.
 */
module BlindPlanning {
  import opened Basics
  import opened JsonValues
  import opened Sorting
  import opened CoreState
  import opened Protocol
  import opened PlanningTypes

  // ---------- Logical payloads ----------

  datatype LogicalArtifact = LogicalArtifact(artifactId: Id, logicalType: string, mediaType: string, sizeBytes: nat)

  datatype LogicalTask = LogicalTask(
    taskId: string, benchmarkId: string, objective: string, artifacts: seq<LogicalArtifact>,
    outputContract: OutputContract)

  datatype LogicalDecision = LogicalAction(semantic: SemanticAction) | LogicalFinish(reason: string)

  function LogicalArtifactOf(artifact: ArtifactSpec): LogicalArtifact {
    LogicalArtifact(artifact.artifactId, artifact.logicalType, artifact.mediaType, artifact.sizeBytes)
  }

  function LogicalTaskOf(task: TaskContract): LogicalTask {
    LogicalTask(
      task.taskId, task.benchmarkId, task.objective, Map(LogicalArtifactOf, task.artifacts), task.outputContract)
  }

  function LogicalDecisionOf(decision: JointDecision): LogicalDecision {
    match decision
    case JointAction(semantic, _) => LogicalAction(semantic)
    case FinishDecision(reason) => LogicalFinish(reason)
  }

  // ---------- The planner ----------

  datatype Tool = Tool(name: string, description: string, inputSchema: Json, argumentSchema: Json)

  /** The operators on offer, and the actions that satisfy their schemas. */
  datatype Registry = Registry(tools: map<string, Tool>, admits: SemanticAction -> bool)

  function ShownNames(registry: Registry): seq<string> {
    Enumerate(registry.tools.Keys - {"read_artifact"})
  }

  function PlannerTools(registry: Registry): seq<Tool> {
    Map(name => if name in registry.tools then registry.tools[name] else Tool(name, "", Null, Null),
        ShownNames(registry))
  }

  datatype PlannerPayload = PlannerPayload(
    task: LogicalTask,
    tools: seq<Tool>,
    history: seq<LogicalDecision>,
    observations: seq<PlannerObservation>,
    remainingSteps: nat)

  /** The fixed instructions followed by the payload as canonical JSON. */
  const PlannerText: PlannerPayload -> string

  function PlannerPayloadOf(registry: Registry, context: BlindPlannerContext): PlannerPayload {
    PlannerPayload(
      LogicalTaskOf(context.task), PlannerTools(registry), Map(LogicalDecisionOf, context.decisions),
      context.observations, context.remainingSteps)
  }

  function PlannerPrompt(registry: Registry, context: BlindPlannerContext): string {
    PlannerText(PlannerPayloadOf(registry, context))
  }

  datatype Proposal =
    | ActionProposal(operator: string, inputs: seq<Id>, arguments: map<string, Json>)
    | FinishProposal(reason: string)

  /** One JSON object of one of the two proposal shapes, or nothing. */
  const ParseProposal: string -> Option<Proposal>

  type Backend = string -> Result<string, Failure>

  /** A proposal becomes a decision; placement is never the planner's to choose. */
  function Decision(registry: Registry, completion: string): Result<JointDecision, Failure> {
    match ParseProposal(completion)
    case None => Err(Failure("planner_decision_invalid"))
    case Some(FinishProposal(reason)) => Ok(FinishDecision(reason))
    case Some(ActionProposal(operator, inputs, arguments)) =>
      var action := SemanticAction(operator, inputs, arguments);
      if operator !in registry.tools || !registry.admits(action) then Err(Failure("planner_decision_invalid"))
      else Ok(JointAction(action, AUTO))
  }

  function Decide(backend: Backend, registry: Registry, context: BlindPlannerContext): Result<JointDecision, Failure> {
    var completion :- backend(PlannerPrompt(registry, context));
    Decision(registry, completion)
  }

  // ---------- The finalizer ----------

  datatype Instruction = OneOf(choices: Option<seq<string>>) | ShortestSpan | MatchingSchema(schema: Option<Json>)

  function ContractInstruction(contract: OutputContract): Instruction {
    match contract.format
    case Choice => OneOf(contract.choices)
    case ShortText => ShortestSpan
    case _ => MatchingSchema(contract.schema)
  }

  datatype FinalizerPayload = FinalizerPayload(
    instruction: Instruction, task: LogicalTask, history: seq<LogicalDecision>, observations: seq<PlannerObservation>)

  const FinalizerText: FinalizerPayload -> string

  function FinalizerPayloadOf(
      task: TaskContract, decisions: seq<JointDecision>, observations: seq<ExecutionResult>): FinalizerPayload {
    FinalizerPayload(
      ContractInstruction(task.outputContract), LogicalTaskOf(task),
      Map(LogicalDecisionOf, decisions), Logical(observations))
  }

  function FinalizerPrompt(
      task: TaskContract, decisions: seq<JointDecision>, observations: seq<ExecutionResult>): string {
    FinalizerText(FinalizerPayloadOf(task, decisions, observations))
  }

  lemma ShownAt(registry: Registry, i: nat)
    requires i < |ShownNames(registry)|
    ensures |PlannerTools(registry)| == |ShownNames(registry)|
    ensures ShownNames(registry)[i] in registry.tools && ShownNames(registry)[i] != "read_artifact"
    ensures PlannerTools(registry)[i] == registry.tools[ShownNames(registry)[i]]
  {
    assert ShownNames(registry)[i] in ShownNames(registry);
  }

  /** The planner is shown every operator but `read_artifact`, each once, in name order. */
  lemma PlannerToolsShown(registry: Registry, name: string)
    requires name in registry.tools
    ensures name != "read_artifact" <==> name in ShownNames(registry)
    ensures name in ShownNames(registry) ==> registry.tools[name] in PlannerTools(registry)
    ensures Sorted(LexLeq, ShownNames(registry)) && NoDuplicates(ShownNames(registry))
  {
    var names := ShownNames(registry);
    if name in names {
      var i :| 0 <= i < |names| && names[i] == name;
      ShownAt(registry, i);
      assert PlannerTools(registry)[i] == registry.tools[name];
    }
  }

  // ---------- What prompts say ----------

  /**
   Payloads that are told apart by their texts. Not all can be at once: numbers are reals here, and there are more
   reals than texts.
   */
  ghost predicate PlannerTextInjective(shown: iset<PlannerPayload>) {
    forall p, q :: p in shown && q in shown && PlannerText(p) == PlannerText(q) ==> p == q
  }

  ghost predicate FinalizerTextInjective(shown: iset<FinalizerPayload>) {
    forall p, q :: p in shown && q in shown && FinalizerText(p) == FinalizerText(q) ==> p == q
  }

  /** Two tasks that differ in nothing but where their artifacts come from and how answers are scored. */
  ghost predicate SameTask(a: TaskContract, b: TaskContract) {
    && a.taskId == b.taskId && a.benchmarkId == b.benchmarkId && a.objective == b.objective
    && a.outputContract == b.outputContract && |a.artifacts| == |b.artifacts|
    && (forall i :: 0 <= i < |a.artifacts| ==>
      && a.artifacts[i].artifactId == b.artifacts[i].artifactId
      && a.artifacts[i].logicalType == b.artifacts[i].logicalType
      && a.artifacts[i].mediaType == b.artifacts[i].mediaType
      && a.artifacts[i].sizeBytes == b.artifacts[i].sizeBytes)
  }

  /** The same decision, wherever it is to be placed. */
  predicate SameDecision(a: JointDecision, b: JointDecision) {
    match (a, b)
    case (JointAction(x, _), JointAction(y, _)) =>
      x.operator == y.operator && x.inputs == y.inputs && x.arguments == y.arguments
    case (FinishDecision(x), FinishDecision(y)) => x == y
    case _ => false
  }

  ghost predicate SameDecisions(a: seq<JointDecision>, b: seq<JointDecision>) {
    |a| == |b| && forall i :: 0 <= i < |a| ==> SameDecision(a[i], b[i])
  }

  ghost predicate SameObservations(a: seq<PlannerObservation>, b: seq<PlannerObservation>) {
    |a| == |b| && forall i :: 0 <= i < |a| ==> a[i].operator == b[i].operator && a[i].output == b[i].output
  }

  lemma SameTaskShown(a: TaskContract, b: TaskContract)
    ensures LogicalTaskOf(a) == LogicalTaskOf(b) <==> SameTask(a, b)
  {
    var x, y := Map(LogicalArtifactOf, a.artifacts), Map(LogicalArtifactOf, b.artifacts);
    if LogicalTaskOf(a) == LogicalTaskOf(b) {
      forall i | 0 <= i < |a.artifacts|
        ensures LogicalArtifactOf(a.artifacts[i]) == LogicalArtifactOf(b.artifacts[i])
      {
        assert x[i] == y[i];
      }
    }
    if SameTask(a, b) {
      assert x == y;
    }
  }

  lemma SameDecisionsShown(a: seq<JointDecision>, b: seq<JointDecision>)
    ensures Map(LogicalDecisionOf, a) == Map(LogicalDecisionOf, b) <==> SameDecisions(a, b)
  {
    var x, y := Map(LogicalDecisionOf, a), Map(LogicalDecisionOf, b);
    if x == y {
      forall i | 0 <= i < |a| ensures SameDecision(a[i], b[i]) {
        assert x[i] == y[i];
      }
    }
    if SameDecisions(a, b) {
      forall i | 0 <= i < |a| ensures x[i] == y[i] {
        assert SameDecision(a[i], b[i]);
      }
      assert x == y;
    }
  }

  lemma SameObservationsShown(a: seq<PlannerObservation>, b: seq<PlannerObservation>)
    ensures a == b <==> SameObservations(a, b)
  {
    if SameObservations(a, b) {
      forall i | 0 <= i < |a| ensures a[i] == b[i] {
      }
    }
  }

  /**
   A planner prompt says exactly this much: the logical task, every decision without its placement, every
   observation, and the steps left. It depends on all of it and on nothing else.
   */
  lemma PlannerPromptSays(
      shown: iset<PlannerPayload>, registry: Registry, c: BlindPlannerContext, c': BlindPlannerContext)
    requires PlannerTextInjective(shown)
    requires PlannerPayloadOf(registry, c) in shown && PlannerPayloadOf(registry, c') in shown
    ensures PlannerPrompt(registry, c) == PlannerPrompt(registry, c') <==>
      && SameTask(c.task, c'.task) && SameDecisions(c.decisions, c'.decisions)
      && SameObservations(c.observations, c'.observations) && c.remainingSteps == c'.remainingSteps
  {
    SameTaskShown(c.task, c'.task);
    SameDecisionsShown(c.decisions, c'.decisions);
    SameObservationsShown(c.observations, c'.observations);
  }

  /** And it shows the tools: two registries prompt alike only if they show the same ones. */
  lemma PlannerPromptShowsTools(
      shown: iset<PlannerPayload>, registry: Registry, registry': Registry, c: BlindPlannerContext, name: string)
    requires PlannerTextInjective(shown)
    requires PlannerPayloadOf(registry, c) in shown && PlannerPayloadOf(registry', c) in shown
    requires PlannerPrompt(registry, c) == PlannerPrompt(registry', c)
    requires name in registry.tools && name != "read_artifact"
    ensures exists other :: other in registry'.tools && other != "read_artifact"
                            && registry'.tools[other] == registry.tools[name]
  {
    PlannerToolsShown(registry, name);
    assert PlannerTools(registry) == PlannerTools(registry');
    var tools := PlannerTools(registry');
    var i :| 0 <= i < |tools| && tools[i] == registry.tools[name];
    ShownAt(registry', i);
  }

  /** A finalizer prompt says the logical task, every decision without its placement, and every observation. */
  lemma FinalizerPromptSays(
    shown: iset<FinalizerPayload>, a: TaskContract, b: TaskContract,
    decisions: seq<JointDecision>, decisions': seq<JointDecision>,
    observations: seq<ExecutionResult>, observations': seq<ExecutionResult>)
    requires FinalizerTextInjective(shown)
    requires FinalizerPayloadOf(a, decisions, observations) in shown
    requires FinalizerPayloadOf(b, decisions', observations') in shown
    ensures FinalizerPrompt(a, decisions, observations) == FinalizerPrompt(b, decisions', observations') <==>
      && SameTask(a, b) && SameDecisions(decisions, decisions')
      && |observations| == |observations'|
      && (forall i :: 0 <= i < |observations| ==>
        && observations[i].operator == observations'[i].operator
        && observations[i].output == observations'[i].output)
  {
    SameTaskShown(a, b);
    SameDecisionsShown(decisions, decisions');
    SameObservationsShown(Logical(observations), Logical(observations'));
  }

  ghost predicate ShowsTask(shown: LogicalTask, task: TaskContract) {
    && shown.taskId == task.taskId && shown.benchmarkId == task.benchmarkId && shown.objective == task.objective
    && shown.outputContract == task.outputContract && |shown.artifacts| == |task.artifacts|
    && (forall i :: 0 <= i < |task.artifacts| ==>
      && shown.artifacts[i].artifactId == task.artifacts[i].artifactId
      && shown.artifacts[i].logicalType == task.artifacts[i].logicalType
      && shown.artifacts[i].mediaType == task.artifacts[i].mediaType
      && shown.artifacts[i].sizeBytes == task.artifacts[i].sizeBytes)
  }

  ghost predicate ShowsDecisions(shown: seq<LogicalDecision>, decisions: seq<JointDecision>) {
    && |shown| == |decisions|
    && (forall i :: 0 <= i < |decisions| ==>
      match decisions[i]
      case JointAction(semantic, _) => shown[i] == LogicalAction(semantic)
      case FinishDecision(reason) => shown[i] == LogicalFinish(reason))
  }

  /** The tools shown are the ones registered under `names`: all but `read_artifact`, each once, by name. */
  ghost predicate ShowsTools(shown: seq<Tool>, names: seq<string>, registry: Registry) {
    && Sorted(LexLeq, names) && NoDuplicates(names)
    && (forall name :: name in names <==> name in registry.tools && name != "read_artifact")
    && |shown| == |names|
    && (forall i :: 0 <= i < |names| ==> names[i] in registry.tools && shown[i] == registry.tools[names[i]])
  }

  /** The payload of a planner prompt, part by part: the whole run so far, in order, and nothing physical. */
  lemma PlannerPromptIs(registry: Registry, c: BlindPlannerContext) returns (p: PlannerPayload, names: seq<string>)
    ensures PlannerPrompt(registry, c) == PlannerText(p)
    ensures ShowsTask(p.task, c.task) && ShowsTools(p.tools, names, registry)
    ensures ShowsDecisions(p.history, c.decisions)
    ensures p.observations == c.observations && p.remainingSteps == c.remainingSteps
  {
    names := ShownNames(registry);
    p := PlannerPayloadOf(registry, c);
    forall i | 0 <= i < |names| ensures names[i] in registry.tools && p.tools[i] == registry.tools[names[i]] {
      ShownAt(registry, i);
    }
  }

  /** The same for the finalizer, whose instruction fits the format the answer must have. */
  lemma FinalizerPromptIs(task: TaskContract, decisions: seq<JointDecision>, observations: seq<ExecutionResult>)
    returns (p: FinalizerPayload)
    ensures FinalizerPrompt(task, decisions, observations) == FinalizerText(p)
    ensures ShowsTask(p.task, task) && ShowsDecisions(p.history, decisions)
    ensures |p.observations| == |observations|
    ensures forall i :: 0 <= i < |observations| ==>
      p.observations[i].operator == observations[i].operator && p.observations[i].output == observations[i].output
    ensures p.instruction.OneOf? <==> task.outputContract.format == Choice
    ensures p.instruction.ShortestSpan? <==> task.outputContract.format == ShortText
    ensures p.instruction.OneOf? ==> p.instruction.choices == task.outputContract.choices
    ensures p.instruction.MatchingSchema? ==> p.instruction.schema == task.outputContract.schema
  {
    p := FinalizerPayloadOf(task, decisions, observations);
  }

  // ---------- What a completion means ----------

  /**
   The planner decides iff the backend completes its prompt with a proposal. An action must name a registered
   operator and satisfy its schemas; it becomes that action, word for word, with its placement left to AUTO.
   */
  lemma DecisionMeans(backend: Backend, registry: Registry, context: BlindPlannerContext, decision: JointDecision)
    ensures var completion := backend(PlannerPrompt(registry, context));
            && (Decide(backend, registry, context) == Ok(decision) <==>
              && completion.Ok?
              && match decision
                 case FinishDecision(reason) => ParseProposal(completion.value) == Some(FinishProposal(reason))
                 case JointAction(semantic, physical) =>
                   && ParseProposal(completion.value) ==
                      Some(ActionProposal(semantic.operator, semantic.inputs, semantic.arguments))
                   && semantic.operator in registry.tools && registry.admits(semantic)
                   && physical == PhysicalDecision(Auto, None, None))
            && (completion.Err? ==> Decide(backend, registry, context) == Err(completion.error))
            && (completion.Ok? && Decide(backend, registry, context).Err? ==>
              Decide(backend, registry, context).error == Failure("planner_decision_invalid"))
  {
  }

  // ---------- Blind collaborators ----------

  /** Everything around the language model, over whatever world it acts on. */
  datatype Surroundings<!W> = Surroundings(
    observe: W -> (W, Result<InfrastructureState, Failure>),
    execute: (W, JointDecision, InfrastructureState) -> (W, Result<ExecutionResult, Failure>),
    evaluate: (W, TaskContract, string) -> (W, Result<EvaluationResult, Failure>))

  /** A world together with every prompt sent to the backend so far. */
  datatype Conversation<!W> = Conversation(world: W, prompts: seq<string>)

  function BlindCollaborators<W>(backend: Backend, registry: Registry, around: Surroundings<W>):
    Collaborators<Conversation<W>>
  {
    Collaborators(
      (w: Conversation<W>) => var (world, r) := around.observe(w.world); (w.(world := world), r),
      (w: Conversation<W>, context: BlindPlannerContext) =>
        (w.(prompts := w.prompts + [PlannerPrompt(registry, context)]), Decide(backend, registry, context)),
      (w: Conversation<W>, action: JointDecision, snapshot: InfrastructureState) =>
        var (world, r) := around.execute(w.world, action, snapshot); (w.(world := world), r),
      (w: Conversation<W>, task: TaskContract, decisions: seq<JointDecision>, observations: seq<ExecutionResult>) =>
        var prompt := FinalizerPrompt(task, decisions, observations);
        (w.(prompts := w.prompts + [prompt]), backend(prompt)),
      (w: Conversation<W>, task: TaskContract, answer: string) =>
        var (world, r) := around.evaluate(w.world, task, answer); (w.(world := world), r))
  }
}

/** Nothing physical reaches the planner: a property of two whole runs. */
module Blindness {
  import opened Basics
  import opened CoreState
  import opened Protocol
  import opened PlanningTypes
  import opened PlanningGraph
  import opened PlanningProperties
  import opened PlanningLoop
  import opened BlindPlanning

  /** Two states no language model could tell apart. */
  predicate Indistinguishable(s: PlanningState, s': PlanningState) {
    && LogicalTaskOf(s.task) == LogicalTaskOf(s'.task)
    && s.remainingSteps == s'.remainingSteps
    && s.decisions == s'.decisions
    && s.pendingDecision == s'.pendingDecision
    && Logical(s.observations) == Logical(s'.observations)
    && s.finalAnswer == s'.finalAnswer
  }

  /** Where both have an observation, they have the same one. */
  predicate Agree(a: seq<PlannerObservation>, b: seq<PlannerObservation>) {
    forall i :: 0 <= i < |a| && i < |b| ==> a[i] == b[i]
  }

  lemma SameInstruction(s: PlanningState, s': PlanningState)
    requires Indistinguishable(s, s')
    ensures FinalizerPrompt(s.task, s.decisions, s.observations)
            == FinalizerPrompt(s'.task, s'.decisions, s'.observations)
    ensures forall registry :: PlannerPrompt(registry, PlannerContext(s)) == PlannerPrompt(registry, PlannerContext(s'))
  {
    assert s.task.outputContract == LogicalTaskOf(s.task).outputContract == s'.task.outputContract;
  }

  lemma AgreeNext(
    o: ExecutionResult, o': ExecutionResult, rest: seq<ExecutionResult>, rest': seq<ExecutionResult>)
    requires Agree(Logical([o] + rest), Logical([o'] + rest'))
    ensures FromExecution(o) == FromExecution(o') && Agree(Logical(rest), Logical(rest'))
  {
    var all, all' := Logical([o] + rest), Logical([o'] + rest');
    assert all[0] == all'[0];
    forall i | 0 <= i < |rest| && i < |rest'| ensures Logical(rest)[i] == Logical(rest')[i] {
      assert all[i + 1] == all'[i + 1];
    }
  }

  lemma SameObservation(s: PlanningState, s': PlanningState, o: ExecutionResult, o': ExecutionResult)
    requires Logical(s.observations) == Logical(s'.observations) && FromExecution(o) == FromExecution(o')
    ensures Logical(s.observations + [o]) == Logical(s'.observations + [o'])
  {
    assert Logical(s.observations + [o]) == Logical(s.observations) + [FromExecution(o)];
    assert Logical(s'.observations + [o']) == Logical(s'.observations) + [FromExecution(o')];
  }

  /** One node of two runs in step: same prompts, and indistinguishable again if both went well. */
  lemma NodeBlind<V, W>(
    backend: Backend, registry: Registry, around: Surroundings<V>, around': Surroundings<W>, node: Node,
    w: Conversation<V>, w': Conversation<W>, s: PlanningState, s': PlanningState)
    requires Indistinguishable(s, s') && w.prompts == w'.prompts && !node.Execute?
    requires node.Plan? ==> s.remainingSteps > 0
    ensures var step := RunNode(BlindCollaborators(backend, registry, around), node, w, s);
            var step' := RunNode(BlindCollaborators(backend, registry, around'), node, w', s');
            && step.world.prompts == step'.world.prompts
            && (step.result.Ok? && step'.result.Ok? ==> Indistinguishable(step.result.value, step'.result.value))
  {
    if node.Plan? {
      PlanBlind(backend, registry, around, around', w, w', s, s');
    } else if node.Finalize? {
      SameInstruction(s, s');
    }
  }

  lemma PlanBlind<V, W>(
    backend: Backend, registry: Registry, around: Surroundings<V>, around': Surroundings<W>,
    w: Conversation<V>, w': Conversation<W>, s: PlanningState, s': PlanningState)
    requires Indistinguishable(s, s') && w.prompts == w'.prompts && s.remainingSteps > 0
    ensures var step := PlanNode(BlindCollaborators(backend, registry, around), w, s);
            var step' := PlanNode(BlindCollaborators(backend, registry, around'), w', s');
            && step.world.prompts == step'.world.prompts
            && (step.result.Ok? && step'.result.Ok? ==> Indistinguishable(step.result.value, step'.result.value))
  {
    SameInstruction(s, s');
    assert PlannerPrompt(registry, PlannerContext(s)) == PlannerPrompt(registry, PlannerContext(s'));
  }

  lemma ExecuteBlind<V, W>(
    backend: Backend, registry: Registry, around: Surroundings<V>, around': Surroundings<W>,
    w: Conversation<V>, w': Conversation<W>, s: PlanningState, s': PlanningState,
    rest: seq<ExecutionResult>, rest': seq<ExecutionResult>)
    requires Indistinguishable(s, s') && w.prompts == w'.prompts
    requires ExecuteNode(BlindCollaborators(backend, registry, around), w, s).result.Ok?
    requires ExecuteNode(BlindCollaborators(backend, registry, around'), w', s').result.Ok?
    requires Agree(
      Logical(Observed(ExecuteNode(BlindCollaborators(backend, registry, around), w, s).payloads) + rest),
      Logical(Observed(ExecuteNode(BlindCollaborators(backend, registry, around'), w', s').payloads) + rest'))
    ensures var step := ExecuteNode(BlindCollaborators(backend, registry, around), w, s);
            var step' := ExecuteNode(BlindCollaborators(backend, registry, around'), w', s');
            && Indistinguishable(step.result.value, step'.result.value) && step.world.prompts == step'.world.prompts
            && Agree(Logical(rest), Logical(rest'))
  {
    var c, c' := BlindCollaborators(backend, registry, around), BlindCollaborators(backend, registry, around');
    ExecuteObserves(c, w, s);
    ExecuteObserves(c', w', s');
    var seen, seen' := Observed(ExecuteNode(c, w, s).payloads), Observed(ExecuteNode(c', w', s').payloads);
    assert seen == [seen[0]] && seen' == [seen'[0]];
    AgreeNext(seen[0], seen'[0], rest, rest');
    SameObservation(s, s', seen[0], seen'[0]);
  }

  lemma {:induction false} PromptsGrow<W>(
    backend: Backend, registry: Registry, around: Surroundings<W>, node: Node, w: Conversation<W>, s: PlanningState)
    requires node.Plan? ==> s.remainingSteps > 0
    ensures var c := BlindCollaborators(backend, registry, around);
            && w.prompts <= RunNode(c, node, w, s).world.prompts
            && RunNode(c, node, w, s).world.prompts <= Drive(c, node, w, s).world.prompts
    decreases Rank(node, s)
  {
    var c := BlindCollaborators(backend, registry, around);
    var step := RunNode(c, node, w, s);
    DriveUnfolds(c, node, w, s);
    if step.result.Ok? && Successor(node, step.result.value).Some? {
      RankDecreases(c, node, w, s);
      PromptsGrow(backend, registry, around, Successor(node, step.result.value).value, step.world, step.result.value);
    }
  }

  /** A drive through nodes in `visited` that sent `prompts` is a beginning of the other one. */
  predicate Begins(visited: seq<Node>, prompts: seq<string>, visited': seq<Node>, prompts': seq<string>) {
    |visited| <= |visited'| ==> visited <= visited' && prompts <= prompts'
  }

  /** Whichever of the two stops first is a beginning of the other; if both complete, they are the same to the model. */
  ghost predicate BlindPair<V, W>(drive: Outcome<Conversation<V>>, drive': Outcome<Conversation<W>>) {
    && Begins(drive.visited, drive.world.prompts, drive'.visited, drive'.world.prompts)
    && Begins(drive'.visited, drive'.world.prompts, drive.visited, drive.world.prompts)
    && (drive.result.Ok? && drive'.result.Ok? ==>
      drive.visited == drive'.visited && Indistinguishable(drive.result.value, drive'.result.value))
  }

  lemma BlindLater<V, W>(
    node: Node, rest: Outcome<Conversation<V>>, rest': Outcome<Conversation<W>>,
    payloads: seq<Payload>, payloads': seq<Payload>)
    requires BlindPair(rest, rest')
    ensures BlindPair(
      Outcome(rest.world, payloads, [node] + rest.visited, rest.result),
      Outcome(rest'.world, payloads', [node] + rest'.visited, rest'.result))
  {
  }

  /** Does a drive stop with this node? */
  predicate Stops(node: Node, result: Result<PlanningState, Failure>) {
    result.Err? || Successor(node, result.value).None?
  }

  /** A drive that stops with this node, and one that went through it too. */
  lemma StopBlind<V, W>(
    backend: Backend, registry: Registry, around: Surroundings<V>, around': Surroundings<W>, node: Node,
    w: Conversation<V>, w': Conversation<W>, s: PlanningState, s': PlanningState)
    requires node.Plan? ==> s.remainingSteps > 0 && s'.remainingSteps > 0
    requires var step := RunNode(BlindCollaborators(backend, registry, around), node, w, s);
             var step' := RunNode(BlindCollaborators(backend, registry, around'), node, w', s');
             && step.world.prompts == step'.world.prompts
             && (Stops(node, step.result) || Stops(node, step'.result))
             && (step.result.Ok? && step'.result.Ok? ==> Indistinguishable(step.result.value, step'.result.value))
    ensures BlindPair(
      Drive(BlindCollaborators(backend, registry, around), node, w, s),
      Drive(BlindCollaborators(backend, registry, around'), node, w', s'))
  {
    DriveUnfolds(BlindCollaborators(backend, registry, around), node, w, s);
    DriveUnfolds(BlindCollaborators(backend, registry, around'), node, w', s');
    PromptsGrow(backend, registry, around, node, w, s);
    PromptsGrow(backend, registry, around', node, w', s');
  }

  lemma {:induction false} DriveBlind<V, W>(
    backend: Backend, registry: Registry, around: Surroundings<V>, around': Surroundings<W>, node: Node,
    w: Conversation<V>, w': Conversation<W>, s: PlanningState, s': PlanningState)
    requires Indistinguishable(s, s') && w.prompts == w'.prompts
    requires node.Plan? ==> s.remainingSteps > 0
    requires Agree(
      Logical(Observed(Drive(BlindCollaborators(backend, registry, around), node, w, s).payloads)),
      Logical(Observed(Drive(BlindCollaborators(backend, registry, around'), node, w', s').payloads)))
    ensures BlindPair(
      Drive(BlindCollaborators(backend, registry, around), node, w, s),
      Drive(BlindCollaborators(backend, registry, around'), node, w', s'))
    decreases Rank(node, s)
  {
    var c, c' := BlindCollaborators(backend, registry, around), BlindCollaborators(backend, registry, around');
    var step, step' := RunNode(c, node, w, s), RunNode(c', node, w', s');
    if step.result.Ok? && step'.result.Ok? && Successor(node, step.result.value).Some? {
      StepBlind(backend, registry, around, around', node, w, w', s, s');
      var next := Successor(node, step.result.value).value;
      RankDecreases(c, node, w, s);
      RankDecreases(c', node, w', s');
      DriveBlind(
        backend, registry, around, around', next, step.world, step'.world, step.result.value, step'.result.value);
      DriveUnfolds(c, node, w, s);
      DriveUnfolds(c', node, w', s');
      BlindLater(
        node, Drive(c, next, step.world, step.result.value), Drive(c', next, step'.world, step'.result.value),
        Drive(c, node, w, s).payloads, Drive(c', node, w', s').payloads);
    } else {
      EndBlind(backend, registry, around, around', node, w, w', s, s');
      StopBlind(backend, registry, around, around', node, w, w', s, s');
    }
  }

  /** Both go on: to the same node, indistinguishable, and still to agree on what they will observe. */
  lemma StepBlind<V, W>(
    backend: Backend, registry: Registry, around: Surroundings<V>, around': Surroundings<W>, node: Node,
    w: Conversation<V>, w': Conversation<W>, s: PlanningState, s': PlanningState)
    requires Indistinguishable(s, s') && w.prompts == w'.prompts
    requires node.Plan? ==> s.remainingSteps > 0
    requires RunNode(BlindCollaborators(backend, registry, around), node, w, s).result.Ok?
    requires RunNode(BlindCollaborators(backend, registry, around'), node, w', s').result.Ok?
    requires Successor(node, RunNode(BlindCollaborators(backend, registry, around), node, w, s).result.value).Some?
    requires Agree(
      Logical(Observed(Drive(BlindCollaborators(backend, registry, around), node, w, s).payloads)),
      Logical(Observed(Drive(BlindCollaborators(backend, registry, around'), node, w', s').payloads)))
    ensures var c, c' := BlindCollaborators(backend, registry, around), BlindCollaborators(backend, registry, around');
            var step, step' := RunNode(c, node, w, s), RunNode(c', node, w', s');
            var next := Successor(node, step.result.value).value;
            && Indistinguishable(step.result.value, step'.result.value) && step.world.prompts == step'.world.prompts
            && Successor(node, step'.result.value) == Some(next)
            && (next.Plan? ==> step.result.value.remainingSteps > 0)
            && Agree(
                 Logical(Observed(Drive(c, next, step.world, step.result.value).payloads)),
                 Logical(Observed(Drive(c', next, step'.world, step'.result.value).payloads)))
  {
    var c, c' := BlindCollaborators(backend, registry, around), BlindCollaborators(backend, registry, around');
    var step, step' := RunNode(c, node, w, s), RunNode(c', node, w', s');
    assert Successor(node, step'.result.value) == Successor(node, step.result.value) by {
      if !node.Execute? {
        NodeBlind(backend, registry, around, around', node, w, w', s, s');
      }
    }
    RankDecreases(c, node, w, s);
    if node.Execute? {
      DriveObserves(c, node, w, s);
      DriveObserves(c', node, w', s');
      ExecuteBlind(
        backend, registry, around, around', w, w', s, s',
        Observed(Drive(c, Observe, step.world, step.result.value).payloads),
        Observed(Drive(c', Observe, step'.world, step'.result.value).payloads));
    } else {
      NodeBlind(backend, registry, around, around', node, w, w', s, s');
      QuietDriveObserves(c, node, w, s);
      QuietDriveObserves(c', node, w', s');
    }
  }

  /** At least one stops: the prompts are the same so far, and so is what both got if both went well. */
  lemma EndBlind<V, W>(
    backend: Backend, registry: Registry, around: Surroundings<V>, around': Surroundings<W>, node: Node,
    w: Conversation<V>, w': Conversation<W>, s: PlanningState, s': PlanningState)
    requires Indistinguishable(s, s') && w.prompts == w'.prompts
    requires node.Plan? ==> s.remainingSteps > 0
    requires var step := RunNode(BlindCollaborators(backend, registry, around), node, w, s);
             var step' := RunNode(BlindCollaborators(backend, registry, around'), node, w', s');
             step.result.Err? || step'.result.Err? || Successor(node, step.result.value).None?
    ensures var step := RunNode(BlindCollaborators(backend, registry, around), node, w, s);
            var step' := RunNode(BlindCollaborators(backend, registry, around'), node, w', s');
            && step.world.prompts == step'.world.prompts
            && (Stops(node, step.result) || Stops(node, step'.result))
            && (step.result.Ok? && step'.result.Ok? ==> Indistinguishable(step.result.value, step'.result.value))
  {
    if !node.Execute? {
      NodeBlind(backend, registry, around, around', node, w, w', s, s');
    }
  }

  function BlindRun<W>(
    backend: Backend, registry: Registry, around: Surroundings<W>, world: W, runId: string, task: TaskContract,
    budget: nat, initialTransfers: seq<Transfer>): Run<Conversation<W>>
  {
    RunGraph(
      BlindCollaborators(backend, registry, around), Conversation(world, []), runId, task, budget, initialTransfers)
  }

  /**
   Two runs of one logical task with the same backend and operators, over any two worlds and however they
   end: whatever agents, deployments, placements, source references and transfers they had, if their
   executors never disagreed on a logical output then the one that stops first sent the first prompts of
   the other, in the same order; and two that complete sent the same prompts, made the same decisions, saw
   the same observations and gave the same answer.
   */
  lemma RunsAreBlind<V(!new), W(!new)>(
    backend: Backend, registry: Registry, around: Surroundings<V>, around': Surroundings<W>, world: V, world': W,
    runId: string, runId': string, task: TaskContract, task': TaskContract, budget: nat,
    initial: seq<Transfer>, initial': seq<Transfer>)
    requires LogicalTaskOf(task) == LogicalTaskOf(task')
    requires Agree(
      Logical(ObservedBefore(BlindRun(backend, registry, around, world, runId, task, budget, initial))),
      Logical(ObservedBefore(BlindRun(backend, registry, around', world', runId', task', budget, initial'))))
    ensures var run := BlindRun(backend, registry, around, world, runId, task, budget, initial);
            var run' := BlindRun(backend, registry, around', world', runId', task', budget, initial');
            && Begins(run.visited, run.world.prompts, run'.visited, run'.world.prompts)
            && Begins(run'.visited, run'.world.prompts, run.visited, run.world.prompts)
            && (run.result.Ok? && run'.result.Ok? ==>
              && run.world.prompts == run'.world.prompts && run.visited == run'.visited
              && run.result.value.decisions == run'.result.value.decisions
              && Logical(run.result.value.observations) == Logical(run'.result.value.observations)
              && run.result.value.finalAnswer == run'.result.value.finalAnswer)
  {
    var c, c' := BlindCollaborators(backend, registry, around), BlindCollaborators(backend, registry, around');
    RunObserves(c, Conversation(world, []), runId, task, budget, initial);
    RunObserves(c', Conversation(world', []), runId', task', budget, initial');
    DriveBlind(
      backend, registry, around, around', Observe, Conversation(world, []), Conversation(world', []),
      InitialState(runId, task, budget, initial), InitialState(runId', task', budget, initial'));
  }

  // ---------- Recording the prompts changes nothing ----------

  /** The same planner and finalizer around the same world, with nobody listening. */
  function Unrecorded<W>(backend: Backend, registry: Registry, around: Surroundings<W>): Collaborators<W> {
    Collaborators(
      around.observe,
      (w: W, context: BlindPlannerContext) => (w, Decide(backend, registry, context)),
      around.execute,
      (w: W, task: TaskContract, decisions: seq<JointDecision>, observations: seq<ExecutionResult>) =>
        (w, backend(FinalizerPrompt(task, decisions, observations))),
      around.evaluate)
  }

  lemma NodeUnrecorded<W>(
    backend: Backend, registry: Registry, around: Surroundings<W>, node: Node, w: Conversation<W>, s: PlanningState)
    requires node.Plan? ==> s.remainingSteps > 0
    ensures var step := RunNode(BlindCollaborators(backend, registry, around), node, w, s);
            RunNode(Unrecorded(backend, registry, around), node, w.world, s) ==
            NodeOutcome(step.world.world, step.payloads, step.result)
  {
  }

  lemma {:induction false} DriveUnrecorded<W>(
    backend: Backend, registry: Registry, around: Surroundings<W>, node: Node, w: Conversation<W>, s: PlanningState)
    requires node.Plan? ==> s.remainingSteps > 0
    ensures var drive := Drive(BlindCollaborators(backend, registry, around), node, w, s);
            Drive(Unrecorded(backend, registry, around), node, w.world, s) ==
            Outcome(drive.world.world, drive.payloads, drive.visited, drive.result)
    decreases Rank(node, s)
  {
    var c, c' := BlindCollaborators(backend, registry, around), Unrecorded(backend, registry, around);
    NodeUnrecorded(backend, registry, around, node, w, s);
    DriveUnfolds(c, node, w, s);
    DriveUnfolds(c', node, w.world, s);
    var step := RunNode(c, node, w, s);
    if step.result.Ok? && Successor(node, step.result.value).Some? {
      RankDecreases(c, node, w, s);
      DriveUnrecorded(
        backend, registry, around, Successor(node, step.result.value).value, step.world, step.result.value);
    }
  }

  /** A run whose prompts are recorded is the run it would be without: same events, nodes, world and result. */
  lemma RunUnrecorded<W>(
    backend: Backend, registry: Registry, around: Surroundings<W>, world: W, runId: string, task: TaskContract,
    budget: nat, initial: seq<Transfer>)
    ensures var run := RunGraph(
              BlindCollaborators(backend, registry, around), Conversation(world, []), runId, task, budget, initial);
            RunGraph(Unrecorded(backend, registry, around), world, runId, task, budget, initial) ==
            Run(run.world.world, run.events, run.visited, run.result)
  {
    DriveUnrecorded(
      backend, registry, around, Observe, Conversation(world, []), InitialState(runId, task, budget, initial));
  }

  ghost predicate AllAuto(registry: Registry, decisions: seq<JointDecision>) {
    forall i :: 0 <= i < |decisions| && decisions[i].JointAction? ==>
      && decisions[i].physical == AUTO
      && decisions[i].semantic.operator in registry.tools && registry.admits(decisions[i].semantic)
  }

  lemma DecideAuto(backend: Backend, registry: Registry, context: BlindPlannerContext)
    requires Decide(backend, registry, context).Ok?
    ensures AllAuto(registry, [Decide(backend, registry, context).value])
  {
  }

  lemma AutoConcat(registry: Registry, a: seq<JointDecision>, b: seq<JointDecision>)
    requires AllAuto(registry, a) && AllAuto(registry, b)
    ensures AllAuto(registry, a + b)
  {
  }

  lemma NodeAuto<W>(
    backend: Backend, registry: Registry, around: Surroundings<W>, node: Node, w: Conversation<W>, s: PlanningState)
    requires (node.Plan? ==> s.remainingSteps > 0) && AllAuto(registry, s.decisions)
    requires RunNode(BlindCollaborators(backend, registry, around), node, w, s).result.Ok?
    ensures AllAuto(registry, RunNode(BlindCollaborators(backend, registry, around), node, w, s).result.value.decisions)
  {
    if node.Plan? {
      DecideAuto(backend, registry, PlannerContext(s));
      AutoConcat(registry, s.decisions, [Decide(backend, registry, PlannerContext(s)).value]);
    }
  }

  lemma {:induction false} DriveAuto<W>(
    backend: Backend, registry: Registry, around: Surroundings<W>, node: Node, w: Conversation<W>, s: PlanningState)
    requires node.Plan? ==> s.remainingSteps > 0
    requires AllAuto(registry, s.decisions)
    requires Drive(BlindCollaborators(backend, registry, around), node, w, s).result.Ok?
    ensures AllAuto(registry, Drive(BlindCollaborators(backend, registry, around), node, w, s).result.value.decisions)
    decreases Rank(node, s)
  {
    var c := BlindCollaborators(backend, registry, around);
    var step := RunNode(c, node, w, s);
    DriveUnfolds(c, node, w, s);
    RankDecreases(c, node, w, s);
    NodeAuto(backend, registry, around, node, w, s);
    var next := Successor(node, step.result.value);
    if next.Some? {
      DriveAuto(backend, registry, around, next.value, step.world, step.result.value);
    }
  }

  /** Whatever the model writes, every action of a blind run is a registered operator placed by AUTO. */
  lemma DecisionsAreAuto<W>(
    backend: Backend, registry: Registry, around: Surroundings<W>, world: W,
    runId: string, task: TaskContract, budget: nat, initial: seq<Transfer>)
    requires RunGraph(
               BlindCollaborators(backend, registry, around), Conversation(world, []),
               runId, task, budget, initial).result.Ok?
    ensures AllAuto(registry, RunGraph(
              BlindCollaborators(backend, registry, around), Conversation(world, []),
              runId, task, budget, initial).result.value.decisions)
  {
    DriveAuto(
      backend, registry, around, Observe, Conversation(world, []), InitialState(runId, task, budget, initial));
  }

  // ---------- Every prompt of a run ----------

  /** What the planner is asked for decision `i`. */
  function QuestionAt(registry: Registry, task: TaskContract, budget: nat, r: Reached, i: nat): string {
    PlannerPrompt(registry, BlindPlannerContext(
      task, if i <= |r.decisions| then r.decisions[..i] else [],
      Logical(if i <= |r.observations| then r.observations[..i] else []), if i <= budget then budget - i else 0))
  }

  /** The prompts from decision `n` on: one for each decision, then the finalizer's. */
  function PromptsFrom(registry: Registry, task: TaskContract, budget: nat, r: Reached, n: nat): seq<string>
    decreases |r.decisions| - n
  {
    if n >= |r.decisions| then [FinalizerPrompt(task, r.decisions, r.observations)]
    else [QuestionAt(registry, task, budget, r, n)] + PromptsFrom(registry, task, budget, r, n + 1)
  }

  /**
   From `before` on the prompts up to `sent` were those for decision `n` and later ones, whose completions the
   decisions are, and then the finalizer's, whose completion is the answer.
   */
  ghost predicate PromptsMean(
    backend: Backend, registry: Registry, task: TaskContract, budget: nat, before: seq<string>, sent: seq<string>,
    r: Reached, n: nat)
  {
    && sent == before + PromptsFrom(registry, task, budget, r, n)
    && (forall i: nat :: n <= i < |r.decisions| ==>
      var completion := backend(QuestionAt(registry, task, budget, r, i));
      completion.Ok? && Decision(registry, completion.value) == Ok(r.decisions[i]))
    && backend(FinalizerPrompt(task, r.decisions, r.observations)) == Ok(r.answer)
  }

  lemma PromptsMeanLater(
    backend: Backend, registry: Registry, task: TaskContract, budget: nat, before: seq<string>, sent: seq<string>,
    r: Reached, n: nat)
    requires n < |r.decisions|
    requires var question := QuestionAt(registry, task, budget, r, n);
             && PromptsMean(backend, registry, task, budget, before + [question], sent, r, n + 1)
             && backend(question).Ok? && Decision(registry, backend(question).value) == Ok(r.decisions[n])
    ensures PromptsMean(backend, registry, task, budget, before, sent, r, n)
  {
    ConcatAssociates(
      before, [QuestionAt(registry, task, budget, r, n)], PromptsFrom(registry, task, budget, r, n + 1));
  }

  lemma ConclusionPrompts<W>(
    backend: Backend, registry: Registry, around: Surroundings<W>, w: Conversation<W>, task: TaskContract,
    budget: nat, decisions: seq<JointDecision>, observations: seq<ExecutionResult>)
    requires Conclusion(BlindCollaborators(backend, registry, around), w, task, decisions, observations).1.Ok?
    ensures var (end, r) := Conclusion(BlindCollaborators(backend, registry, around), w, task, decisions, observations);
            && r.value.decisions == decisions && r.value.observations == observations
            && PromptsMean(backend, registry, task, budget, w.prompts, end.prompts, r.value, |decisions|)
  {
  }

  lemma QuestionIs(
    registry: Registry, task: TaskContract, budget: nat, r: Reached, decisions: seq<JointDecision>,
    observations: seq<ExecutionResult>)
    requires |decisions| == |observations| < budget && |decisions| < |r.decisions|
    requires decisions <= r.decisions && observations <= r.observations
    ensures QuestionAt(registry, task, budget, r, |decisions|) ==
            PlannerPrompt(
              registry, BlindPlannerContext(task, decisions, Logical(observations), budget - |decisions|))
  {
    assert r.decisions[..|decisions|] == decisions && r.observations[..|decisions|] == observations;
  }

  lemma {:induction false} LoopPrompts<W(!new)>(
    backend: Backend, registry: Registry, around: Surroundings<W>, w: Conversation<W>, task: TaskContract,
    budget: nat, left: nat, decisions: seq<JointDecision>, observations: seq<ExecutionResult>)
    requires |decisions| == |observations| && |decisions| + left == budget
    requires Loop(BlindCollaborators(backend, registry, around), w, task, left, decisions, observations).1.Ok?
    ensures var (end, r) :=
              Loop(BlindCollaborators(backend, registry, around), w, task, left, decisions, observations);
            && decisions <= r.value.decisions && observations <= r.value.observations
            && PromptsMean(backend, registry, task, budget, w.prompts, end.prompts, r.value, |decisions|)
    decreases left, 2
  {
    var c := BlindCollaborators(backend, registry, around);
    var (seen, snapshot) := c.observe(w);
    assert seen.prompts == w.prompts;
    if left == 0 {
      ConclusionPrompts(backend, registry, around, seen, task, budget, decisions, observations);
    } else {
      DecidePrompts(backend, registry, around, seen, task, budget, left, decisions, observations, snapshot.value);
    }
  }

  lemma {:induction false} DecidePrompts<W(!new)>(
    backend: Backend, registry: Registry, around: Surroundings<W>, w: Conversation<W>, task: TaskContract,
    budget: nat, left: nat, decisions: seq<JointDecision>, observations: seq<ExecutionResult>,
    snapshot: InfrastructureState)
    requires |decisions| == |observations| && |decisions| + left == budget && left > 0
    requires DecideAndAct(
      BlindCollaborators(backend, registry, around), w, task, left, decisions, observations, snapshot).1.Ok?
    ensures var (end, r) := DecideAndAct(
              BlindCollaborators(backend, registry, around), w, task, left, decisions, observations, snapshot);
            && decisions <= r.value.decisions && observations <= r.value.observations
            && PromptsMean(backend, registry, task, budget, w.prompts, end.prompts, r.value, |decisions|)
    decreases left, 1
  {
    var context := BlindPlannerContext(task, decisions, Logical(observations), left);
    var (end, r) := DecideAndAct(
      BlindCollaborators(backend, registry, around), w, task, left, decisions, observations, snapshot);
    AfterDecision(backend, registry, around, w, task, budget, left, decisions, observations, snapshot);
    QuestionIs(registry, task, budget, r.value, decisions, observations);
    var completion := backend(PlannerPrompt(registry, context));
    assert Decide(backend, registry, context) == Decision(registry, completion.value);
    PromptsMeanLater(backend, registry, task, budget, w.prompts, end.prompts, r.value, |decisions|);
  }

  lemma {:induction false} AfterDecision<W(!new)>(
    backend: Backend, registry: Registry, around: Surroundings<W>, w: Conversation<W>, task: TaskContract,
    budget: nat, left: nat, decisions: seq<JointDecision>, observations: seq<ExecutionResult>,
    snapshot: InfrastructureState)
    requires |decisions| == |observations| && |decisions| + left == budget && left > 0
    requires DecideAndAct(
      BlindCollaborators(backend, registry, around), w, task, left, decisions, observations, snapshot).1.Ok?
    ensures var (end, r) := DecideAndAct(
              BlindCollaborators(backend, registry, around), w, task, left, decisions, observations, snapshot);
            var context := BlindPlannerContext(task, decisions, Logical(observations), left);
            var decided := Decide(backend, registry, context);
            && decided.Ok? && decisions + [decided.value] <= r.value.decisions && observations <= r.value.observations
            && PromptsMean(
                 backend, registry, task, budget, w.prompts + [PlannerPrompt(registry, context)], end.prompts,
                 r.value, |decisions| + 1)
    decreases left, 0
  {
    var c := BlindCollaborators(backend, registry, around);
    var (thought, decided) := c.decide(w, BlindPlannerContext(task, decisions, Logical(observations), left));
    var all := decisions + [decided.value];
    if decided.value.FinishDecision? {
      ConclusionPrompts(backend, registry, around, thought, task, budget, all, observations);
    } else {
      var (acted, done) := c.execute(thought, decided.value, snapshot);
      LoopPrompts(backend, registry, around, acted, task, budget, left - 1, all, observations + [done.value]);
    }
  }

  /**
   The prompts of a completed run, one by one: the planner's for each decision, over everything decided and
   observed before it, and then the finalizer's over everything. The decisions are the completions of the
   former, and the answer is the completion of the latter.
   */
  lemma PromptsOfRun<W(!new)>(
    backend: Backend, registry: Registry, around: Surroundings<W>, world: W, runId: string, task: TaskContract,
    budget: nat, initialTransfers: seq<Transfer>)
    requires BlindRun(backend, registry, around, world, runId, task, budget, initialTransfers).result.Ok?
    ensures var run := BlindRun(backend, registry, around, world, runId, task, budget, initialTransfers);
            var result := run.result.value;
            var r := Reached(result.decisions, result.observations, result.finalAnswer, result.evaluation);
            PromptsMean(backend, registry, task, budget, [], run.world.prompts, r, 0)
  {
    GraphIsLoop(
      BlindCollaborators(backend, registry, around), Conversation(world, []), runId, task, budget, initialTransfers);
    LoopPrompts(backend, registry, around, Conversation(world, []), task, budget, budget, [], []);
  }
}
