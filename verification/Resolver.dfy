/** Deterministic placement: which agent, and for model operators which deployment, runs an action. */
module Resolver {
  import opened Basics
  import opened Sorting
  import opened CoreState
  import Utf8

  datatype ErrorCode = InfeasibleBinding | MissingInput | UnsupportedModality | ContextLimitExceeded

  datatype Binding = Binding(agentId: Id, deploymentId: Option<Id>)

  type ArtifactIndex = map<Id, ArtifactRuntimeState>

  function IndexArtifacts(state: InfrastructureState): ArtifactIndex {
    IndexBy(ArtifactKey, state.artifacts)
  }

  function IndexAgents(environment: EnvironmentSpec): map<Id, AgentSpec> {
    IndexBy(AgentKey, environment.agents)
  }

  function IndexDeployments(environment: EnvironmentSpec): map<Id, DeploymentSpec> {
    IndexBy(DeploymentKey, environment.deployments)
  }

  predicate InputsKnown(inputs: seq<Id>, index: ArtifactIndex) {
    forall id :: id in inputs ==> id in index
  }

  predicate Holds(agentId: Id, artifactId: Id, index: ArtifactIndex) {
    artifactId in index && agentId in index[artifactId].locations
  }

  predicate HoldsAll(agentId: Id, inputs: seq<Id>, index: ArtifactIndex) {
    forall id :: id in inputs ==> Holds(agentId, id, index)
  }

  /** `sum(agent_id not in artifact_locations[item] for item in inputs)`, repeated inputs included. */
  function TransferCost(agentId: Id, inputs: seq<Id>, index: ArtifactIndex): nat {
    if inputs == [] then 0
    else (if Holds(agentId, inputs[0], index) then 0 else 1) + TransferCost(agentId, inputs[1..], index)
  }

  lemma {:induction false} FreeIffLocal(agentId: Id, inputs: seq<Id>, index: ArtifactIndex)
    ensures TransferCost(agentId, inputs, index) == 0 <==> HoldsAll(agentId, inputs, index)
  {
    if inputs != [] {
      FreeIffLocal(agentId, inputs[1..], index);
      assert inputs == [inputs[0]] + inputs[1..];
    }
  }

  // ---------- Ranking ----------

  function Before(cost: Id -> nat): (Id, Id) -> bool {
    (a, b) => cost(a) < cost(b) || (cost(a) == cost(b) && LexLeq(a, b))
  }

  lemma BeforeIsTotalPreorder(cost: Id -> nat)
    ensures TotalPreorder(Before(cost))
  {
    LexIsTotalPreorder();
  }

  /** `sorted(ids, key=lambda id: (cost(id), id))[0]`. */
  function Cheapest(ids: set<Id>, cost: Id -> nat): (best: Id)
    requires ids != {}
    ensures best in ids
    ensures forall other :: other in ids ==> Before(cost)(best, other)
  {
    BeforeIsTotalPreorder(cost);
    SortSorted(Before(cost), Enumerate(ids));
    var ranked := Sort(Before(cost), Enumerate(ids));
    assert ranked[0] in multiset(Enumerate(ids));
    assert forall other :: other in ids ==> Before(cost)(ranked[0], other) by {
      forall other | other in ids ensures Before(cost)(ranked[0], other) {
        assert other in multiset(ranked);
        SortedHead(Before(cost), ranked, other);
        LexTotal(other, other);
      }
    }
    ranked[0]
  }

  // ---------- The controller's model admission test ----------

  predicate IsTextMediaType(mediaType: string) {
    "text/" <= mediaType || mediaType in {"application/json", "application/jsonl", "application/x-ndjson"}
  }

  predicate IsImageMediaType(mediaType: string) {
    "image/" <= mediaType
  }

  function ArtifactCharge(deployment: DeploymentSpec, artifact: ArtifactRuntimeState): Result<nat, ErrorCode> {
    if artifact.mediaType.None? || artifact.sizeBytes.None? then Err(InfeasibleBinding)
    else if IsImageMediaType(artifact.mediaType.value) then
      if "image" in deployment.modalities then Ok(deployment.imageTokenCost) else Err(UnsupportedModality)
    else if IsTextMediaType(artifact.mediaType.value) then Ok(artifact.sizeBytes.value)
    else Err(UnsupportedModality)
  }

  /** Charges in input order; the first artifact that cannot be charged decides the error. */
  function ChargeInputs(deployment: DeploymentSpec, inputs: seq<Id>, index: ArtifactIndex): Result<nat, ErrorCode>
    requires InputsKnown(inputs, index)
  {
    if inputs == [] then Ok(0)
    else
      var first :- ArtifactCharge(deployment, index[inputs[0]]);
      var rest :- ChargeInputs(deployment, inputs[1..], index);
      Ok(first + rest)
  }

  function EstimateRequest(
      deployment: DeploymentSpec, action: SemanticAction, index: ArtifactIndex): Result<nat, ErrorCode>
    requires InputsKnown(action.inputs, index)
  {
    var charged :- ChargeInputs(deployment, action.inputs, index);
    var estimated := |Utf8.Encode(PromptText(action))| + charged;
    if estimated + deployment.reservedOutputTokens > deployment.contextWindow then Err(ContextLimitExceeded)
    else Ok(estimated)
  }

  lemma {:induction false} ChargeConcat(deployment: DeploymentSpec, a: seq<Id>, b: seq<Id>, index: ArtifactIndex)
    requires InputsKnown(a, index) && InputsKnown(b, index) && ChargeInputs(deployment, a, index).Ok?
    ensures InputsKnown(a + b, index)
    ensures ChargeInputs(deployment, a + b, index) ==
            match ChargeInputs(deployment, b, index)
            case Ok(n) => Ok(ChargeInputs(deployment, a, index).value + n)
            case Err(e) => Err(e)
  {
    if a == [] {
      assert a + b == b;
    } else {
      assert (a + b)[1..] == a[1..] + b;
      ChargeConcat(deployment, a[1..], b, index);
    }
  }

  lemma ChargeNext(deployment: DeploymentSpec, inputs: seq<Id>, i: nat, index: ArtifactIndex)
    requires i < |inputs| && InputsKnown(inputs, index) && ChargeInputs(deployment, inputs[..i], index).Ok?
    ensures var charge := ArtifactCharge(deployment, index[inputs[i]]);
            if charge.Err? then ChargeInputs(deployment, inputs, index) == Err(charge.error)
            else ChargeInputs(deployment, inputs[..i + 1], index) ==
                 Ok(ChargeInputs(deployment, inputs[..i], index).value + charge.value)
  {
    assert inputs == inputs[..i] + inputs[i..];
    ChargeConcat(deployment, inputs[..i], inputs[i..], index);
    ChargeConcat(deployment, inputs[..i], [inputs[i]], index);
    assert inputs[..i + 1] == inputs[..i] + [inputs[i]];
  }

  method ModelRequestError(deployment: DeploymentSpec, action: SemanticAction, index: ArtifactIndex)
    returns (error: Option<ErrorCode>)
    requires InputsKnown(action.inputs, index)
    ensures error == AdmissionError(EstimateRequest(deployment, action, index))
  {
    var inputs := action.inputs;
    var estimated := |Utf8.Encode(PromptText(action))|;
    for i := 0 to |inputs|
      invariant ChargeInputs(deployment, inputs[..i], index).Ok?
      invariant estimated == |Utf8.Encode(PromptText(action))| + ChargeInputs(deployment, inputs[..i], index).value
    {
      ChargeNext(deployment, inputs, i, index);
      var artifact := index[inputs[i]];
      if artifact.mediaType.None? || artifact.sizeBytes.None? {
        return Some(InfeasibleBinding);
      }
      if IsImageMediaType(artifact.mediaType.value) {
        if "image" !in deployment.modalities {
          return Some(UnsupportedModality);
        }
        estimated := estimated + deployment.imageTokenCost;
      } else if IsTextMediaType(artifact.mediaType.value) {
        estimated := estimated + artifact.sizeBytes.value;
      } else {
        return Some(UnsupportedModality);
      }
    }
    assert inputs[..|inputs|] == inputs;
    if estimated + deployment.reservedOutputTokens > deployment.contextWindow {
      return Some(ContextLimitExceeded);
    }
    return None;
  }

  // ---------- Candidates ----------

  function FeasibleAgents(operator: OperatorSpec, environment: EnvironmentSpec, state: InfrastructureState): set<Id> {
    var specs := IndexAgents(environment);
    set a | a in state.agents && a.available && a.agentId in specs
            && operator.capabilityRequirements <= specs[a.agentId].capabilities :: a.agentId
  }

  predicate IsModelOperator(operator: OperatorSpec) {
    "model" in operator.capabilityRequirements
  }

  function LocalAgents(feasible: set<Id>, inputs: seq<Id>, index: ArtifactIndex): set<Id> {
    set agentId | agentId in feasible && HoldsAll(agentId, inputs, index)
  }

  function AvailableDeployments(state: InfrastructureState): set<Id> {
    set d | d in state.deployments && d.available :: d.deploymentId
  }

  predicate PolicyAdmits(
      decision: PhysicalDecision, deployment: DeploymentSpec, inputs: seq<Id>, index: ArtifactIndex) {
    match decision.policy
    case Auto => true
    case DataLocal => HoldsAll(deployment.agentId, inputs, index)
    case TargetAgent => decision.targetAgentId == Some(deployment.agentId)
    case TargetDeployment => decision.targetDeploymentId == Some(deployment.deploymentId)
  }

  function ModelCandidates(
    decision: PhysicalDecision, action: SemanticAction, operator: OperatorSpec,
    environment: EnvironmentSpec, state: InfrastructureState): (candidates: set<Id>)
    ensures forall id :: id in candidates ==> id in IndexDeployments(environment)
  {
    var deployments := IndexDeployments(environment);
    set id | id in deployments.Keys && id in AvailableDeployments(state)
             && deployments[id].agentId in FeasibleAgents(operator, environment, state)
             && PolicyAdmits(decision, deployments[id], action.inputs, IndexArtifacts(state))
  }

  function Passing(
    candidates: set<Id>, deployments: map<Id, DeploymentSpec>, action: SemanticAction, index: ArtifactIndex): set<Id>
    requires InputsKnown(action.inputs, index)
    requires forall id :: id in candidates ==> id in deployments
  {
    set id | id in candidates && EstimateRequest(deployments[id], action, index).Ok?
  }

  function DeploymentCost(deployments: map<Id, DeploymentSpec>, inputs: seq<Id>, index: ArtifactIndex): Id -> nat {
    id => if id in deployments then TransferCost(deployments[id].agentId, inputs, index) else 0
  }

  function AgentCost(inputs: seq<Id>, index: ArtifactIndex): Id -> nat {
    agentId => TransferCost(agentId, inputs, index)
  }

  function ResolveModel(
    decision: PhysicalDecision, action: SemanticAction, operator: OperatorSpec,
    environment: EnvironmentSpec, state: InfrastructureState): Result<Binding, ErrorCode>
    requires InputsKnown(action.inputs, IndexArtifacts(state))
  {
    var deployments, index := IndexDeployments(environment), IndexArtifacts(state);
    var candidates := ModelCandidates(decision, action, operator, environment, state);
    if candidates == {} then Err(InfeasibleBinding)
    else
      var passing := Passing(candidates, deployments, action, index);
      if passing == {} then
        var least := Least(candidates);
        assert least !in passing;
        Err(EstimateRequest(deployments[least], action, index).error)
      else
        var best := Cheapest(passing, DeploymentCost(deployments, action.inputs, index));
        Ok(Binding(deployments[best].agentId, Some(best)))
  }

  function ResolveAgent(
    decision: PhysicalDecision, action: SemanticAction, operator: OperatorSpec,
    environment: EnvironmentSpec, state: InfrastructureState): Result<Binding, ErrorCode>
  {
    var index := IndexArtifacts(state);
    var feasible := FeasibleAgents(operator, environment, state);
    match decision.policy
    case TargetAgent =>
      if decision.targetAgentId.Some? && decision.targetAgentId.value in feasible then
        Ok(Binding(decision.targetAgentId.value, None))
      else Err(InfeasibleBinding)
    case TargetDeployment => Err(InfeasibleBinding)
    case DataLocal =>
      var local := LocalAgents(feasible, action.inputs, index);
      if local == {} then Err(InfeasibleBinding) else Ok(Binding(Least(local), None))
    case Auto =>
      if feasible == {} then Err(InfeasibleBinding)
      else Ok(Binding(Cheapest(feasible, AgentCost(action.inputs, index)), None))
  }

  function Resolution(
    decision: PhysicalDecision, action: SemanticAction, operator: OperatorSpec,
    environment: EnvironmentSpec, state: InfrastructureState): Result<Binding, ErrorCode>
  {
    if !InputsKnown(action.inputs, IndexArtifacts(state)) then Err(MissingInput)
    else if IsModelOperator(operator) then ResolveModel(decision, action, operator, environment, state)
    else ResolveAgent(decision, action, operator, environment, state)
  }

  // ---------- The resolver as it runs ----------

  lemma LocalSnoc(feasible: set<Id>, inputs: seq<Id>, next: Id, index: ArtifactIndex)
    requires next in index
    ensures LocalAgents(feasible, inputs + [next], index) ==
            LocalAgents(feasible, inputs, index) * set agentId | agentId in index[next].locations
  {
    forall agentId ensures HoldsAll(agentId, inputs + [next], index) <==>
                           HoldsAll(agentId, inputs, index) && agentId in index[next].locations {
      if HoldsAll(agentId, inputs + [next], index) {
        assert next in inputs + [next];
        assert forall id :: id in inputs ==> id in inputs + [next];
      }
    }
  }

  method IntersectLocations(feasible: set<Id>, inputs: seq<Id>, index: ArtifactIndex) returns (local: set<Id>)
    requires InputsKnown(inputs, index)
    ensures local == LocalAgents(feasible, inputs, index)
  {
    local := feasible;
    for i := 0 to |inputs|
      invariant local == LocalAgents(feasible, inputs[..i], index)
    {
      LocalSnoc(feasible, inputs[..i], inputs[i], index);
      assert inputs[..i + 1] == inputs[..i] + [inputs[i]];
      local := local * set agentId | agentId in index[inputs[i]].locations;
    }
    assert inputs[..|inputs|] == inputs;
  }

  function Unknown(index: ArtifactIndex): Id -> bool {
    id => id !in index
  }

  lemma MissingIffUnknown(inputs: seq<Id>, index: ArtifactIndex)
    ensures Filter(Unknown(index), inputs) == [] <==> InputsKnown(inputs, index)
  {
    var missing := Filter(Unknown(index), inputs);
    FilterMembers(Unknown(index), inputs);
    if missing != [] {
      assert missing[0] in inputs && missing[0] !in index;
    }
  }

  method Resolve(
    decision: PhysicalDecision, action: SemanticAction, operator: OperatorSpec,
    environment: EnvironmentSpec, state: InfrastructureState)
    returns (r: Result<Binding, ErrorCode>)
    ensures r == Resolution(decision, action, operator, environment, state)
  {
    var index := IndexArtifacts(state);
    var missing := Filter(Unknown(index), action.inputs);
    MissingIffUnknown(action.inputs, index);
    if missing != [] {
      return Err(MissingInput);
    }
    if IsModelOperator(operator) {
      r := SelectDeployment(decision, action, operator, environment, state);
      return;
    }
    var feasible := FeasibleAgents(operator, environment, state);
    if decision.policy.TargetAgent? {
      if decision.targetAgentId.None? || decision.targetAgentId.value !in feasible {
        return Err(InfeasibleBinding);
      }
      return Ok(Binding(decision.targetAgentId.value, None));
    }
    if decision.policy.TargetDeployment? {
      return Err(InfeasibleBinding);
    }
    var local := IntersectLocations(feasible, action.inputs, index);
    if decision.policy.DataLocal? {
      if local == {} {
        return Err(InfeasibleBinding);
      }
      return Ok(Binding(Least(local), None));
    }
    if feasible == {} {
      return Err(InfeasibleBinding);
    }
    return Ok(Binding(Cheapest(feasible, AgentCost(action.inputs, index)), None));
  }

  method SelectDeployment(
    decision: PhysicalDecision, action: SemanticAction, operator: OperatorSpec,
    environment: EnvironmentSpec, state: InfrastructureState)
    returns (r: Result<Binding, ErrorCode>)
    requires InputsKnown(action.inputs, IndexArtifacts(state))
    ensures r == ResolveModel(decision, action, operator, environment, state)
  {
    var deployments, index := IndexDeployments(environment), IndexArtifacts(state);
    var candidates := ModelCandidates(decision, action, operator, environment, state);
    if candidates == {} {
      return Err(InfeasibleBinding);
    }
    var errors := PreflightCandidates(candidates, deployments, action, index);
    var passing := set id | id in candidates && errors[id] == None;
    assert passing == Passing(candidates, deployments, action, index);
    if passing == {} {
      var least := Least(candidates);
      assert least !in passing;
      return Err(errors[least].value);
    }
    var best := Cheapest(passing, DeploymentCost(deployments, action.inputs, index));
    return Ok(Binding(deployments[best].agentId, Some(best)));
  }

  function AdmissionError(estimate: Result<nat, ErrorCode>): Option<ErrorCode> {
    match estimate
    case Ok(_) => None
    case Err(code) => Some(code)
  }

  method PreflightCandidates(
    candidates: set<Id>, deployments: map<Id, DeploymentSpec>, action: SemanticAction, index: ArtifactIndex)
    returns (errors: map<Id, Option<ErrorCode>>)
    requires InputsKnown(action.inputs, index)
    requires forall id :: id in candidates ==> id in deployments
    ensures errors.Keys == candidates
    ensures forall id :: id in candidates ==>
      errors[id] == AdmissionError(EstimateRequest(deployments[id], action, index))
  {
    errors := map[];
    var remaining := candidates;
    while remaining != {}
      invariant remaining <= candidates && errors.Keys == candidates - remaining
      invariant forall id :: id in errors.Keys ==>
        errors[id] == AdmissionError(EstimateRequest(deployments[id], action, index))
      decreases |remaining|
    {
      var id := Least(remaining);
      var error := ModelRequestError(deployments[id], action, index);
      errors := errors[id := error];
      remaining := remaining - {id};
    }
  }
}
