/** What the resolver promises, stated over the raw environment and snapshot. */
module ResolverProperties {
  import opened Basics
  import opened Sorting
  import opened CoreState
  import opened Resolver

  datatype Request = Request(
    decision: PhysicalDecision,
    action: SemanticAction,
    operator: OperatorSpec,
    environment: EnvironmentSpec,
    state: InfrastructureState)
  {
    function Resolved(): Result<Binding, ErrorCode> {
      Resolution(decision, action, operator, environment, state)
    }

    function Index(): ArtifactIndex {
      IndexArtifacts(state)
    }

    ghost predicate CapableAgent(agentId: Id) {
      && (exists a :: a in state.agents && a.available && a.agentId == agentId)
      && (exists s ::
        s in environment.agents && s.agentId == agentId && operator.capabilityRequirements <= s.capabilities)
    }

    ghost predicate Serves(d: DeploymentSpec, b: Binding) {
      && d in environment.deployments && b == Binding(d.agentId, Some(d.deploymentId))
      && (exists s :: s in state.deployments && s.available && s.deploymentId == d.deploymentId)
      && PolicyAdmits(decision, d, action.inputs, Index())
    }

    /** A binding the policy admits on available, declared and capable resources. */
    ghost predicate IsPlacement(b: Binding) {
      CapableAgent(b.agentId) &&
      if IsModelOperator(operator) then exists d :: Serves(d, b)
      else
        b.deploymentId == None &&
        match decision.policy
        case Auto => true
        case DataLocal => HoldsAll(b.agentId, action.inputs, Index())
        case TargetAgent => decision.targetAgentId == Some(b.agentId)
        case TargetDeployment => false
    }

    /** A placement whose deployment, if it has one, also admits the request. */
    ghost predicate IsCandidate(b: Binding)
      requires InputsKnown(action.inputs, Index())
    {
      IsPlacement(b) &&
      (IsModelOperator(operator) ==> exists d :: Serves(d, b) && EstimateRequest(d, action, Index()).Ok?)
    }

    function Cost(b: Binding): nat {
      TransferCost(b.agentId, action.inputs, Index())
    }

    function TieBreak(b: Binding): Id {
      if b.deploymentId.Some? then b.deploymentId.value else b.agentId
    }

    ghost predicate Preferred(b: Binding, other: Binding) {
      Cost(b) < Cost(other) || (Cost(b) == Cost(other) && LexLeq(TieBreak(b), TieBreak(other)))
    }

    /** The error of a model request none of whose placements passes admission. */
    ghost predicate FirstPlacementFails(code: ErrorCode)
      requires InputsKnown(action.inputs, Index())
    {
      exists b, d ::
        && IsPlacement(b) && Serves(d, b)
        && (forall other :: IsPlacement(other) ==> LexLeq(TieBreak(b), TieBreak(other)))
        && EstimateRequest(d, action, Index()) == Err(code)
    }
  }

  // ---------- From index lookups to membership ----------

  lemma FeasibleIffCapable(q: Request, agentId: Id)
    requires q.environment.Valid()
    ensures agentId in FeasibleAgents(q.operator, q.environment, q.state) <==> q.CapableAgent(agentId)
  {
    IndexedIsItem(AgentKey, q.environment.agents, agentId);
    if agentId in FeasibleAgents(q.operator, q.environment, q.state) {
      assert IndexAgents(q.environment)[agentId] in q.environment.agents;
    }
    if q.CapableAgent(agentId) {
      var s :| s in q.environment.agents && s.agentId == agentId && q.operator.capabilityRequirements <= s.capabilities;
      UniquelyIndexed(AgentKey, q.environment.agents, s);
    }
  }

  function ModelBinding(environment: EnvironmentSpec, id: Id): Binding
    requires id in IndexDeployments(environment)
  {
    Binding(IndexDeployments(environment)[id].agentId, Some(id))
  }

  lemma ModelCandidatePlaced(q: Request, id: Id)
    requires q.environment.Valid() && IsModelOperator(q.operator)
    requires id in ModelCandidates(q.decision, q.action, q.operator, q.environment, q.state)
    ensures q.IsPlacement(ModelBinding(q.environment, id))
    ensures q.Serves(IndexDeployments(q.environment)[id], ModelBinding(q.environment, id))
  {
    FeasibleIffCapable(q, IndexDeployments(q.environment)[id].agentId);
    IndexedIsItem(DeploymentKey, q.environment.deployments, id);
    assert q.Serves(IndexDeployments(q.environment)[id], ModelBinding(q.environment, id));
  }

  lemma PlacedIsModelCandidate(q: Request, b: Binding, d: DeploymentSpec)
    requires q.environment.Valid() && IsModelOperator(q.operator)
    requires q.IsPlacement(b) && q.Serves(d, b)
    ensures d.deploymentId in ModelCandidates(q.decision, q.action, q.operator, q.environment, q.state)
    ensures IndexDeployments(q.environment)[d.deploymentId] == d
    ensures b == ModelBinding(q.environment, d.deploymentId)
  {
    FeasibleIffCapable(q, d.agentId);
    UniquelyIndexed(DeploymentKey, q.environment.deployments, d);
  }

  // ---------- Soundness, completeness and error priority ----------

  ghost predicate Characterised(q: Request, r: Result<Binding, ErrorCode>)
    requires InputsKnown(q.action.inputs, q.Index())
  {
    match r
    case Ok(b) => q.IsCandidate(b) && forall other :: q.IsCandidate(other) ==> q.Preferred(b, other)
    case Err(code) =>
      && code != MissingInput
      && (forall b :: !q.IsCandidate(b))
      && (if exists b :: q.IsPlacement(b) then q.FirstPlacementFails(code) else code == InfeasibleBinding)
  }

  lemma LocalIffFree(q: Request, agentId: Id)
    requires q.environment.Valid()
    ensures agentId in LocalAgents(FeasibleAgents(q.operator, q.environment, q.state), q.action.inputs, q.Index())
            <==> q.CapableAgent(agentId) && HoldsAll(agentId, q.action.inputs, q.Index())
    ensures HoldsAll(agentId, q.action.inputs, q.Index()) <==> TransferCost(agentId, q.action.inputs, q.Index()) == 0
  {
    FeasibleIffCapable(q, agentId);
    FreeIffLocal(agentId, q.action.inputs, q.Index());
  }

  lemma ChosenAgentPreferred(q: Request, b: Binding, other: Binding)
    requires q.environment.Valid() && !IsModelOperator(q.operator)
    requires ResolveAgent(q.decision, q.action, q.operator, q.environment, q.state) == Ok(b)
    requires q.IsPlacement(other)
    ensures q.Preferred(b, other)
  {
    FeasibleIffCapable(q, other.agentId);
    match q.decision.policy {
      case Auto =>
        assert Before(AgentCost(q.action.inputs, q.Index()))(b.agentId, other.agentId);
      case DataLocal =>
        LocalIffFree(q, b.agentId);
        LocalIffFree(q, other.agentId);
      case TargetAgent =>
        LexTotal(b.agentId, b.agentId);
      case TargetDeployment =>
    }
  }

  lemma ChosenAgentPlaced(q: Request)
    requires q.environment.Valid()
    requires InputsKnown(q.action.inputs, q.Index()) && !IsModelOperator(q.operator)
    ensures q.Resolved().Ok? ==> q.IsPlacement(q.Resolved().value)
    ensures q.Resolved().Err? ==> q.Resolved().error == InfeasibleBinding && forall b :: !q.IsPlacement(b)
  {
    if q.Resolved().Ok? {
      FeasibleIffCapable(q, q.Resolved().value.agentId);
      LocalIffFree(q, q.Resolved().value.agentId);
    } else {
      forall b ensures !q.IsPlacement(b) {
        FeasibleIffCapable(q, b.agentId);
        LocalIffFree(q, b.agentId);
      }
    }
  }

  lemma ResolveAgentCharacterised(q: Request)
    requires q.environment.Valid()
    requires InputsKnown(q.action.inputs, q.Index()) && !IsModelOperator(q.operator)
    ensures Characterised(q, q.Resolved())
  {
    ChosenAgentPlaced(q);
    if q.Resolved().Ok? {
      var b := q.Resolved().value;
      forall other | q.IsCandidate(other) ensures q.Preferred(b, other) {
        ChosenAgentPreferred(q, b, other);
      }
    }
  }

  lemma {:induction false} ChargeNeverMissing(deployment: DeploymentSpec, inputs: seq<Id>, index: ArtifactIndex)
    requires InputsKnown(inputs, index)
    ensures ChargeInputs(deployment, inputs, index) != Err(MissingInput)
  {
    if inputs != [] {
      ChargeNeverMissing(deployment, inputs[1..], index);
    }
  }

  lemma SelectedDeploymentPreferred(q: Request, best: Id)
    requires q.environment.Valid()
    requires InputsKnown(q.action.inputs, q.Index()) && IsModelOperator(q.operator)
    requires var deployments := IndexDeployments(q.environment);
      var candidates := ModelCandidates(q.decision, q.action, q.operator, q.environment, q.state);
      var passing := Passing(candidates, deployments, q.action, q.Index());
      passing != {} && best == Cheapest(passing, DeploymentCost(deployments, q.action.inputs, q.Index()))
    ensures best in IndexDeployments(q.environment)
    ensures Characterised(q, Ok(ModelBinding(q.environment, best)))
  {
    var deployments := IndexDeployments(q.environment);
    var candidates := ModelCandidates(q.decision, q.action, q.operator, q.environment, q.state);
    var passing := Passing(candidates, deployments, q.action, q.Index());
    var b := ModelBinding(q.environment, best);
    ModelCandidatePlaced(q, best);
    assert q.IsCandidate(b);
    forall other | q.IsCandidate(other) ensures q.Preferred(b, other) {
      var d :| q.Serves(d, other) && EstimateRequest(d, q.action, q.Index()).Ok?;
      PlacedIsModelCandidate(q, other, d);
      assert d.deploymentId in passing;
      RankedPreferred(q, best, d.deploymentId);
    }
  }

  lemma RankedPreferred(q: Request, best: Id, other: Id)
    requires best in IndexDeployments(q.environment) && other in IndexDeployments(q.environment)
    requires Before(DeploymentCost(IndexDeployments(q.environment), q.action.inputs, q.Index()))(best, other)
    ensures q.Preferred(ModelBinding(q.environment, best), ModelBinding(q.environment, other))
  {
  }

  lemma NoPlacement(q: Request)
    requires q.environment.Valid() && IsModelOperator(q.operator)
    requires ModelCandidates(q.decision, q.action, q.operator, q.environment, q.state) == {}
    ensures forall b :: !q.IsPlacement(b)
  {
    forall b ensures !q.IsPlacement(b) {
      if q.IsPlacement(b) {
        var d :| q.Serves(d, b);
        PlacedIsModelCandidate(q, b, d);
      }
    }
  }

  lemma LeastPlacementFails(q: Request, least: Id)
    requires q.environment.Valid()
    requires InputsKnown(q.action.inputs, q.Index()) && IsModelOperator(q.operator)
    requires IsLeast(least, ModelCandidates(q.decision, q.action, q.operator, q.environment, q.state))
    requires EstimateRequest(IndexDeployments(q.environment)[least], q.action, q.Index()).Err?
    ensures q.FirstPlacementFails(EstimateRequest(IndexDeployments(q.environment)[least], q.action, q.Index()).error)
  {
    var b, d := ModelBinding(q.environment, least), IndexDeployments(q.environment)[least];
    ModelCandidatePlaced(q, least);
    forall other | q.IsPlacement(other) ensures LexLeq(q.TieBreak(b), q.TieBreak(other)) {
      var served :| q.Serves(served, other);
      PlacedIsModelCandidate(q, other, served);
    }
    assert q.IsPlacement(b) && q.Serves(d, b);
  }

  lemma CandidatePasses(q: Request, b: Binding)
    requires q.environment.Valid()
    requires InputsKnown(q.action.inputs, q.Index()) && IsModelOperator(q.operator)
    requires q.IsCandidate(b)
    ensures Passing(ModelCandidates(q.decision, q.action, q.operator, q.environment, q.state),
                    IndexDeployments(q.environment), q.action, q.Index()) != {}
  {
    var d :| q.Serves(d, b) && EstimateRequest(d, q.action, q.Index()).Ok?;
    PlacedIsModelCandidate(q, b, d);
    assert d.deploymentId in Passing(ModelCandidates(q.decision, q.action, q.operator, q.environment, q.state),
                                     IndexDeployments(q.environment), q.action, q.Index());
  }

  lemma RejectedError(q: Request)
    requires q.environment.Valid()
    requires InputsKnown(q.action.inputs, q.Index()) && IsModelOperator(q.operator)
    requires ModelCandidates(q.decision, q.action, q.operator, q.environment, q.state) != {}
    requires ResolveModel(q.decision, q.action, q.operator, q.environment, q.state).Err?
    ensures var code := ResolveModel(q.decision, q.action, q.operator, q.environment, q.state).error;
            code != MissingInput && (exists b :: q.IsPlacement(b)) && q.FirstPlacementFails(code)
  {
    var candidates := ModelCandidates(q.decision, q.action, q.operator, q.environment, q.state);
    var least := Least(candidates);
    assert least !in Passing(candidates, IndexDeployments(q.environment), q.action, q.Index());
    ModelCandidatePlaced(q, least);
    ChargeNeverMissing(IndexDeployments(q.environment)[least], q.action.inputs, q.Index());
    LeastPlacementFails(q, least);
  }

  lemma RejectedDeployments(q: Request)
    requires q.environment.Valid()
    requires InputsKnown(q.action.inputs, q.Index()) && IsModelOperator(q.operator)
    requires ResolveModel(q.decision, q.action, q.operator, q.environment, q.state).Err?
    ensures Characterised(q, ResolveModel(q.decision, q.action, q.operator, q.environment, q.state))
  {
    forall b ensures !q.IsCandidate(b) {
      if q.IsCandidate(b) {
        CandidatePasses(q, b);
      }
    }
    if ModelCandidates(q.decision, q.action, q.operator, q.environment, q.state) == {} {
      NoPlacement(q);
    } else {
      RejectedError(q);
    }
  }

  /**
   A binding is returned iff some candidate exists; it is the cheapest candidate in transfers, ties
   broken by ID. Otherwise the error is, in this order: a missing input, no placement at all, or the
   admission error of the placement with the least deployment ID.
   */
  lemma ResolutionCharacterised(q: Request)
    requires q.environment.Valid()
    ensures q.Resolved() == Err(MissingInput) <==> !InputsKnown(q.action.inputs, q.Index())
    ensures InputsKnown(q.action.inputs, q.Index()) ==> Characterised(q, q.Resolved())
  {
    if InputsKnown(q.action.inputs, q.Index()) {
      if !IsModelOperator(q.operator) {
        ResolveAgentCharacterised(q);
      } else if q.Resolved().Ok? {
        var b := q.Resolved().value;
        SelectedDeploymentPreferred(q, b.deploymentId.value);
      } else {
        RejectedDeployments(q);
      }
    }
  }

  // ---------- Explicit intent ----------

  /** An explicit target is either honoured or refused, never replaced. */
  lemma ExplicitTargetHonoured(q: Request)
    requires q.environment.Valid() && q.decision.Valid() && q.Resolved().Ok?
    ensures q.decision.policy.TargetAgent? ==> q.Resolved().value.agentId == q.decision.targetAgentId.value
    ensures q.decision.policy.TargetDeployment? ==> q.Resolved().value.deploymentId == q.decision.targetDeploymentId
  {
    ResolutionCharacterised(q);
  }

  // ---------- Order independence ----------

  lemma SameMembers<T>(a: seq<T>, b: seq<T>, x: T)
    requires multiset(a) == multiset(b)
    ensures x in a <==> x in b
  {
    assert x in a <==> x in multiset(a);
    assert x in b <==> x in multiset(b);
  }

  lemma PermutationInvariant(q: Request, p: Request)
    requires q.environment.Valid()
    requires NoDuplicates(Map(ArtifactKey, q.state.artifacts))
    requires p.decision == q.decision && p.action == q.action && p.operator == q.operator
    requires multiset(p.environment.agents) == multiset(q.environment.agents)
    requires multiset(p.environment.deployments) == multiset(q.environment.deployments)
    requires multiset(p.state.agents) == multiset(q.state.agents)
    requires multiset(p.state.deployments) == multiset(q.state.deployments)
    requires multiset(p.state.artifacts) == multiset(q.state.artifacts)
    ensures p.Resolved() == q.Resolved()
  {
    IndexOfPermutation(AgentKey, q.environment.agents, p.environment.agents);
    IndexOfPermutation(DeploymentKey, q.environment.deployments, p.environment.deployments);
    IndexOfPermutation(ArtifactKey, q.state.artifacts, p.state.artifacts);
    SameFeasible(q, p);
    SameResolution(q, p);
  }

  lemma SameFeasible(q: Request, p: Request)
    requires p.operator == q.operator && IndexAgents(p.environment) == IndexAgents(q.environment)
    requires multiset(p.state.agents) == multiset(q.state.agents)
    requires multiset(p.state.deployments) == multiset(q.state.deployments)
    ensures FeasibleAgents(p.operator, p.environment, p.state) == FeasibleAgents(q.operator, q.environment, q.state)
    ensures AvailableDeployments(p.state) == AvailableDeployments(q.state)
  {
    forall a ensures a in p.state.agents <==> a in q.state.agents {
      SameMembers(p.state.agents, q.state.agents, a);
    }
    forall d ensures d in p.state.deployments <==> d in q.state.deployments {
      SameMembers(p.state.deployments, q.state.deployments, d);
    }
  }

  lemma SameResolution(q: Request, p: Request)
    requires p.decision == q.decision && p.action == q.action && p.operator == q.operator
    requires IndexDeployments(p.environment) == IndexDeployments(q.environment) && p.Index() == q.Index()
    requires FeasibleAgents(p.operator, p.environment, p.state) == FeasibleAgents(q.operator, q.environment, q.state)
    requires AvailableDeployments(p.state) == AvailableDeployments(q.state)
    ensures p.Resolved() == q.Resolved()
  {
    assert ModelCandidates(p.decision, p.action, p.operator, p.environment, p.state)
        == ModelCandidates(q.decision, q.action, q.operator, q.environment, q.state);
  }

  // ---------- AUTO and DATA_LOCAL ----------

  lemma LocalCandidateStaysCandidate(local: Request, auto: Request, b: Binding)
    requires local.decision == DATA_LOCAL && auto == local.(decision := AUTO)
    requires InputsKnown(local.action.inputs, local.Index())
    ensures local.IsCandidate(b) <==> auto.IsCandidate(b) && auto.Cost(b) == 0
  {
    FreeIffLocal(b.agentId, local.action.inputs, local.Index());
    if auto.IsCandidate(b) && auto.Cost(b) == 0 && IsModelOperator(local.operator) {
      var d :| auto.Serves(d, b) && EstimateRequest(d, auto.action, auto.Index()).Ok?;
      assert local.Serves(d, b);
    }
    if local.IsCandidate(b) && IsModelOperator(local.operator) {
      var d :| local.Serves(d, b) && EstimateRequest(d, local.action, local.Index()).Ok?;
      assert auto.Serves(d, b);
    }
  }

  /** Whenever DATA_LOCAL can place an action, AUTO places it identically, at no transfer cost. */
  lemma AutoExtendsDataLocal(local: Request, auto: Request)
    requires local.environment.Valid()
    requires local.decision == DATA_LOCAL && auto == local.(decision := AUTO)
    requires local.Resolved().Ok?
    ensures auto.Resolved() == local.Resolved()
    ensures auto.Cost(auto.Resolved().value) == 0
  {
    ResolutionCharacterised(local);
    ResolutionCharacterised(auto);
    var b := local.Resolved().value;
    LocalCandidateStaysCandidate(local, auto, b);
    assert auto.Resolved().Ok?;
    var c := auto.Resolved().value;
    LocalCandidateStaysCandidate(local, auto, c);
    LexAntisymmetric(auto.TieBreak(b), auto.TieBreak(c));
    SameTieSameBinding(auto, b, c);
  }

  lemma SameTieSameBinding(q: Request, b: Binding, c: Binding)
    requires q.environment.Valid()
    requires q.IsPlacement(b) && q.IsPlacement(c) && q.TieBreak(b) == q.TieBreak(c)
    ensures b == c
  {
    if IsModelOperator(q.operator) {
      var d :| q.Serves(d, b);
      var e :| q.Serves(e, c);
      UniquelyIndexed(DeploymentKey, q.environment.deployments, d);
      UniquelyIndexed(DeploymentKey, q.environment.deployments, e);
    }
  }
}
