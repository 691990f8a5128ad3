/** JSON values as operators and prompts see them; numbers are mathematical reals. */
module JsonValues {
  datatype Json =
    | Null
    | Bool(flag: bool)
    | Number(number: real)
    | String(text: string)
    | Array(items: seq<Json>)
    | Object(fields: map<string, Json>)
}

/** The contracts that cross components: environment, runtime state, actions and decisions. */
module CoreState {
  import opened Basics
  import opened JsonValues

  // ---------- Static environment ----------

  datatype AgentSpec = AgentSpec(agentId: Id, capabilities: set<string>)

  datatype DeploymentSpec = DeploymentSpec(
    deploymentId: Id,
    agentId: Id,
    modelId: Id,
    modalities: set<string>,
    contextWindow: nat,
    reservedOutputTokens: nat,
    imageTokenCost: nat)
  {
    predicate Valid() {
      && 0 < reservedOutputTokens < contextWindow
      && imageTokenCost > 0
      && "text" in modalities
    }
  }

  function AgentKey(spec: AgentSpec): Id {
    spec.agentId
  }

  function DeploymentKey(spec: DeploymentSpec): Id {
    spec.deploymentId
  }

  datatype ArtifactPlacement = ArtifactPlacement(artifactId: Id, agentId: Id)

  datatype EnvironmentSpec = EnvironmentSpec(
    agents: seq<AgentSpec>,
    deployments: seq<DeploymentSpec>,
    initialPlacements: seq<ArtifactPlacement>)
  {
    predicate Valid() {
      && NoDuplicates(Map(AgentKey, agents))
      && NoDuplicates(Map(DeploymentKey, deployments))
      && (forall d :: d in deployments ==> d.Valid() && exists a :: a in agents && a.agentId == d.agentId)
      && (forall p :: p in initialPlacements ==> exists a :: a in agents && a.agentId == p.agentId)
    }
  }

  // ---------- Observed state ----------

  datatype AgentRuntimeState = AgentRuntimeState(agentId: Id, available: bool, inFlight: nat)

  datatype DeploymentRuntimeState = DeploymentRuntimeState(deploymentId: Id, available: bool)

  datatype ArtifactRuntimeState = ArtifactRuntimeState(
    artifactId: Id,
    locations: seq<Id>,
    mediaType: Option<string>,
    sizeBytes: Option<nat>,
    sha256Hex: Option<string>)

  function ArtifactKey(artifact: ArtifactRuntimeState): Id {
    artifact.artifactId
  }

  datatype InfrastructureState = InfrastructureState(
    agents: seq<AgentRuntimeState>,
    deployments: seq<DeploymentRuntimeState>,
    artifacts: seq<ArtifactRuntimeState>)

  /** `{key(item): item for item in items}`: for a repeated key the last item wins. */
  function IndexBy<T>(key: T -> Id, items: seq<T>): map<Id, T> {
    if items == [] then map[]
    else IndexBy(key, items[..|items| - 1])[key(items[|items| - 1]) := items[|items| - 1]]
  }

  lemma {:induction false} IndexedIsItem<T>(key: T -> Id, items: seq<T>, id: Id)
    ensures id in IndexBy(key, items) ==> IndexBy(key, items)[id] in items && key(IndexBy(key, items)[id]) == id
  {
    if items != [] {
      IndexedIsItem(key, items[..|items| - 1], id);
    }
  }

  lemma {:induction false} ItemIsIndexed<T>(key: T -> Id, items: seq<T>, item: T)
    requires item in items
    ensures key(item) in IndexBy(key, items)
  {
    var last := items[|items| - 1];
    if item != last {
      assert item in items[..|items| - 1];
      ItemIsIndexed(key, items[..|items| - 1], item);
    }
  }

  lemma UniquelyIndexed<T>(key: T -> Id, items: seq<T>, item: T)
    requires NoDuplicates(Map(key, items)) && item in items
    ensures key(item) in IndexBy(key, items) && IndexBy(key, items)[key(item)] == item
  {
    var i :| 0 <= i < |items| && items[i] == item;
    ItemIsIndexed(key, items, item);
    IndexedIsItem(key, items, key(item));
    var found := IndexBy(key, items)[key(item)];
    var j :| 0 <= j < |items| && items[j] == found;
    assert Map(key, items)[i] == Map(key, items)[j];
  }

  /** With unique keys the order of the items is irrelevant. */
  lemma IndexOfPermutation<T>(key: T -> Id, items: seq<T>, permuted: seq<T>)
    requires NoDuplicates(Map(key, items)) && multiset(items) == multiset(permuted)
    ensures IndexBy(key, items) == IndexBy(key, permuted)
  {
    var a, b := IndexBy(key, items), IndexBy(key, permuted);
    forall id ensures id in a <==> id in b {
      IndexedIsItem(key, items, id);
      IndexedIsItem(key, permuted, id);
      if id in a {
        assert a[id] in multiset(permuted);
        ItemIsIndexed(key, permuted, a[id]);
      }
      if id in b {
        assert b[id] in multiset(items);
        ItemIsIndexed(key, items, b[id]);
      }
    }
    forall id | id in a ensures a[id] == b[id] {
      IndexedIsItem(key, permuted, id);
      assert b[id] in multiset(items);
      UniquelyIndexed(key, items, b[id]);
    }
  }

  // ---------- Actions and decisions ----------

  datatype SemanticAction = SemanticAction(operator: string, inputs: seq<Id>, arguments: map<string, Json>)

  datatype PhysicalPolicy = Auto | DataLocal | TargetAgent | TargetDeployment

  datatype PhysicalDecision = PhysicalDecision(
    policy: PhysicalPolicy,
    targetAgentId: Option<Id>,
    targetDeploymentId: Option<Id>)
  {
    predicate Valid() {
      match policy
      case TargetAgent => targetAgentId.Some? && targetAgentId.value != "" && targetDeploymentId.None?
      case TargetDeployment => targetDeploymentId.Some? && targetDeploymentId.value != "" && targetAgentId.None?
      case Auto => targetAgentId.None? && targetDeploymentId.None?
      case DataLocal => targetAgentId.None? && targetDeploymentId.None?
    }
  }

  const AUTO := PhysicalDecision(Auto, None, None)
  const DATA_LOCAL := PhysicalDecision(DataLocal, None, None)

  datatype JointDecision =
    | JointAction(semantic: SemanticAction, physical: PhysicalDecision)
    | FinishDecision(reason: string)

  datatype OperatorSpec = OperatorSpec(operatorId: string, capabilityRequirements: set<string>)

  /** Python's `str` of a JSON value that is not already a string. */
  const PythonStr: Json -> string

  /** `str(action.arguments.get("prompt", ""))`. */
  function PromptText(action: SemanticAction): string {
    if "prompt" !in action.arguments then ""
    else match action.arguments["prompt"]
      case String(text) => text
      case other => PythonStr(other)
  }
}
