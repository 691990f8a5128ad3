/**
 The controller's view of the workers as values: the snapshot it observes, the pulls it makes to
 localize an action's inputs, and the execution that follows. `Observer` and `Executor` run this.
 */
module Protocol {
  import opened Basics
  import opened JsonValues
  import opened Sorting
  import opened CoreState
  import opened ArtifactStore
  import opened ModelBackend
  import opened WorkerServer
  import opened Resolver

  type Cluster = map<Id, Contents>

  ghost predicate ValidCluster(cluster: Cluster) {
    forall agentId :: agentId in cluster ==> ValidContents(cluster[agentId]) && PlainContents(cluster[agentId])
  }

  predicate PlainContents(m: Contents) {
    forall id :: id in m ==> PlainMediaType(m[id].mediaType)
  }

  // ---------- Observation ----------

  /** What a worker that answered, under its own agent ID, reported. */
  datatype WorkerReport = WorkerReport(inFlight: nat, deployments: set<Id>, artifacts: Contents)

  datatype Facts = Facts(mediaType: string, sizeBytes: nat, sha256Hex: string)

  function FactsOf(artifact: StoredArtifact): Facts {
    Facts(artifact.mediaType, |artifact.content|, artifact.sha256Hex)
  }

  type Reports = map<Id, WorkerReport>

  predicate Consistent(reports: Reports) {
    forall a, b, id | a in reports && b in reports && id in reports[a].artifacts && id in reports[b].artifacts ::
      FactsOf(reports[a].artifacts[id]) == FactsOf(reports[b].artifacts[id])
  }

  function Holders(reports: Reports, id: Id): set<Id> {
    set a | a in reports && id in reports[a].artifacts
  }

  function ReportedIds(reports: Reports): set<Id> {
    set a, id | a in reports && id in reports[a].artifacts :: id
  }

  function DescribeArtifact(reports: Reports, id: Id): ArtifactRuntimeState {
    var holders := Holders(reports, id);
    if holders == {} then ArtifactRuntimeState(id, [], None, None, None)
    else
      var facts := FactsOf(reports[Least(holders)].artifacts[id]);
      ArtifactRuntimeState(id, Enumerate(holders), Some(facts.mediaType), Some(facts.sizeBytes), Some(facts.sha256Hex))
  }

  function DescribeAgent(reports: Reports, spec: AgentSpec): AgentRuntimeState {
    if spec.agentId in reports then AgentRuntimeState(spec.agentId, true, reports[spec.agentId].inFlight)
    else AgentRuntimeState(spec.agentId, false, 0)
  }

  function DescribeDeployment(reports: Reports, spec: DeploymentSpec): DeploymentRuntimeState {
    DeploymentRuntimeState(
      spec.deploymentId,
      spec.agentId in reports && spec.deploymentId in reports[spec.agentId].deployments)
  }

  function SnapshotOf(
    environment: EnvironmentSpec, reports: Reports, artifacts: seq<ArtifactRuntimeState>): InfrastructureState
  {
    InfrastructureState(
      Map(spec => DescribeAgent(reports, spec), environment.agents),
      Map(spec => DescribeDeployment(reports, spec), environment.deployments),
      artifacts)
  }

  function Snapshot(environment: EnvironmentSpec, reports: Reports): InfrastructureState {
    SnapshotOf(environment, reports, Map(id => DescribeArtifact(reports, id), Enumerate(ReportedIds(reports))))
  }

  datatype ProtocolError =
    | InconsistentMetadata
    | Unresolved(code: ErrorCode)
    | UnknownOperator
    | InvalidAction
    | NoWorkerClient
    | NoReachableSource(id: Id)
    | AtWorker(error: WorkerError)

  function Observation(environment: EnvironmentSpec, reports: Reports): Result<InfrastructureState, ProtocolError> {
    if Consistent(reports) then Ok(Snapshot(environment, reports)) else Err(InconsistentMetadata)
  }

  // ---------- Localization ----------

  datatype Transfer = Transfer(artifactId: Id, source: Id, target: Id, bytes: nat)

  function Sources(index: ArtifactIndex, id: Id, clients: set<Id>): set<Id>
    requires id in index
  {
    set a | a in clients && a in index[id].locations
  }

  function PullOne(
      cluster: Cluster, target: Id, id: Id, index: ArtifactIndex): (r: (Cluster, Result<Transfer, ProtocolError>))
    requires target in cluster && id in index
    ensures r.0.Keys == cluster.Keys
  {
    var sources := Sources(index, id, cluster.Keys);
    if sources == {} then (cluster, Err(NoReachableSource(id)))
    else
      var source := Least(sources);
      match Pull(cluster[target], cluster[source], id, index[id].sha256Hex)
      case Err(error) => (cluster, Err(AtWorker(error)))
      case Ok(after) =>
        (cluster[target := after], Ok(Transfer(id, source, target, if id in after then |after[id].content| else 0)))
  }

  function Prepend(transfer: Transfer, rest: Result<seq<Transfer>, ProtocolError>):
    Result<seq<Transfer>, ProtocolError>
  {
    if rest.Ok? then Ok([transfer] + rest.value) else rest
  }

  /** Inputs in order; one already at the target, as the snapshot has it, is skipped. What was pulled stays. */
  function Localize(cluster: Cluster, target: Id, inputs: seq<Id>, index: ArtifactIndex):
    (r: (Cluster, Result<seq<Transfer>, ProtocolError>))
    requires target in cluster && InputsKnown(inputs, index)
    ensures r.0.Keys == cluster.Keys
    decreases |inputs|
  {
    if inputs == [] then (cluster, Ok([]))
    else if target in index[inputs[0]].locations then Localize(cluster, target, inputs[1..], index)
    else
      var (after, pulled) := PullOne(cluster, target, inputs[0], index);
      match pulled
      case Err(error) => (after, Err(error))
      case Ok(transfer) =>
        var (final, rest) := Localize(after, target, inputs[1..], index);
        (final, Prepend(transfer, rest))
  }

  // ---------- Execution ----------

  datatype ExecutionResult = ExecutionResult(
    operator: string,
    agentId: Id,
    deploymentId: Option<Id>,
    output: map<string, Json>,
    transfers: seq<Transfer>)

  datatype Deployed = Deployed(
    environment: EnvironmentSpec,
    registry: map<string, OperatorSpec>,
    surfaces: map<Id, Surface>,
    semantics: Semantics)

  function SurfaceAt(setup: Deployed, agentId: Id): Surface {
    if agentId in setup.surfaces then setup.surfaces[agentId] else Surface({}, map[])
  }

  /** The stores an action leaves, whether or not it succeeds, and its result. */
  function ExecuteAction(setup: Deployed, cluster: Cluster, action: JointDecision, state: InfrastructureState):
    (Cluster, Result<ExecutionResult, ProtocolError>)
    requires action.JointAction?
  {
    if action.semantic.operator !in setup.registry then (cluster, Err(UnknownOperator))
    else if !setup.semantics.admits(action.semantic) then (cluster, Err(InvalidAction))
    else
      match Resolution(
        action.physical, action.semantic, setup.registry[action.semantic.operator], setup.environment, state)
      case Err(code) => (cluster, Err(Unresolved(code)))
      case Ok(binding) =>
        if binding.agentId !in cluster then (cluster, Err(NoWorkerClient))
        else
          var (localized, pulled) := Localize(cluster, binding.agentId, action.semantic.inputs, IndexArtifacts(state));
          match pulled
          case Err(error) => (localized, Err(error))
          case Ok(transfers) => ExecuteAt(setup, localized, action.semantic, binding, transfers)
  }

  function ExecuteAt(
    setup: Deployed, localized: Cluster, action: SemanticAction, binding: Binding, transfers: seq<Transfer>):
    (Cluster, Result<ExecutionResult, ProtocolError>)
    requires binding.agentId in localized
  {
    var (after, output) := ExecuteOn(
      localized[binding.agentId], action, binding.deploymentId, SurfaceAt(setup, binding.agentId), setup.semantics);
    (localized[binding.agentId := after],
     match output
     case Err(error) => Err(AtWorker(error))
     case Ok(fields) => Ok(ExecutionResult(action.operator, binding.agentId, binding.deploymentId, fields, transfers)))
  }

  // ---------- Which actions are refused, and why ----------

  /** Why nothing was run: the first of these that holds. Nothing is touched then. */
  lemma RefusedUntouched(setup: Deployed, cluster: Cluster, action: JointDecision, state: InfrastructureState)
    requires action.JointAction?
    ensures var known := action.semantic.operator in setup.registry;
            var placed := known && setup.semantics.admits(action.semantic);
            && (!known <==> ExecuteAction(setup, cluster, action, state) == (cluster, Err(UnknownOperator)))
            && (known && !placed <==> ExecuteAction(setup, cluster, action, state) == (cluster, Err(InvalidAction)))
            && (placed ==>
              match Resolution(
                action.physical, action.semantic, setup.registry[action.semantic.operator], setup.environment, state)
              case Err(code) => ExecuteAction(setup, cluster, action, state) == (cluster, Err(Unresolved(code)))
              case Ok(binding) => binding.agentId !in cluster <==>
                ExecuteAction(setup, cluster, action, state) == (cluster, Err(NoWorkerClient)))
  {
    if action.semantic.operator in setup.registry {
      var r := Resolution(
        action.physical, action.semantic, setup.registry[action.semantic.operator], setup.environment, state);
      if r.Ok? && r.value.agentId in cluster && InputsKnown(action.semantic.inputs, IndexArtifacts(state)) {
        LocalizeFails(cluster, r.value.agentId, action.semantic.inputs, IndexArtifacts(state));
      }
    }
  }

  /** A pull that fails has no source to ask, or is refused at the worker. */
  lemma {:induction false} LocalizeFails(cluster: Cluster, target: Id, inputs: seq<Id>, index: ArtifactIndex)
    requires target in cluster && InputsKnown(inputs, index)
    ensures var pulled := Localize(cluster, target, inputs, index).1;
            pulled.Err? ==> pulled.error.NoReachableSource? || pulled.error.AtWorker?
    decreases |inputs|
  {
    if inputs != [] {
      if target in index[inputs[0]].locations {
        LocalizeFails(cluster, target, inputs[1..], index);
      } else {
        LocalizeFails(PullOne(cluster, target, inputs[0], index).0, target, inputs[1..], index);
      }
    }
  }

  // ---------- A stale snapshot moves nothing else ----------

  /** The store has the artifact, with the checksum that was observed if one was. */
  predicate AsKnown(store: Contents, id: Id, index: ArtifactIndex)
    requires id in index
  {
    && id in store && store[id].sha256Hex == Sha256(store[id].content)
    && (index[id].sha256Hex.Some? ==> store[id].sha256Hex == index[id].sha256Hex.value)
  }

  lemma PulledAsKnown(cluster: Cluster, target: Id, id: Id, index: ArtifactIndex)
    requires target in cluster && id in index && PullOne(cluster, target, id, index).1.Ok?
    ensures var left := PullOne(cluster, target, id, index).0;
            && AsKnown(left[target], id, index) && Extends(cluster[target], left[target])
            && (forall a :: a in cluster && a != target ==> left[a] == cluster[a])
  {
    var source := Least(Sources(index, id, cluster.Keys));
    PullMeans(cluster[target], cluster[source], id, index[id].sha256Hex);
  }

  /**
   Whatever snapshot inputs are localized by, and whatever the workers hold by then: after success each input that
   was not known to be at the target is there, with the checksum the snapshot had, and nothing was lost or replaced.
   */
  lemma {:induction false} LocalizedAsKnown(cluster: Cluster, target: Id, inputs: seq<Id>, index: ArtifactIndex)
    requires target in cluster && InputsKnown(inputs, index) && Localize(cluster, target, inputs, index).1.Ok?
    ensures var left := Localize(cluster, target, inputs, index).0;
            && (forall id :: id in inputs && target !in index[id].locations ==> AsKnown(left[target], id, index))
            && Extends(cluster[target], left[target])
            && (forall a :: a in cluster && a != target ==> left[a] == cluster[a])
    decreases |inputs|
  {
    if inputs != [] {
      var id, rest := inputs[0], inputs[1..];
      assert inputs == [id] + rest;
      if target in index[id].locations {
        LocalizedAsKnown(cluster, target, rest, index);
      } else {
        PulledAsKnown(cluster, target, id, index);
        LocalizedAsKnown(PullOne(cluster, target, id, index).0, target, rest, index);
      }
    }
  }
}
