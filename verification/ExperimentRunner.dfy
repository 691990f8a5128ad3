/**
 The experiment runner: it materializes the task's artifacts at their placements, runs the graph,
 and records a failure at the end of whatever trace the run left.
 */
module ExperimentRunner {
  import opened Basics
  import opened Sorting
  import opened CoreState
  import opened ArtifactStore
  import opened ModelBackend
  import opened WorkerServer
  import opened Validation
  import opened Protocol
  import opened Executor
  import opened PlanningTypes
  import opened PlanningGraph
  import opened PlanningRuntime
  import opened PlanningProperties
  import opened Refinement

  datatype PreparedArtifact = PreparedArtifact(content: Bytes, sha256Hex: string)

  /** Bytes made by a benchmark adapter, and files on disk. */
  datatype Supplies = Supplies(prepared: map<Id, PreparedArtifact>, files: map<Id, Bytes>)

  datatype RunnerError =
    | PlacementsDoNotCoverTask
    | NoMaterializationSource(id: Id)
    | SizeDiffers(id: Id)
    | UnknownAgent(agentId: Id)
    | RefusedBy(agentId: Id, error: WorkerError)

  function ArtifactContent(id: Id, supplies: Supplies): Result<PreparedArtifact, RunnerError> {
    if id in supplies.prepared then Ok(supplies.prepared[id])
    else if id in supplies.files then Ok(PreparedArtifact(supplies.files[id], Sha256(supplies.files[id])))
    else Err(NoMaterializationSource(id))
  }

  function AgentOf(placement: ArtifactPlacement): Id {
    placement.agentId
  }

  function Places(id: Id): ArtifactPlacement -> bool {
    (p: ArtifactPlacement) => p.artifactId == id
  }

  /** The agents an artifact is placed at, in declaration order and with repetitions. */
  function PlacedAt(placements: seq<ArtifactPlacement>, id: Id): seq<Id> {
    Map(AgentOf, Filter(Places(id), placements))
  }

  function PlacedIds(placements: seq<ArtifactPlacement>): set<Id> {
    set p | p in placements :: p.artifactId
  }

  function TaskIds(task: TaskContract): set<Id> {
    set a | a in task.artifacts :: a.artifactId
  }

  const CONTROLLER := "controller"

  type Materialized = Result<(Cluster, seq<Transfer>), RunnerError>

  function PutAt(
      cluster: Cluster, spec: ArtifactSpec, supply: PreparedArtifact, agentId: Id): Result<Cluster, RunnerError> {
    if agentId !in cluster then Err(UnknownAgent(agentId))
    else match Deliver(cluster[agentId], spec.artifactId, spec.mediaType, supply.content, Some(supply.sha256Hex))
      case Err(error) => Err(RefusedBy(agentId, error))
      case Ok(after) => Ok(cluster[agentId := after])
  }

  function PutAtAll(cluster: Cluster, spec: ArtifactSpec, supply: PreparedArtifact, agents: seq<Id>): Materialized
    decreases |agents|
  {
    if agents == [] then Ok((cluster, []))
    else
      var after :- PutAt(cluster, spec, supply, agents[0]);
      var rest :- PutAtAll(after, spec, supply, agents[1..]);
      Ok((rest.0, [Transfer(spec.artifactId, CONTROLLER, agents[0], |supply.content|)] + rest.1))
  }

  function SupplyFor(spec: ArtifactSpec, supplies: Supplies): Result<PreparedArtifact, RunnerError> {
    var supply :- ArtifactContent(spec.artifactId, supplies);
    if |supply.content| != spec.sizeBytes then Err(SizeDiffers(spec.artifactId)) else Ok(supply)
  }

  function MaterializeOne(
    cluster: Cluster, spec: ArtifactSpec, placements: seq<ArtifactPlacement>, supplies: Supplies): Materialized
  {
    var supply :- SupplyFor(spec, supplies);
    PutAtAll(cluster, spec, supply, SortIds(PlacedAt(placements, spec.artifactId)))
  }

  function MaterializeEach(
    cluster: Cluster, specs: seq<ArtifactSpec>, placements: seq<ArtifactPlacement>, supplies: Supplies): Materialized
    decreases |specs|
  {
    if specs == [] then Ok((cluster, []))
    else
      var first :- MaterializeOne(cluster, specs[0], placements, supplies);
      var rest :- MaterializeEach(first.0, specs[1..], placements, supplies);
      Ok((rest.0, first.1 + rest.1))
  }

  function MaterializeTask(
    cluster: Cluster, task: TaskContract, placements: seq<ArtifactPlacement>, supplies: Supplies): Materialized
  {
    if PlacedIds(placements) != TaskIds(task) then Err(PlacementsDoNotCoverTask)
    else MaterializeEach(cluster, task.artifacts, placements, supplies)
  }

  /** Everything before the graph: validate the workers' surfaces, then materialize. */
  function Startup(
    environment: EnvironmentSpec, registry: map<string, OperatorSpec>, states: Surfaces, cluster: Cluster,
    task: TaskContract, supplies: Supplies): Result<(Cluster, seq<Transfer>), Failure>
  {
    if !SurfacesMatch(environment, registry, states) then Err(Failure("surface_mismatch"))
    else Readied(MaterializeTask(cluster, task, environment.initialPlacements, supplies))
  }

  function Readied(materialized: Materialized): Result<(Cluster, seq<Transfer>), Failure> {
    match materialized
    case Ok(ready) => Ok(ready)
    case Err(_) => Err(INTERNAL)
  }

  // ---------- The runner as it runs ----------

  /** `done` transfers were made before `rest`. */
  function Following(done: seq<Transfer>, rest: Materialized): Materialized {
    match rest
    case Ok((cluster, transfers)) => Ok((cluster, done + transfers))
    case Err(error) => Err(error)
  }

  lemma FollowingTwice(first: seq<Transfer>, second: seq<Transfer>, rest: Materialized)
    ensures Following(first, Following(second, rest)) == Following(first + second, rest)
  {
    if rest.Ok? {
      ConcatAssociates(first, second, rest.value.1);
    }
  }

  lemma FollowingNone(rest: Materialized)
    ensures Following([], rest) == rest
  {
    if rest.Ok? {
      assert [] + rest.value.1 == rest.value.1;
    }
  }

  ghost predicate Grouped(grouped: map<Id, seq<Id>>, placements: seq<ArtifactPlacement>) {
    && (forall id :: id in grouped <==> id in PlacedIds(placements))
    && (forall id :: id in grouped ==> grouped[id] == PlacedAt(placements, id))
  }

  function GroupOne(grouped: map<Id, seq<Id>>, placement: ArtifactPlacement): map<Id, seq<Id>> {
    var soFar := if placement.artifactId in grouped then grouped[placement.artifactId] else [];
    grouped[placement.artifactId := soFar + [placement.agentId]]
  }

  lemma GroupedSnoc(grouped: map<Id, seq<Id>>, placements: seq<ArtifactPlacement>, placement: ArtifactPlacement)
    requires Grouped(grouped, placements)
    ensures Grouped(GroupOne(grouped, placement), placements + [placement])
  {
    PlacedHasAgent(placements, placement.artifactId);
    forall id | id in GroupOne(grouped, placement)
      ensures GroupOne(grouped, placement)[id] == PlacedAt(placements + [placement], id)
    {
      PlacedAtSnoc(placements, placement, id);
    }
    PlacedIdsSnoc(placements, placement);
  }

  lemma PlacedIdsSnoc(placements: seq<ArtifactPlacement>, placement: ArtifactPlacement)
    ensures PlacedIds(placements + [placement]) == PlacedIds(placements) + {placement.artifactId}
  {
    forall id
      ensures id in PlacedIds(placements + [placement]) <==> id in PlacedIds(placements) || id == placement.artifactId
    {
      if id in PlacedIds(placements) {
        var p :| p in placements && p.artifactId == id;
        assert p in placements + [placement];
      }
      if id == placement.artifactId {
        assert placement in placements + [placement];
      }
    }
  }

  method GroupPlacements(placements: seq<ArtifactPlacement>) returns (grouped: map<Id, seq<Id>>)
    ensures Grouped(grouped, placements) && grouped.Keys == PlacedIds(placements)
  {
    grouped := map[];
    for i := 0 to |placements|
      invariant Grouped(grouped, placements[..i])
    {
      var placement := placements[i];
      GroupedSnoc(grouped, placements[..i], placement);
      assert placements[..i + 1] == placements[..i] + [placement];
      var soFar := if placement.artifactId in grouped then grouped[placement.artifactId] else [];
      grouped := grouped[placement.artifactId := soFar + [placement.agentId]];
    }
    assert placements[..|placements|] == placements;
  }

  lemma PlacedAtSnoc(placements: seq<ArtifactPlacement>, placement: ArtifactPlacement, id: Id)
    ensures PlacedAt(placements + [placement], id) ==
            if id == placement.artifactId then PlacedAt(placements, id) + [placement.agentId]
            else PlacedAt(placements, id)
  {
    FilterSnoc(Places(id), placements, placement);
  }

  lemma PlacedHasAgent(placements: seq<ArtifactPlacement>, id: Id)
    ensures PlacedAt(placements, id) != [] ==> id in PlacedIds(placements)
  {
    var kept := Filter(Places(id), placements);
    FilterMembers(Places(id), placements);
    if kept != [] {
      assert kept[0] in placements && kept[0].artifactId == id;
    }
  }

  lemma PutNext(
    start: Materialized, done: seq<Transfer>, now: Cluster, spec: ArtifactSpec,
    supply: PreparedArtifact, agents: seq<Id>)
    requires agents != [] && start == Following(done, PutAtAll(now, spec, supply, agents))
    ensures var step := PutAt(now, spec, supply, agents[0]);
            var transfer := Transfer(spec.artifactId, CONTROLLER, agents[0], |supply.content|);
            if step.Err? then start == Err(step.error)
            else start == Following(done + [transfer], PutAtAll(step.value, spec, supply, agents[1..]))
  {
    var step := PutAt(now, spec, supply, agents[0]);
    if step.Ok? {
      var transfer := [Transfer(spec.artifactId, CONTROLLER, agents[0], |supply.content|)];
      var rest := PutAtAll(step.value, spec, supply, agents[1..]);
      assert PutAtAll(now, spec, supply, agents) == Following(transfer, rest);
      FollowingTwice(done, transfer, rest);
    }
  }

  lemma MaterializeNext(
    start: Materialized, done: seq<Transfer>, now: Cluster, specs: seq<ArtifactSpec>,
    placements: seq<ArtifactPlacement>, supplies: Supplies)
    requires specs != [] && start == Following(done, MaterializeEach(now, specs, placements, supplies))
    ensures var first := MaterializeOne(now, specs[0], placements, supplies);
            if first.Err? then start == Err(first.error)
            else start == Following(
              done + first.value.1, MaterializeEach(first.value.0, specs[1..], placements, supplies))
  {
    var first := MaterializeOne(now, specs[0], placements, supplies);
    if first.Ok? {
      var rest := MaterializeEach(first.value.0, specs[1..], placements, supplies);
      assert MaterializeEach(now, specs, placements, supplies) == Following(first.value.1, rest);
      FollowingTwice(done, first.value.1, rest);
    }
  }

  class BenchmarkRunner {
    const executor: RuntimeExecutor

    constructor (executor: RuntimeExecutor)
      ensures this.executor == executor
    {
      this.executor := executor;
    }

    method PutAtAgent(spec: ArtifactSpec, supply: PreparedArtifact, agentId: Id) returns (r: Result<nat, RunnerError>)
      requires executor.Valid()
      modifies set a | a in executor.workers :: executor.workers[a].store
      ensures executor.Valid()
      ensures match PutAt(old(executor.Now()), spec, supply, agentId)
              case Ok(after) => r == Ok(|supply.content|) && executor.Now() == after
              case Err(error) => r == Err(error)
    {
      assert executor.Now().Keys == executor.workers.Keys;
      if agentId !in executor.workers {
        return Err(UnknownAgent(agentId));
      }
      var response := executor.workers[agentId].PutArtifact(
        spec.artifactId, spec.mediaType, supply.content, Some(supply.sha256Hex));
      if response.Err? {
        return Err(RefusedBy(agentId, response.error));
      }
      assert executor.Now() == old(executor.Now())[agentId := executor.workers[agentId].store.artifacts];
      return Ok(response.value);
    }

    method PutAtEach(spec: ArtifactSpec, supply: PreparedArtifact, agents: seq<Id>)
      returns (r: Result<seq<Transfer>, RunnerError>)
      requires executor.Valid()
      modifies set a | a in executor.workers :: executor.workers[a].store
      ensures executor.Valid()
      ensures match PutAtAll(old(executor.Now()), spec, supply, agents)
              case Ok((after, transfers)) => r == Ok(transfers) && executor.Now() == after
              case Err(error) => r == Err(error)
    {
      var transfers: seq<Transfer> := [];
      ghost var start := PutAtAll(old(executor.Now()), spec, supply, agents);
      FollowingNone(start);
      assert agents[0..] == agents;
      for i := 0 to |agents|
        invariant executor.Valid()
        invariant start == Following(transfers, PutAtAll(executor.Now(), spec, supply, agents[i..]))
      {
        assert agents[i..][0] == agents[i] && agents[i..][1..] == agents[i + 1..];
        PutNext(start, transfers, executor.Now(), spec, supply, agents[i..]);
        var put := PutAtAgent(spec, supply, agents[i]);
        if put.Err? {
          return Err(put.error);
        }
        transfers := transfers + [Transfer(spec.artifactId, CONTROLLER, agents[i], put.value)];
      }
      assert agents[|agents|..] == [] && transfers + [] == transfers;
      return Ok(transfers);
    }

    method MaterializeSpecs(specs: seq<ArtifactSpec>, grouped: map<Id, seq<Id>>, supplies: Supplies)
      returns (r: Result<seq<Transfer>, RunnerError>)
      requires executor.Valid() && Grouped(grouped, executor.environment.initialPlacements)
      requires forall spec :: spec in specs ==> spec.artifactId in grouped
      modifies set a | a in executor.workers :: executor.workers[a].store
      ensures executor.Valid()
      ensures match MaterializeEach(old(executor.Now()), specs, executor.environment.initialPlacements, supplies)
              case Ok((after, transfers)) => r == Ok(transfers) && executor.Now() == after
              case Err(error) => r == Err(error)
    {
      ghost var placements := executor.environment.initialPlacements;
      var transfers: seq<Transfer> := [];
      ghost var start := MaterializeEach(old(executor.Now()), specs, placements, supplies);
      FollowingNone(start);
      assert specs[0..] == specs;
      for i := 0 to |specs|
        invariant executor.Valid()
        invariant start == Following(transfers, MaterializeEach(executor.Now(), specs[i..], placements, supplies))
      {
        assert specs[i..][0] == specs[i] && specs[i..][1..] == specs[i + 1..];
        MaterializeNext(start, transfers, executor.Now(), specs[i..], placements, supplies);
        var supply := SupplyFor(specs[i], supplies);
        if supply.Err? {
          return Err(supply.error);
        }
        var put := PutAtEach(specs[i], supply.value, SortIds(grouped[specs[i].artifactId]));
        if put.Err? {
          return Err(put.error);
        }
        transfers := transfers + put.value;
      }
      assert specs[|specs|..] == [] && transfers + [] == transfers;
      return Ok(transfers);
    }

    method Materialize(task: TaskContract, supplies: Supplies) returns (r: Result<seq<Transfer>, RunnerError>)
      requires executor.Valid()
      modifies set a | a in executor.workers :: executor.workers[a].store
      ensures executor.Valid()
      ensures match MaterializeTask(old(executor.Now()), task, executor.environment.initialPlacements, supplies)
              case Ok((after, transfers)) => r == Ok(transfers) && executor.Now() == after
              case Err(error) => r == Err(error)
    {
      var grouped := GroupPlacements(executor.environment.initialPlacements);
      if grouped.Keys != TaskIds(task) {
        return Err(PlacementsDoNotCoverTask);
      }
      forall spec | spec in task.artifacts ensures spec.artifactId in grouped {
        assert spec.artifactId in TaskIds(task);
      }
      r := MaterializeSpecs(task.artifacts, grouped, supplies);
    }

    /** The failure event continues the trace as read back, whatever it holds. */
    static method AppendFailureTrace(sink: TraceSink, runId: string, failure: Failure)
      modifies sink
      ensures sink.events == old(sink.events) + [FailureEvent(runId, old(sink.events), failure)]
    {
      sink.Append(FailureEvent(runId, sink.events, failure));
    }

    function States(): Surfaces {
      map a | a in executor.workers :: StateOf(executor.workers[a])
    }

    method CheckSurfaces(states: Surfaces) returns (accepted: bool)
      requires executor.environment.Valid()
      ensures accepted == SurfacesMatch(executor.environment, executor.registry, states)
    {
      var validated := ValidateWorkerSurfaces(executor.environment, executor.registry, states);
      return validated.Ok?;
    }

    method StartUp(states: Surfaces, task: TaskContract, supplies: Supplies)
      returns (r: Result<(Cluster, seq<Transfer>), Failure>)
      requires executor.Valid() && executor.environment.Valid()
      modifies set a | a in executor.workers :: executor.workers[a].store
      ensures executor.Valid()
      ensures r == Startup(executor.environment, executor.registry, states, old(executor.Now()), task, supplies)
      ensures r.Ok? ==> executor.Now() == r.value.0
    {
      var accepted := CheckSurfaces(states);
      if !accepted {
        return Err(Failure("surface_mismatch"));
      }
      var transfers := Materialize(task, supplies);
      return if transfers.Ok? then Ok((executor.Now(), transfers.value)) else Err(INTERNAL);
    }

    /** The graph, if startup got that far, and a failure on record if either failed. */
    static method RunAndRecord(
      graph: GraphRunner<Site>, runId: string, task: TaskContract, budget: nat,
      startup: Result<(Cluster, seq<Transfer>), Failure>)
      returns (r: Result<RunResult, Failure>)
      requires graph.sink.events == []
      modifies graph`world, graph.sink
      ensures r == OutcomeOf(graph.collaborators, runId, task, budget, startup)
      ensures graph.sink.events == RecordLeft(graph.collaborators, runId, task, budget, startup)
    {
      if startup.Err? {
        r := Err(startup.error);
      } else {
        graph.world := Site(startup.value.0, 0);
        r := graph.Run(runId, task, budget, startup.value.1);
      }
      if r.Err? {
        AppendFailureTrace(graph.sink, runId, r.error);
      }
    }

    /** A whole experiment: startup, then the graph over the cluster that startup left. */
    method Run(graph: GraphRunner<Site>, runId: string, task: TaskContract, budget: nat, supplies: Supplies)
      returns (r: Result<RunResult, Failure>)
      requires executor.Valid() && executor.environment.Valid() && graph.sink.events == []
      modifies set a | a in executor.workers :: executor.workers[a].store
      modifies graph`world, graph.sink
      ensures var startup := Startup(
                executor.environment, executor.registry, States(), old(executor.Now()), task, supplies);
              && r == OutcomeOf(graph.collaborators, runId, task, budget, startup)
              && graph.sink.events == RecordLeft(graph.collaborators, runId, task, budget, startup)
    {
      var startup := StartUp(States(), task, supplies);
      r := RunAndRecord(graph, runId, task, budget, startup);
    }
  }

  // ---------- What is left on record ----------

  function OutcomeOf(
    c: Collaborators<Site>, runId: string, task: TaskContract, budget: nat,
    startup: Result<(Cluster, seq<Transfer>), Failure>): Result<RunResult, Failure>
  {
    match startup
    case Err(failure) => Err(failure)
    case Ok((ready, transfers)) => RunGraph(c, Site(ready, 0), runId, task, budget, transfers).result
  }

  function RecordLeft(
    c: Collaborators<Site>, runId: string, task: TaskContract, budget: nat,
    startup: Result<(Cluster, seq<Transfer>), Failure>): seq<TraceEvent>
  {
    match startup
    case Err(failure) => [FailureEvent(runId, [], failure)]
    case Ok((ready, transfers)) =>
      var run := RunGraph(c, Site(ready, 0), runId, task, budget, transfers);
      if run.result.Ok? then run.events else run.events + [FailureEvent(runId, run.events, run.result.error)]
  }

  /**
   However an experiment ends, its trace is one chain of distinct step IDs, and it ends in `run.failed`
   exactly when the experiment failed, before the graph or inside it.
   */
  lemma RecordIsChain(
    c: Collaborators<Site>, runId: string, task: TaskContract, budget: nat,
    startup: Result<(Cluster, seq<Transfer>), Failure>)
    ensures var events := RecordLeft(c, runId, task, budget, startup);
            && Linear(runId, events) && DistinctSteps(events) && events != []
            && (OutcomeOf(c, runId, task, budget, startup).Err? <==> events[|events| - 1].payload.RunFailed?)
  {
    if startup.Err? {
      TraceLinearUnderAnyFailure(c, Site(map[], 0), runId, task, budget, [], startup.error);
    } else {
      RunRecorded(c, startup.value.0, runId, task, budget, startup.value.1);
    }
    StepIdsDistinct(runId, RecordLeft(c, runId, task, budget, startup));
  }

  lemma RunRecorded(
    c: Collaborators<Site>, ready: Cluster, runId: string, task: TaskContract, budget: nat, transfers: seq<Transfer>)
    ensures var run, events := RunGraph(c, Site(ready, 0), runId, task, budget, transfers),
                               RecordLeft(c, runId, task, budget, Ok((ready, transfers)));
            && Linear(runId, events) && events != []
            && (run.result.Err? <==> events[|events| - 1].payload.RunFailed?)
  {
    var run := RunGraph(c, Site(ready, 0), runId, task, budget, transfers);
    var failure := if run.result.Err? then run.result.error else Failure("");
    TraceLinearUnderAnyFailure(c, Site(ready, 0), runId, task, budget, transfers, failure);
    if run.result.Ok? {
      TraceRecoversRun(c, Site(ready, 0), runId, task, budget, transfers);
    }
  }

  /** Every worker keeps each deployment under that deployment's own ID. */
  ghost predicate OwnKeys(runner: BenchmarkRunner) {
    forall a, id :: a in runner.executor.workers && id in runner.executor.workers[a].surface.deployments ==>
      runner.executor.workers[a].surface.deployments[id].deploymentId == id
  }

  lemma OwnKeysValidated(runner: BenchmarkRunner)
    requires runner.executor.Valid() && runner.executor.environment.Valid() && OwnKeys(runner)
    requires SurfacesMatch(runner.executor.environment, runner.executor.registry, runner.States())
    ensures Validated(runner.executor.Setup())
  {
    var environment, registry, states := runner.executor.environment, runner.executor.registry, runner.States();
    var setup := runner.executor.Setup();
    forall spec | spec in environment.agents
      ensures SurfaceAt(setup, spec.agentId).operators == ExpectedOperators(spec.capabilities, registry)
    {
      ValidatedOperators(environment, registry, states, spec);
    }
    forall d | d in environment.deployments
      ensures d.deploymentId in SurfaceAt(setup, d.agentId).deployments
      ensures SameContract(d, SurfaceAt(setup, d.agentId).deployments[d.deploymentId])
    {
      DeclaredAgent(environment, d.agentId);
      ValidatedContracts(environment, registry, states, d);
      RekeyExact(WorkerDeploymentKey, SurfaceAt(setup, d.agentId).deployments);
    }
  }

  lemma WorkerAnswers(runner: BenchmarkRunner, a: Id)
    requires runner.executor.Valid() && a in runner.executor.workers
    ensures a in runner.States() && runner.States()[a].agentId == a
    ensures var surface := runner.executor.workers[a].surface;
            && surface.Valid() && runner.States()[a].deployments == Listed(surface.deployments)
            && SurfaceAt(runner.executor.Setup(), a) == surface
  {
    assert runner.executor.workers[a].Valid();
  }

  lemma DeclaredOwnKey(setup: Deployed, d: DeploymentSpec)
    requires Validated(setup) && d in setup.environment.deployments
    ensures d.deploymentId in SurfaceAt(setup, d.agentId).deployments
    ensures SurfaceAt(setup, d.agentId).deployments[d.deploymentId].deploymentId == d.deploymentId
  {
  }

  lemma ValidatedOwnKey(runner: BenchmarkRunner, a: Id, id: Id)
    requires runner.executor.Valid() && Validated(runner.executor.Setup())
    requires SurfacesMatch(runner.executor.environment, runner.executor.registry, runner.States())
    requires a in runner.executor.workers && id in runner.executor.workers[a].surface.deployments
    ensures runner.executor.workers[a].surface.deployments[id].deploymentId == id
  {
    WorkerAnswers(runner, a);
    var d := ServedIsDeclared(
      runner.executor.environment, runner.executor.registry, runner.States(), a,
      runner.executor.workers[a].surface, id);
    DeclaredOwnKey(runner.executor.Setup(), d);
  }

  /**
   What startup accepts is what was declared exactly when every worker keeps each deployment under that
   deployment's own ID: a worker only checks that keys and IDs are the same set.
   */
  lemma StartupValidates(runner: BenchmarkRunner)
    requires runner.executor.Valid() && runner.executor.environment.Valid()
    requires SurfacesMatch(runner.executor.environment, runner.executor.registry, runner.States())
    ensures Validated(runner.executor.Setup()) <==> OwnKeys(runner)
  {
    if OwnKeys(runner) {
      OwnKeysValidated(runner);
    }
    if Validated(runner.executor.Setup()) {
      forall a, id | a in runner.executor.workers && id in runner.executor.workers[a].surface.deployments
        ensures runner.executor.workers[a].surface.deployments[id].deploymentId == id
      {
        ValidatedOwnKey(runner, a, id);
      }
    }
  }

  /** Each declared agent has a worker that offers what is declared of it, and no other worker answers. */
  ghost predicate AsDeclared(runner: BenchmarkRunner)
    reads set a | a in runner.executor.workers :: runner.executor.workers[a]
  {
    AllAsDeclared(runner.executor.environment, runner.executor.registry, runner.States())
  }

  lemma OwnStates(runner: BenchmarkRunner)
    requires runner.executor.Valid()
    ensures forall a :: a in runner.States() ==> runner.States()[a].agentId == a
  {
    forall a | a in runner.executor.workers ensures runner.States()[a].agentId == a {
      WorkerAnswers(runner, a);
    }
  }

  lemma MatchIffDeclared(runner: BenchmarkRunner)
    requires runner.executor.Valid() && runner.executor.environment.Valid()
    ensures SurfacesMatch(runner.executor.environment, runner.executor.registry, runner.States()) <==>
            AsDeclared(runner)
  {
    OwnStates(runner);
    AcceptedIffDeclared(runner.executor.environment, runner.executor.registry, runner.States());
  }

  /** Startup goes through iff the workers are as declared and the task materializes, to what that leaves. */
  lemma StartsIff(
      runner: BenchmarkRunner, cluster: Cluster, task: TaskContract, supplies: Supplies, left: Cluster,
      made: seq<Transfer>)
    requires runner.executor.Valid() && runner.executor.environment.Valid()
    ensures Startup(runner.executor.environment, runner.executor.registry, runner.States(), cluster, task, supplies) ==
            Ok((left, made)) <==>
            && AsDeclared(runner)
            && MaterializeTask(cluster, task, runner.executor.environment.initialPlacements, supplies) ==
               Ok((left, made))
  {
    MatchIffDeclared(runner);
  }

  /** Workers that are not as declared end the experiment before anything is put, with that on record alone. */
  lemma MismatchRecorded(
    runner: BenchmarkRunner, c: Collaborators<Site>, runId: string, cluster: Cluster, task: TaskContract,
    budget: nat, supplies: Supplies)
    requires runner.executor.Valid() && runner.executor.environment.Valid() && !AsDeclared(runner)
    ensures var startup := Startup(
              runner.executor.environment, runner.executor.registry, runner.States(), cluster, task, supplies);
            var mismatch := Failure("surface_mismatch");
            && OutcomeOf(c, runId, task, budget, startup) == Err(mismatch)
            && RecordLeft(c, runId, task, budget, startup) ==
               [TraceEvent(runId, StepId(0, RunFailure), None, RunFailed(mismatch))]
  {
    MatchIffDeclared(runner);
  }

  // ---------- What materialization establishes ----------

  function ArtifactOf(spec: ArtifactSpec, supply: PreparedArtifact): StoredArtifact {
    StoredArtifact(spec.artifactId, StripParameters(spec.mediaType), supply.content, Sha256(supply.content))
  }

  /** The artifacts of a task whose supplies are all there. */
  function TaskArtifacts(specs: seq<ArtifactSpec>, supplies: Supplies): Result<seq<StoredArtifact>, RunnerError> {
    if specs == [] then Ok([])
    else
      var supply :- SupplyFor(specs[0], supplies);
      var rest :- TaskArtifacts(specs[1..], supplies);
      Ok([ArtifactOf(specs[0], supply)] + rest)
  }

  lemma PutAtReplicates(cluster: Cluster, spec: ArtifactSpec, supply: PreparedArtifact, agentId: Id, store: Contents)
    requires ValidCluster(cluster) && Replicates(cluster, store)
    requires PutAt(cluster, spec, supply, agentId).Ok? && Put(store, ArtifactOf(spec, supply)).Ok?
    ensures ValidCluster(PutAt(cluster, spec, supply, agentId).value)
    ensures Replicates(PutAt(cluster, spec, supply, agentId).value, Put(store, ArtifactOf(spec, supply)).value)
  {
    var artifact := ArtifactOf(spec, supply);
    assert PutAll(cluster[agentId], [artifact]) == Put(cluster[agentId], artifact);
    assert PutAll(store, [artifact]) == Put(store, artifact);
    PutKeepsValid(cluster, agentId, [artifact]);
    PutsAgree(cluster, agentId, [artifact], store);
  }

  lemma PutAtAllUnfolds(cluster: Cluster, spec: ArtifactSpec, supply: PreparedArtifact, agents: seq<Id>)
    requires agents != [] && PutAtAll(cluster, spec, supply, agents).Ok?
    ensures var step := PutAt(cluster, spec, supply, agents[0]);
            var transfer := Transfer(spec.artifactId, CONTROLLER, agents[0], |supply.content|);
            && step.Ok?
            && (var rest := PutAtAll(step.value, spec, supply, agents[1..]);
                rest.Ok? && PutAtAll(cluster, spec, supply, agents) == Ok((rest.value.0, [transfer] + rest.value.1)))
  {
  }

  function Deliveries(spec: ArtifactSpec, bytes: nat, agents: seq<Id>): seq<Transfer> {
    Map(agentId => Transfer(spec.artifactId, CONTROLLER, agentId, bytes), agents)
  }

  lemma {:induction false} PutAtAllTransfers(
      cluster: Cluster, spec: ArtifactSpec, supply: PreparedArtifact, agents: seq<Id>)
    requires PutAtAll(cluster, spec, supply, agents).Ok?
    ensures PutAtAll(cluster, spec, supply, agents).value.1 == Deliveries(spec, |supply.content|, agents)
    decreases |agents|
  {
    if agents != [] {
      PutAtAllUnfolds(cluster, spec, supply, agents);
      PutAtAllTransfers(PutAt(cluster, spec, supply, agents[0]).value, spec, supply, agents[1..]);
    }
  }

  lemma {:induction false} PutAtAllReplicates(
    cluster: Cluster, spec: ArtifactSpec, supply: PreparedArtifact, agents: seq<Id>, store: Contents)
    requires ValidCluster(cluster) && Replicates(cluster, store)
    requires agents != [] && PutAtAll(cluster, spec, supply, agents).Ok? && Put(store, ArtifactOf(spec, supply)).Ok?
    ensures var after := PutAtAll(cluster, spec, supply, agents).value.0;
            && ValidCluster(after) && Replicates(after, Put(store, ArtifactOf(spec, supply)).value)
    decreases |agents|
  {
    PutAtAllUnfolds(cluster, spec, supply, agents);
    PutAtReplicates(cluster, spec, supply, agents[0], store);
    var after, grown := PutAt(cluster, spec, supply, agents[0]).value, Put(store, ArtifactOf(spec, supply)).value;
    if agents[1..] != [] {
      assert Put(grown, ArtifactOf(spec, supply)) == Ok(grown);
      PutAtAllReplicates(after, spec, supply, agents[1..], grown);
    }
  }

  /** One transfer per placement of each artifact, agents in ID order. */
  function ExpectedTransfers(specs: seq<ArtifactSpec>, placements: seq<ArtifactPlacement>): seq<Transfer> {
    if specs == [] then []
    else
      Deliveries(specs[0], specs[0].sizeBytes, SortIds(PlacedAt(placements, specs[0].artifactId)))
      + ExpectedTransfers(specs[1..], placements)
  }

  lemma PlacedSomewhere(placements: seq<ArtifactPlacement>, id: Id)
    requires id in PlacedIds(placements)
    ensures SortIds(PlacedAt(placements, id)) != []
  {
    var p :| p in placements && p.artifactId == id;
    var kept := Filter(Places(id), placements);
    FilterMember(Places(id), placements, p);
    assert |SortIds(PlacedAt(placements, id))| == |PlacedAt(placements, id)|;
  }

  lemma {:induction false} MaterializeEachReplicates(
    cluster: Cluster, specs: seq<ArtifactSpec>, placements: seq<ArtifactPlacement>, supplies: Supplies, store: Contents)
    requires ValidCluster(cluster) && Replicates(cluster, store)
    requires forall spec :: spec in specs ==> spec.artifactId in PlacedIds(placements)
    requires MaterializeEach(cluster, specs, placements, supplies).Ok?
    requires TaskArtifacts(specs, supplies).Ok? ==> PutAll(store, TaskArtifacts(specs, supplies).value).Ok?
    ensures TaskArtifacts(specs, supplies).Ok?
    ensures var (after, transfers) := MaterializeEach(cluster, specs, placements, supplies).value;
            && ValidCluster(after)
            && Replicates(after, PutAll(store, TaskArtifacts(specs, supplies).value).value)
            && transfers == ExpectedTransfers(specs, placements)
    decreases |specs|
  {
    if specs != [] {
      MaterializeHead(cluster, specs, placements, supplies, store);
      var supply := SupplyFor(specs[0], supplies).value;
      var agents := SortIds(PlacedAt(placements, specs[0].artifactId));
      PlacedSomewhere(placements, specs[0].artifactId);
      PutAtAllReplicates(cluster, specs[0], supply, agents, store);
      PutAtAllTransfers(cluster, specs[0], supply, agents);
      MaterializeEachReplicates(
        PutAtAll(cluster, specs[0], supply, agents).value.0, specs[1..], placements, supplies,
        Put(store, ArtifactOf(specs[0], supply)).value);
    }
  }

  lemma {:induction false} SuppliesSuffice(
    cluster: Cluster, specs: seq<ArtifactSpec>, placements: seq<ArtifactPlacement>, supplies: Supplies)
    requires MaterializeEach(cluster, specs, placements, supplies).Ok?
    ensures TaskArtifacts(specs, supplies).Ok?
    decreases |specs|
  {
    if specs != [] {
      var supply := SupplyFor(specs[0], supplies).value;
      var agents := SortIds(PlacedAt(placements, specs[0].artifactId));
      SuppliesSuffice(PutAtAll(cluster, specs[0], supply, agents).value.0, specs[1..], placements, supplies);
    }
  }

  lemma MaterializeHead(
    cluster: Cluster, specs: seq<ArtifactSpec>, placements: seq<ArtifactPlacement>, supplies: Supplies, store: Contents)
    requires specs != [] && MaterializeEach(cluster, specs, placements, supplies).Ok?
    requires TaskArtifacts(specs, supplies).Ok? ==> PutAll(store, TaskArtifacts(specs, supplies).value).Ok?
    ensures SupplyFor(specs[0], supplies).Ok? && TaskArtifacts(specs[1..], supplies).Ok?
    ensures var artifact := ArtifactOf(specs[0], SupplyFor(specs[0], supplies).value);
            && Put(store, artifact).Ok?
            && PutAll(store, TaskArtifacts(specs, supplies).value) ==
               PutAll(Put(store, artifact).value, TaskArtifacts(specs[1..], supplies).value)
  {
    SuppliesSuffice(cluster, specs, placements, supplies);
    var all := TaskArtifacts(specs, supplies).value;
    assert all[1..] == TaskArtifacts(specs[1..], supplies).value;
  }

  lemma {:induction false} TaskArtifactIds(specs: seq<ArtifactSpec>, supplies: Supplies)
    requires TaskArtifacts(specs, supplies).Ok?
    ensures var artifacts := TaskArtifacts(specs, supplies).value;
            |artifacts| == |specs| && forall i :: 0 <= i < |specs| ==> artifacts[i].artifactId == specs[i].artifactId
  {
    if specs != [] {
      TaskArtifactIds(specs[1..], supplies);
    }
  }

  function SpecKey(spec: ArtifactSpec): Id {
    spec.artifactId
  }

  /** Unique artifact IDs never conflict in a fresh store. */
  lemma TaskArtifactsAccepted(task: TaskContract, supplies: Supplies)
    requires NoDuplicates(Map(SpecKey, task.artifacts)) && TaskArtifacts(task.artifacts, supplies).Ok?
    ensures PutAll(map[], TaskArtifacts(task.artifacts, supplies).value).Ok?
  {
    var artifacts := TaskArtifacts(task.artifacts, supplies).value;
    TaskArtifactIds(task.artifacts, supplies);
    forall a, b | a in artifacts && b in artifacts && a.artifactId == b.artifactId ensures a == b {
      var i :| 0 <= i < |artifacts| && artifacts[i] == a;
      var j :| 0 <= j < |artifacts| && artifacts[j] == b;
      assert Map(SpecKey, task.artifacts)[i] == Map(SpecKey, task.artifacts)[j];
    }
    PutAllAccepts(map[], artifacts);
  }

  /**
   Materializing a task on empty workers leaves replicas of exactly its artifacts, in agreement, by
   one transfer per placement: the state from which a run refines a run over one store.
   */
  lemma MaterializedTaskIsOneStore(
    cluster: Cluster, task: TaskContract, placements: seq<ArtifactPlacement>, supplies: Supplies)
    requires forall a :: a in cluster ==> cluster[a] == map[]
    requires NoDuplicates(Map(SpecKey, task.artifacts))
    requires MaterializeTask(cluster, task, placements, supplies).Ok?
    ensures TaskArtifacts(task.artifacts, supplies).Ok?
    ensures var (after, transfers) := MaterializeTask(cluster, task, placements, supplies).value;
            var artifacts := TaskArtifacts(task.artifacts, supplies).value;
            && PutAll(map[], artifacts).Ok?
            && Union(after) == PutAll(map[], artifacts).value
            && Agreeing(after) && ValidCluster(after)
            && transfers == ExpectedTransfers(task.artifacts, placements)
  {
    SuppliesSuffice(cluster, task.artifacts, placements, supplies);
    TaskArtifactsAccepted(task, supplies);
    forall spec | spec in task.artifacts ensures spec.artifactId in PlacedIds(placements) {
      assert spec.artifactId in TaskIds(task);
    }
    assert Replicates(cluster, map[]);
    MaterializeEachReplicates(cluster, task.artifacts, placements, supplies, map[]);
    OnlyUnion(MaterializeTask(cluster, task, placements, supplies).value.0,
              PutAll(map[], TaskArtifacts(task.artifacts, supplies).value).value);
  }

  lemma OnlyUnion(cluster: Cluster, store: Contents)
    requires Replicates(cluster, store)
    ensures Agreeing(cluster) && Union(cluster) == store
  {
    ReplicatesAgrees(cluster, store);
    UnionReplicates(cluster);
    ReplicatesUnique(cluster, Union(cluster), store);
  }

  // ---------- What is where, placement by placement ----------

  ghost predicate Placed(placements: seq<ArtifactPlacement>, id: Id, agentId: Id) {
    exists p :: p in placements && p.artifactId == id && p.agentId == agentId
  }

  lemma PlacedAtMeans(placements: seq<ArtifactPlacement>, id: Id, agentId: Id)
    ensures agentId in SortIds(PlacedAt(placements, id)) <==> Placed(placements, id, agentId)
  {
    var kept := Filter(Places(id), placements);
    FilterMembers(Places(id), placements);
    assert multiset(SortIds(PlacedAt(placements, id))) == multiset(PlacedAt(placements, id));
    assert agentId in SortIds(PlacedAt(placements, id)) <==> agentId in multiset(PlacedAt(placements, id));
    if agentId in PlacedAt(placements, id) {
      var k :| 0 <= k < |kept| && PlacedAt(placements, id)[k] == agentId;
      assert kept[k] in kept;
    }
    if Placed(placements, id, agentId) {
      var p :| p in placements && p.artifactId == id && p.agentId == agentId;
      var k :| 0 <= k < |kept| && kept[k] == p;
      assert PlacedAt(placements, id)[k] == agentId;
    }
  }

  /** The same artifact is put at every agent listed, each of them a worker, and nothing else is touched. */
  lemma {:induction false} PutAtAllAt(
      cluster: Cluster, spec: ArtifactSpec, supply: PreparedArtifact, agents: seq<Id>, a: Id)
    requires PutAtAll(cluster, spec, supply, agents).Ok? && a in cluster
    ensures var after := PutAtAll(cluster, spec, supply, agents).value.0;
            && after.Keys == cluster.Keys
            && (forall g :: g in agents ==> g in cluster)
            && after[a] == if a in agents then cluster[a][spec.artifactId := ArtifactOf(spec, supply)] else cluster[a]
    ensures agents != [] ==> supply.sha256Hex == Sha256(supply.content)
    decreases |agents|
  {
    if agents != [] {
      PutAtAllUnfolds(cluster, spec, supply, agents);
      var first := agents[0];
      DeliverMeans(
        cluster[first], spec.artifactId, spec.mediaType, supply.content, Some(supply.sha256Hex));
      var step := PutAt(cluster, spec, supply, first).value;
      assert step == cluster[first := cluster[first][spec.artifactId := ArtifactOf(spec, supply)]];
      PutAtAllAt(step, spec, supply, agents[1..], a);
      assert agents == [first] + agents[1..];
    }
  }

  /** What a worker holds under an ID: the artifact if one of `specs` put it there, and otherwise what it had. */
  lemma {:induction false} EachWherePlaced(
    cluster: Cluster, specs: seq<ArtifactSpec>, placements: seq<ArtifactPlacement>, supplies: Supplies, a: Id, id: Id)
    requires NoDuplicates(Map(SpecKey, specs)) && a in cluster
    requires MaterializeEach(cluster, specs, placements, supplies).Ok?
    ensures var after := MaterializeEach(cluster, specs, placements, supplies).value.0;
            && after.Keys == cluster.Keys
            && (id !in Map(SpecKey, specs) || !Placed(placements, id, a) ==>
                (id in after[a] <==> id in cluster[a]) && (id in after[a] ==> after[a][id] == cluster[a][id]))
            && (forall spec :: spec in specs && spec.artifactId == id && Placed(placements, id, a) ==>
                  SupplyFor(spec, supplies).Ok? && id in after[a]
                  && after[a][id] == ArtifactOf(spec, SupplyFor(spec, supplies).value))
    decreases |specs|
  {
    if specs != [] {
      var spec, rest := specs[0], specs[1..];
      var supply := SupplyFor(spec, supplies).value;
      var agents := SortIds(PlacedAt(placements, spec.artifactId));
      var first := PutAtAll(cluster, spec, supply, agents).value.0;
      PutAtAllAt(cluster, spec, supply, agents, a);
      PlacedAtMeans(placements, spec.artifactId, a);
      KeysOfRest(specs);
      EachWherePlaced(first, rest, placements, supplies, a, id);
      assert specs == [spec] + rest;
    }
  }

  lemma KeysOfRest(specs: seq<ArtifactSpec>)
    requires specs != [] && NoDuplicates(Map(SpecKey, specs))
    ensures NoDuplicates(Map(SpecKey, specs[1..])) && specs[0].artifactId !in Map(SpecKey, specs[1..])
    ensures forall id :: id in Map(SpecKey, specs) <==> id == specs[0].artifactId || id in Map(SpecKey, specs[1..])
    ensures forall spec :: spec in specs[1..] ==> spec.artifactId in Map(SpecKey, specs[1..])
  {
    var ids, rest := Map(SpecKey, specs), Map(SpecKey, specs[1..]);
    assert ids == [specs[0].artifactId] + rest;
    forall spec | spec in specs[1..] ensures spec.artifactId in rest {
      var i :| 0 <= i < |specs[1..]| && specs[1..][i] == spec;
      assert rest[i] == spec.artifactId;
    }
  }

  lemma SuppliedContent(spec: ArtifactSpec, supplies: Supplies)
    requires SupplyFor(spec, supplies).Ok?
    ensures var supply := SupplyFor(spec, supplies).value;
            && |supply.content| == spec.sizeBytes
            && (if spec.artifactId in supplies.prepared then supply == supplies.prepared[spec.artifactId]
                else spec.artifactId in supplies.files && supply.content == supplies.files[spec.artifactId])
  {
  }

  /**
   On empty workers, a materialized task has each artifact at exactly the workers it is placed at, with the bytes
   the adapter prepared or else those of the file, of the declared size, as the declared media type without its
   parameters.
   */
  lemma MaterializedWherePlaced(
    cluster: Cluster, task: TaskContract, placements: seq<ArtifactPlacement>, supplies: Supplies, a: Id, id: Id)
    requires forall g :: g in cluster ==> cluster[g] == map[]
    requires NoDuplicates(Map(SpecKey, task.artifacts)) && a in cluster
    requires MaterializeTask(cluster, task, placements, supplies).Ok?
    ensures var after := MaterializeTask(cluster, task, placements, supplies).value.0;
            && after.Keys == cluster.Keys
            && (id in after[a] <==> Placed(placements, id, a))
            && forall spec :: spec in task.artifacts && spec.artifactId == id && id in after[a] ==>
                 && (id in supplies.prepared || id in supplies.files)
                 && var content :=
                      if id in supplies.prepared then supplies.prepared[id].content else supplies.files[id];
                    && |content| == spec.sizeBytes
                    && after[a][id] == StoredArtifact(id, StripParameters(spec.mediaType), content, Sha256(content))
  {
    EachWherePlaced(cluster, task.artifacts, placements, supplies, a, id);
    if Placed(placements, id, a) {
      var p :| p in placements && p.artifactId == id && p.agentId == a;
      assert p.artifactId in PlacedIds(placements);
      var spec :| spec in task.artifacts && spec.artifactId == id;
    }
    forall spec | spec in task.artifacts && SupplyFor(spec, supplies).Ok?
      ensures |SupplyFor(spec, supplies).value.content| == spec.sizeBytes
    {
      SuppliedContent(spec, supplies);
    }
  }

  /** An artifact can be put: it has an ID and a media type, and bytes of the declared size and checksum. */
  predicate Suppliable(spec: ArtifactSpec, supplies: Supplies) {
    && spec.artifactId != "" && StripParameters(spec.mediaType) != ""
    && SupplyFor(spec, supplies).Ok?
    && var supply := SupplyFor(spec, supplies).value; supply.sha256Hex == Sha256(supply.content)
  }

  lemma {:induction false} PutAtAllAccepted(
      cluster: Cluster, spec: ArtifactSpec, supplies: Supplies, agents: seq<Id>)
    requires SupplyFor(spec, supplies).Ok? && agents != []
    ensures var supply := SupplyFor(spec, supplies).value;
            PutAtAll(cluster, spec, supply, agents).Ok? ==>
            Suppliable(spec, supplies) && forall g :: g in agents ==> g in cluster
    ensures var supply := SupplyFor(spec, supplies).value;
            && Suppliable(spec, supplies)
            && (forall g :: g in agents ==> g in cluster)
            && (forall g :: g in agents && spec.artifactId in cluster[g] ==>
                  cluster[g][spec.artifactId] == ArtifactOf(spec, supply))
            ==> PutAtAll(cluster, spec, supply, agents).Ok?
    decreases |agents|
  {
    var supply := SupplyFor(spec, supplies).value;
    var first := agents[0];
    assert agents == [first] + agents[1..];
    if first in cluster {
      DeliverMeans(
        cluster[first], spec.artifactId, spec.mediaType, supply.content, Some(supply.sha256Hex));
      var step := PutAt(cluster, spec, supply, first);
      if step.Ok? && agents[1..] != [] {
        assert step.value == cluster[first := cluster[first][spec.artifactId := ArtifactOf(spec, supply)]];
        PutAtAllAccepted(step.value, spec, supplies, agents[1..]);
      }
    }
  }

  predicate AllSuppliable(specs: seq<ArtifactSpec>, supplies: Supplies) {
    forall spec :: spec in specs ==> Suppliable(spec, supplies)
  }

  predicate Reachable(cluster: Cluster, specs: seq<ArtifactSpec>, placements: seq<ArtifactPlacement>) {
    forall spec, g :: spec in specs && g in SortIds(PlacedAt(placements, spec.artifactId)) ==> g in cluster
  }

  /** Putting the first artifact adds no worker and none of the others' IDs. */
  lemma FirstLeavesRest(cluster: Cluster, specs: seq<ArtifactSpec>, supply: PreparedArtifact, agents: seq<Id>)
    requires specs != [] && NoDuplicates(Map(SpecKey, specs)) && agents != [] && agents[0] in cluster
    requires PutAtAll(cluster, specs[0], supply, agents).Ok?
    requires forall a, spec :: a in cluster && spec in specs ==> spec.artifactId !in cluster[a]
    ensures var left := PutAtAll(cluster, specs[0], supply, agents).value.0;
            && left.Keys == cluster.Keys
            && (forall a, spec :: a in left && spec in specs[1..] ==> spec.artifactId !in left[a])
  {
    var left := PutAtAll(cluster, specs[0], supply, agents).value.0;
    KeysOfRest(specs);
    PutAtAllAt(cluster, specs[0], supply, agents, agents[0]);
    forall a, spec | a in left && spec in specs[1..] ensures spec.artifactId !in left[a] {
      PutAtAllAt(cluster, specs[0], supply, agents, a);
      assert spec in specs;
    }
  }

  lemma FirstAndRest(
    cluster: Cluster, specs: seq<ArtifactSpec>, placements: seq<ArtifactPlacement>, supplies: Supplies, left: Cluster)
    requires specs != [] && left.Keys == cluster.Keys
    ensures AllSuppliable(specs, supplies) <==> Suppliable(specs[0], supplies) && AllSuppliable(specs[1..], supplies)
    ensures Reachable(cluster, specs, placements) <==>
      && (forall g :: g in SortIds(PlacedAt(placements, specs[0].artifactId)) ==> g in cluster)
      && Reachable(left, specs[1..], placements)
  {
    assert forall spec :: spec in specs <==> spec == specs[0] || spec in specs[1..];
  }

  lemma {:induction false} EachAccepted(
    cluster: Cluster, specs: seq<ArtifactSpec>, placements: seq<ArtifactPlacement>, supplies: Supplies)
    requires NoDuplicates(Map(SpecKey, specs))
    requires forall spec :: spec in specs ==> SortIds(PlacedAt(placements, spec.artifactId)) != []
    requires forall a, spec :: a in cluster && spec in specs ==> spec.artifactId !in cluster[a]
    ensures MaterializeEach(cluster, specs, placements, supplies).Ok? <==>
            AllSuppliable(specs, supplies) && Reachable(cluster, specs, placements)
    decreases |specs|
  {
    if specs != [] {
      var spec, rest := specs[0], specs[1..];
      KeysOfRest(specs);
      FirstAndRest(cluster, specs, placements, supplies, cluster);
      if SupplyFor(spec, supplies).Ok? {
        var supply, agents := SupplyFor(spec, supplies).value, SortIds(PlacedAt(placements, spec.artifactId));
        PutAtAllAccepted(cluster, spec, supplies, agents);
        var first := PutAtAll(cluster, spec, supply, agents);
        if first.Ok? {
          FirstLeavesRest(cluster, specs, supply, agents);
          FirstAndRest(cluster, specs, placements, supplies, first.value.0);
          EachAccepted(first.value.0, rest, placements, supplies);
        }
      }
    }
  }

  /**
   A task materializes on empty workers iff its artifacts are the placed ones, each can be put, and every
   placement names a worker.
   */
  lemma MaterializesIff(
    cluster: Cluster, task: TaskContract, placements: seq<ArtifactPlacement>, supplies: Supplies)
    requires forall g :: g in cluster ==> cluster[g] == map[]
    requires NoDuplicates(Map(SpecKey, task.artifacts))
    ensures MaterializeTask(cluster, task, placements, supplies).Ok? <==>
            && (forall id :: id in PlacedIds(placements) <==> id in Map(SpecKey, task.artifacts))
            && (forall spec :: spec in task.artifacts ==> Suppliable(spec, supplies))
            && (forall p :: p in placements ==> p.agentId in cluster)
  {
    TaskIdsAreKeys(task);
    if PlacedIds(placements) == TaskIds(task) {
      forall spec | spec in task.artifacts ensures SortIds(PlacedAt(placements, spec.artifactId)) != [] {
        assert spec.artifactId in TaskIds(task);
        PlacedSomewhere(placements, spec.artifactId);
      }
      EachAccepted(cluster, task.artifacts, placements, supplies);
      ReachableMeans(cluster, task, placements);
    }
  }

  lemma TaskIdsAreKeys(task: TaskContract)
    ensures forall id :: id in TaskIds(task) <==> id in Map(SpecKey, task.artifacts)
  {
    forall id | id in TaskIds(task) ensures id in Map(SpecKey, task.artifacts) {
      var i :| 0 <= i < |task.artifacts| && task.artifacts[i].artifactId == id;
      assert Map(SpecKey, task.artifacts)[i] == id;
    }
    forall id | id in Map(SpecKey, task.artifacts) ensures id in TaskIds(task) {
      var i :| 0 <= i < |task.artifacts| && Map(SpecKey, task.artifacts)[i] == id;
      assert task.artifacts[i] in task.artifacts;
    }
  }

  lemma ReachableMeans(cluster: Cluster, task: TaskContract, placements: seq<ArtifactPlacement>)
    requires PlacedIds(placements) == TaskIds(task)
    ensures Reachable(cluster, task.artifacts, placements) <==> forall p :: p in placements ==> p.agentId in cluster
  {
    forall p | p in placements
      ensures exists spec :: spec in task.artifacts && p.agentId in SortIds(PlacedAt(placements, spec.artifactId))
    {
      assert p.artifactId in PlacedIds(placements);
      var spec :| spec in task.artifacts && spec.artifactId == p.artifactId;
      PlacedAtMeans(placements, spec.artifactId, p.agentId);
    }
    forall spec, g | spec in task.artifacts && g in SortIds(PlacedAt(placements, spec.artifactId))
      ensures exists p :: p in placements && p.agentId == g
    {
      PlacedAtMeans(placements, spec.artifactId, g);
    }
  }

  /**
   End to end: an experiment started on empty workers, once its task is materialized, goes as the same
   run would over one store loaded with the task's artifacts, its model requests answered by the same
   deployments, and ends as that run does unless a step could not be carried out.
   */
  lemma ExperimentRefinesSingleStore(
    setup: Deployed, loads: Loads, mind: LogicalMind, cluster: Cluster, runId: string, task: TaskContract,
    budget: nat, placements: seq<ArtifactPlacement>, supplies: Supplies)
    requires Sha256Injective() && Sound(setup)
    requires forall a :: a in cluster ==> cluster[a] == map[]
    requires NoDuplicates(Map(SpecKey, task.artifacts))
    requires MaterializeTask(cluster, task, placements, supplies).Ok?
    ensures TaskArtifacts(task.artifacts, supplies).Ok?
    ensures var (ready, initial) := MaterializeTask(cluster, task, placements, supplies).value;
            var loaded := PutAll(map[], TaskArtifacts(task.artifacts, supplies).value);
            var run := RunWorkers(setup, loads, mind, ready, runId, task, budget, initial);
            var schedule := ScheduleOf(setup, ObservedBefore(run));
            && loaded.Ok?
            && RunFollows(
                 setup, run, RunAlone(setup, mind, loaded.value, schedule, runId, task, budget, initial), schedule)
            && (run.result.Ok? ==> schedule == ScheduleOf(setup, run.result.value.observations))
  {
    MaterializedTaskIsOneStore(cluster, task, placements, supplies);
    var (ready, initial) := MaterializeTask(cluster, task, placements, supplies).value;
    var run := RunWorkers(setup, loads, mind, ready, runId, task, budget, initial);
    EveryRunFollowsSingleStore(
      setup, loads, mind, ready, runId, task, budget, initial, ScheduleOf(setup, ObservedBefore(run)));
    if run.result.Ok? {
      TraceRecoversRun(Distributed(setup, loads, mind), Site(ready, 0), runId, task, budget, initial);
    }
  }
}
