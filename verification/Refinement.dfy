/**
 Many replicated stores behave as one: a distributed run follows a run over a single write-once store
 holding the union, whose model requests go to the same deployments, and the replication conflicts an
 observation finds are exactly that store's refusals.
 */
module Refinement {
  import opened Basics
  import opened JsonValues
  import opened CoreState
  import opened ArtifactStore
  import opened ModelBackend
  import opened WorkerServer
  import opened Resolver
  import opened ResolverProperties
  import opened Protocol
  import opened TransferProperties
  import opened PlanningTypes
  import opened PlanningGraph
  import opened PlanningLoop
  import opened PlanningProperties
  import opened Observer
  import opened Executor
  import opened Validation

  // ---------- One logical namespace ----------

  /** Replicas of one ID never differ. */
  ghost predicate Agreeing(cluster: Cluster) {
    forall a, b, id | a in cluster && b in cluster && id in cluster[a] && id in cluster[b] ::
      cluster[a][id] == cluster[b][id]
  }

  /** `store` holds exactly what some worker holds. */
  ghost predicate Replicates(cluster: Cluster, store: Contents) {
    && (forall a, id | a in cluster && id in cluster[a] :: id in store && store[id] == cluster[a][id])
    && (forall id | id in store :: exists a :: a in cluster && id in cluster[a])
  }

  ghost function Union(cluster: Cluster): Contents {
    map id | id in set a, id | a in cluster && id in cluster[a] :: id :: AnyReplica(cluster, id)
  }

  ghost function AnyReplica(cluster: Cluster, id: Id): StoredArtifact
    requires exists a :: a in cluster && id in cluster[a]
  {
    var a :| a in cluster && id in cluster[a];
    cluster[a][id]
  }

  lemma UnionReplicates(cluster: Cluster)
    requires Agreeing(cluster)
    ensures Replicates(cluster, Union(cluster))
  {
  }

  lemma ReplicatedEntry(cluster: Cluster, store: Contents, other: Contents, id: Id)
    requires Replicates(cluster, store) && Replicates(cluster, other)
    ensures id in store ==> id in other && other[id] == store[id]
  {
    if id in store {
      var a :| a in cluster && id in cluster[a];
    }
  }

  lemma ReplicatesUnique(cluster: Cluster, store: Contents, other: Contents)
    requires Replicates(cluster, store) && Replicates(cluster, other)
    ensures store == other
  {
    forall id ensures (id in store <==> id in other) && (id in store ==> store[id] == other[id]) {
      ReplicatedEntry(cluster, store, other, id);
      ReplicatedEntry(cluster, other, store, id);
    }
  }

  lemma ReplicatesAgrees(cluster: Cluster, store: Contents)
    requires Replicates(cluster, store)
    ensures Agreeing(cluster)
  {
    forall a, b, id | a in cluster && b in cluster && id in cluster[a] && id in cluster[b]
      ensures cluster[a][id] == cluster[b][id]
    {
      assert store[id] == cluster[a][id] && store[id] == cluster[b][id];
    }
  }

  // ---------- Every worker reports ----------

  /** The reports of all workers; `load` is whatever else they are doing. */
  function EveryReport(setup: Deployed, cluster: Cluster, load: Id -> nat): Reports {
    map a | a in cluster ::
      WorkerReport(load(a), SurfaceAt(setup, a).deployments.Keys, cluster[a])
  }

  /** The live observer sees exactly this when every worker is declared and reachable. */
  lemma ObserverSeesEveryReport(observer: LiveWorkerObserver, executor: RuntimeExecutor, load: Id -> nat)
    requires executor.Valid() && observer.workers == executor.workers && observer.environment == executor.environment
    requires forall a :: a in executor.workers ==>
      a in Map(AgentKey, executor.environment.agents) && executor.workers[a].inFlight == load(a)
    ensures observer.Answers(observer.workers.Keys) == EveryReport(executor.Setup(), executor.Now(), load)
  {
    var answers := observer.Answers(observer.workers.Keys);
    var every := EveryReport(executor.Setup(), executor.Now(), load);
    assert executor.Now().Keys == executor.workers.Keys;
    assert answers.Keys == every.Keys;
    forall a | a in answers ensures answers[a] == every[a] {
    }
  }

  lemma SameFactsSameArtifact(a: StoredArtifact, b: StoredArtifact)
    requires Sha256Injective() && a.Valid() && b.Valid() && a.artifactId == b.artifactId
    ensures FactsOf(a) == FactsOf(b) <==> a == b
  {
  }

  /** An observation of every worker fails exactly when two replicas of one ID differ. */
  lemma ConflictsAreObserved(setup: Deployed, cluster: Cluster, load: Id -> nat)
    requires Sha256Injective() && ValidCluster(cluster)
    ensures Consistent(EveryReport(setup, cluster, load)) <==> Agreeing(cluster)
    ensures Exact(cluster, EveryReport(setup, cluster, load))
  {
    var reports := EveryReport(setup, cluster, load);
    forall a, b, id | a in cluster && b in cluster && id in cluster[a] && id in cluster[b]
      ensures FactsOf(reports[a].artifacts[id]) == FactsOf(reports[b].artifacts[id])
              <==> cluster[a][id] == cluster[b][id]
    {
      SameFactsSameArtifact(cluster[a][id], cluster[b][id]);
    }
    if Consistent(reports) {
      forall a, b, id | a in cluster && b in cluster && id in cluster[a] && id in cluster[b]
        ensures cluster[a][id] == cluster[b][id]
      {
        assert FactsOf(reports[a].artifacts[id]) == FactsOf(reports[b].artifacts[id]);
      }
    }
  }

  // ---------- Steps ----------

  /** A pulled replica is a copy of one that was there already. */
  lemma PulledIsReplica(
      before: Cluster, after: Cluster, target: Id, index: ArtifactIndex, a: Id, id: Id) returns (holder: Id)
    requires Pulling(before, after, target, index) && a in after && id in after[a]
    ensures holder in before && id in before[holder] && after[a][id] == before[holder][id]
  {
    holder := if a == target && id !in before[target] then SourceOf(before, index, id) else a;
  }

  lemma PullsKeepValid(before: Cluster, after: Cluster, target: Id, index: ArtifactIndex)
    requires ValidCluster(before) && Pulling(before, after, target, index)
    ensures ValidCluster(after)
  {
    forall a | a in after ensures ValidContents(after[a]) && PlainContents(after[a]) {
      forall id | id in after[a]
        ensures after[a][id].artifactId == id && after[a][id].Valid() && PlainMediaType(after[a][id].mediaType)
      {
        var holder := PulledIsReplica(before, after, target, index, a, id);
        assert ValidContents(before[holder]) && PlainContents(before[holder]);
      }
    }
  }

  lemma PullsKeepNamespace(before: Cluster, after: Cluster, target: Id, index: ArtifactIndex, store: Contents)
    requires Replicates(before, store) && Pulling(before, after, target, index)
    ensures Replicates(after, store)
  {
    forall a, id | a in after && id in after[a] ensures id in store && store[id] == after[a][id] {
      var holder := PulledIsReplica(before, after, target, index, a, id);
    }
    forall id | id in store ensures exists a :: a in after && id in after[a] {
      var a :| a in before && id in before[a];
      StillHeld(before, after, target, index, a, id);
    }
  }

  lemma StillHeld(before: Cluster, after: Cluster, target: Id, index: ArtifactIndex, a: Id, id: Id)
    requires Pulling(before, after, target, index) && a in before && id in before[a]
    ensures a in after && id in after[a]
  {
  }

  /** Pulls are stuttering steps: they move replicas and leave the namespace alone. */
  lemma PullsStutter(
    before: Cluster, after: Cluster, target: Id, inputs: seq<Id>, index: ArtifactIndex, transfers: seq<Transfer>,
    store: Contents)
    requires ValidCluster(before) && Replicates(before, store) && InputsKnown(inputs, index)
    requires Localized(before, after, target, inputs, index, transfers)
    ensures Replicates(after, store) && ValidCluster(after)
    ensures Load(after[target], inputs).Ok? && Load(after[target], inputs) == Load(store, inputs)
  {
    PullsKeepNamespace(before, after, target, index, store);
    PullsKeepValid(before, after, target, index);
    LoadReplicas(after, target, inputs, store);
  }

  lemma LoadReplicas(cluster: Cluster, target: Id, inputs: seq<Id>, store: Contents)
    requires Replicates(cluster, store) && target in cluster
    requires forall id :: id in inputs ==> id in cluster[target]
    ensures Load(cluster[target], inputs).Ok? && Load(cluster[target], inputs) == Load(store, inputs)
  {
    LoadExtends(cluster[target], store, inputs);
  }

  lemma PutKeepsValid(cluster: Cluster, target: Id, produced: seq<StoredArtifact>)
    requires ValidCluster(cluster) && target in cluster && PutAll(cluster[target], produced).Ok?
    requires forall a :: a in produced ==> a.Valid() && PlainMediaType(a.mediaType)
    ensures ValidCluster(cluster[target := PutAll(cluster[target], produced).value])
  {
    PutAllExtends(cluster[target], produced);
    var after := PutAll(cluster[target], produced).value;
    forall id | id in after
      ensures after[id].artifactId == id && after[id].Valid() && PlainMediaType(after[id].mediaType)
    {
      if id !in cluster[target] {
        assert after[id] in produced;
      }
    }
  }

  lemma RefusedByOne(cluster: Cluster, target: Id, produced: seq<StoredArtifact>, store: Contents)
    requires Replicates(cluster, store) && target in cluster
    requires PutAll(cluster[target], produced).Ok?
    requires Agreeing(cluster[target := PutAll(cluster[target], produced).value])
    ensures PutAll(store, produced).Ok?
  {
    var after := PutAll(cluster[target], produced).value;
    var grown := cluster[target := after];
    PutAllExtends(cluster[target], produced);
    PutAllAccepts(cluster[target], produced);
    PutAllAccepts(store, produced);
    forall a | a in produced && a.artifactId in store ensures store[a.artifactId] == a {
      var b :| b in cluster && a.artifactId in cluster[b];
      assert after[a.artifactId] == a;
      assert grown[b][a.artifactId] == grown[target][a.artifactId];
    }
  }

  lemma AcceptedLocally(cluster: Cluster, target: Id, produced: seq<StoredArtifact>, store: Contents)
    requires Replicates(cluster, store) && target in cluster && PutAll(store, produced).Ok?
    ensures PutAll(cluster[target], produced).Ok?
  {
    PutAllAccepts(cluster[target], produced);
    PutAllAccepts(store, produced);
  }

  /** Whatever the target holds after its puts, the single store holds too. */
  lemma GrownHeldByStore(local: Contents, produced: seq<StoredArtifact>, store: Contents, id: Id)
    requires PutAll(local, produced).Ok? && PutAll(store, produced).Ok?
    requires id in local ==> id in store && store[id] == local[id]
    requires id in PutAll(local, produced).value
    ensures id in PutAll(store, produced).value
            && PutAll(store, produced).value[id] == PutAll(local, produced).value[id]
  {
    PutAllExtends(local, produced);
    PutAllExtends(store, produced);
  }

  lemma StoreHeldByGrown(local: Contents, produced: seq<StoredArtifact>, store: Contents, id: Id)
    requires PutAll(local, produced).Ok? && PutAll(store, produced).Ok?
    requires id in PutAll(store, produced).value
    ensures id in store || id in PutAll(local, produced).value
  {
    PutAllExtends(local, produced);
    PutAllExtends(store, produced);
  }

  lemma AcceptedByOne(cluster: Cluster, target: Id, produced: seq<StoredArtifact>, store: Contents)
    requires Replicates(cluster, store) && target in cluster && PutAll(store, produced).Ok?
    ensures PutAll(cluster[target], produced).Ok?
    ensures Replicates(cluster[target := PutAll(cluster[target], produced).value], PutAll(store, produced).value)
  {
    AcceptedLocally(cluster, target, produced, store);
    var after, union := PutAll(cluster[target], produced).value, PutAll(store, produced).value;
    var grown := cluster[target := after];
    forall a, id | a in grown && id in grown[a] ensures id in union && union[id] == grown[a][id] {
      if a == target {
        GrownHeldByStore(cluster[target], produced, store, id);
      } else {
        StoreKeeps(store, produced, id);
      }
    }
    forall id | id in union ensures exists a :: a in grown && id in grown[a] {
      StoreHeldByGrown(cluster[target], produced, store, id);
      if id in store {
        var a :| a in cluster && id in cluster[a];
        StoreKeeps(cluster[target], produced, id);
        assert id in grown[a];
      } else {
        assert id in grown[target];
      }
    }
  }

  lemma StoreKeeps(store: Contents, produced: seq<StoredArtifact>, id: Id)
    requires PutAll(store, produced).Ok?
    ensures id in store ==> id in PutAll(store, produced).value && PutAll(store, produced).value[id] == store[id]
  {
    PutAllExtends(store, produced);
  }

  /**
   Outputs put at one worker survive both that worker's check and the next observation exactly when
   the single store accepts them, and then the namespaces grow alike.
   */
  lemma PutsAgree(cluster: Cluster, target: Id, produced: seq<StoredArtifact>, store: Contents)
    requires Replicates(cluster, store) && target in cluster
    ensures PutAll(store, produced).Ok? <==>
      && PutAll(cluster[target], produced).Ok?
      && Agreeing(cluster[target := PutAll(cluster[target], produced).value])
    ensures PutAll(store, produced).Ok? ==>
      Replicates(cluster[target := PutAll(cluster[target], produced).value], PutAll(store, produced).value)
  {
    if PutAll(store, produced).Ok? {
      AcceptedByOne(cluster, target, produced, store);
      var after := PutAll(cluster[target], produced).value;
      ReplicatesAgrees(cluster[target := after], PutAll(store, produced).value);
    } else if PutAll(cluster[target], produced).Ok? {
      if Agreeing(cluster[target := PutAll(cluster[target], produced).value]) {
        RefusedByOne(cluster, target, produced, store);
      }
    }
  }

  // ---------- The single store ----------

  /** One store, and the deployments that answer its actions from here on. */
  datatype Scheduled = Scheduled(store: Contents, schedule: seq<Option<WorkerDeployment>>)

  function Chosen(surface: Surface, deploymentId: Option<Id>): Option<WorkerDeployment> {
    if deploymentId.Some? && deploymentId.value in surface.deployments then
      Some(surface.deployments[deploymentId.value])
    else None
  }

  /** The deployment that produced an observation, if a deployment did. */
  function Used(setup: Deployed, o: ExecutionResult): Option<WorkerDeployment> {
    Chosen(SurfaceAt(setup, o.agentId), o.deploymentId)
  }

  /** One worker, one store, no placement: what an action means, given the deployment a model request goes to. */
  function SingleExecute(
      store: Contents, action: SemanticAction, used: Option<WorkerDeployment>, semantics: Semantics):
    (Contents, Result<map<string, Json>, WorkerError>)
  {
    if !semantics.admits(action) then (store, Err(ValidationFailed))
    else if action.operator != "invoke_model" then Handle(store, action, semantics)
    else (store, Answer(store, action, used, semantics))
  }

  function Answer(
      store: Contents, action: SemanticAction, used: Option<WorkerDeployment>, semantics: Semantics):
    Result<map<string, Json>, WorkerError>
  {
    if used.None? then Err(DeploymentRequired)
    else
      var prompt :- RequestedPrompt(action);
      var inputs :- Load(store, action.inputs);
      var text :- semantics.complete(used.value, prompt, inputs);
      Ok(map["text" := String(text)])
  }

  /** For the purposes of `operator`, a request that went to `used` may as well go to `other`. */
  ghost predicate AnswersLike(
      semantics: Semantics, operator: string, used: Option<WorkerDeployment>, other: Option<WorkerDeployment>) {
    operator == "invoke_model" && used.Some? ==>
      other.Some? && forall prompt, inputs ::
        semantics.complete(other.value, prompt, inputs) == semantics.complete(used.value, prompt, inputs)
  }

  lemma AnswersLikeExecutes(
    store: Contents, action: SemanticAction, used: Option<WorkerDeployment>, other: Option<WorkerDeployment>,
    semantics: Semantics)
    requires AnswersLike(semantics, action.operator, used, other)
    requires action.operator == "invoke_model" ==> used.Some?
    ensures SingleExecute(store, action, other, semantics) == SingleExecute(store, action, used, semantics)
  {
  }

  lemma HandlerPuts(store: Contents, action: SemanticAction, semantics: Semantics)
    requires Load(store, action.inputs).Ok?
    ensures var effect := semantics.operate(action, Load(store, action.inputs).value);
            && (Handle(store, action, semantics).1.Ok? <==> PutAll(store, effect.produced).Ok? && effect.outcome.Ok?)
            && (PutAll(store, effect.produced).Ok? ==>
              Handle(store, action, semantics) == (PutAll(store, effect.produced).value, effect.outcome))
  {
    var effect := semantics.operate(action, Load(store, action.inputs).value);
    if PutAll(store, effect.produced).Ok? {
      PutUntilRefusedAll(store, effect.produced);
    }
  }

  lemma EffectStep(cluster: Cluster, target: Id, produced: seq<StoredArtifact>, store: Contents)
    requires ValidCluster(cluster) && Replicates(cluster, store) && target in cluster
    requires forall a :: a in produced ==> a.Valid() && PlainMediaType(a.mediaType)
    requires PutAll(cluster[target], produced).Ok?
    ensures var after := PutAll(cluster[target], produced).value;
            && ValidCluster(cluster[target := after])
            && (PutAll(store, produced).Ok? <==> Agreeing(cluster[target := after]))
            && (PutAll(store, produced).Ok? ==> Replicates(cluster[target := after], PutAll(store, produced).value))
  {
    PutKeepsValid(cluster, target, produced);
    PutsAgree(cluster, target, produced, store);
  }

  /** A handler that succeeds at a worker succeeds at the single store, unless what it put clashes elsewhere. */
  lemma HandlerStep(cluster: Cluster, target: Id, action: SemanticAction, semantics: Semantics, store: Contents)
    requires semantics.Valid() && ValidCluster(cluster) && Replicates(cluster, store) && target in cluster
    requires Load(cluster[target], action.inputs).Ok?
    requires Load(cluster[target], action.inputs) == Load(store, action.inputs)
    requires Handle(cluster[target], action, semantics).1.Ok?
    ensures var (after, output) := Handle(cluster[target], action, semantics);
            var single := Handle(store, action, semantics);
            && ValidCluster(cluster[target := after])
            && (single.1.Ok? <==> Agreeing(cluster[target := after]))
            && (single.1.Ok? ==> single.1 == output && Replicates(cluster[target := after], single.0))
  {
    HandlerPuts(cluster[target], action, semantics);
    HandlerPuts(store, action, semantics);
    EffectStep(cluster, target, semantics.operate(action, Load(store, action.inputs).value).produced, store);
  }

  /** A handler that fails at a worker, however far it got, fails at the single store. */
  lemma HandlerFailsAlone(cluster: Cluster, target: Id, action: SemanticAction, semantics: Semantics, store: Contents)
    requires Replicates(cluster, store) && target in cluster
    requires Load(cluster[target], action.inputs).Ok?
    requires Load(cluster[target], action.inputs) == Load(store, action.inputs)
    requires Handle(cluster[target], action, semantics).1.Err?
    ensures Handle(store, action, semantics).1.Err?
  {
    var produced := semantics.operate(action, Load(store, action.inputs).value).produced;
    HandlerPuts(cluster[target], action, semantics);
    HandlerPuts(store, action, semantics);
    if PutAll(store, produced).Ok? {
      AcceptedLocally(cluster, target, produced, store);
    }
  }

  lemma ModelAnswered(
    local: Contents, store: Contents, action: SemanticAction, deploymentId: Option<Id>, surface: Surface,
    semantics: Semantics)
    requires action.operator == "invoke_model" && Load(local, action.inputs) == Load(store, action.inputs)
    requires ExecuteOn(local, action, deploymentId, surface, semantics).1.Ok?
    ensures ExecuteOn(local, action, deploymentId, surface, semantics).0 == local
    ensures Chosen(surface, deploymentId).Some?
    ensures SingleExecute(store, action, Chosen(surface, deploymentId), semantics) ==
            (store, ExecuteOn(local, action, deploymentId, surface, semantics).1)
  {
  }

  lemma WorkerStep(
    cluster: Cluster, target: Id, action: SemanticAction, deploymentId: Option<Id>, surface: Surface,
    semantics: Semantics, store: Contents)
    requires semantics.Valid()
    requires ValidCluster(cluster) && Replicates(cluster, store) && target in cluster
    requires Load(cluster[target], action.inputs).Ok?
    requires Load(cluster[target], action.inputs) == Load(store, action.inputs)
    requires ExecuteOn(cluster[target], action, deploymentId, surface, semantics).1.Ok?
    ensures var (after, output) := ExecuteOn(cluster[target], action, deploymentId, surface, semantics);
            var used := Chosen(surface, deploymentId);
            var single := SingleExecute(store, action, used, semantics);
            && ValidCluster(cluster[target := after])
            && (action.operator == "invoke_model" ==> used.Some?)
            && (single.1.Ok? <==> Agreeing(cluster[target := after]))
            && (single.1.Ok? ==> single.1 == output && Replicates(cluster[target := after], single.0))
  {
    if action.operator == "invoke_model" {
      ModelAnswered(cluster[target], store, action, deploymentId, surface, semantics);
      assert cluster[target := cluster[target]] == cluster;
      ReplicatesAgrees(cluster, store);
    } else {
      HandlerStep(cluster, target, action, semantics, store);
    }
  }

  /** What a failed action leaves at its worker agrees with the others, or its handler fails alone too. */
  lemma FailedAtWorker(
    cluster: Cluster, target: Id, action: SemanticAction, deploymentId: Option<Id>, surface: Surface,
    semantics: Semantics, store: Contents)
    requires Replicates(cluster, store) && target in cluster
    requires Load(cluster[target], action.inputs).Ok?
    requires Load(cluster[target], action.inputs) == Load(store, action.inputs)
    requires ExecuteOn(cluster[target], action, deploymentId, surface, semantics).1.Err?
    ensures Agreeing(cluster[target := ExecuteOn(cluster[target], action, deploymentId, surface, semantics).0])
            || (semantics.admits(action) && action.operator != "invoke_model"
                && Handle(store, action, semantics).1.Err?)
  {
    var left := ExecuteOn(cluster[target], action, deploymentId, surface, semantics).0;
    if left == cluster[target] {
      assert cluster[target := left] == cluster;
      ReplicatesAgrees(cluster, store);
    } else {
      HandlerFailsAlone(cluster, target, action, semantics, store);
    }
  }

  /**
   A worker keeps what a handler put before the put that was refused, so even a failed operator can leave
   replicas in conflict: here the second output clashes at its own worker and the first one at another.
   */
  lemma PartialPutsClash(
    cluster: Cluster, target: Id, other: Id, action: SemanticAction, semantics: Semantics,
    first: StoredArtifact, second: StoredArtifact)
    requires target in cluster && other in cluster && target != other && Load(cluster[target], action.inputs).Ok?
    requires semantics.operate(action, Load(cluster[target], action.inputs).value).produced == [first, second]
    requires first.artifactId !in cluster[target]
    requires first.artifactId in cluster[other] && cluster[other][first.artifactId] != first
    requires second.artifactId in cluster[target] && cluster[target][second.artifactId] != second
    ensures var (left, output) := Handle(cluster[target], action, semantics);
            output == Err(ValidationFailed) && left == cluster[target][first.artifactId := first]
            && !Agreeing(cluster[target := left])
  {
    var kept := cluster[target][first.artifactId := first];
    assert [first, second][1..] == [second];
    assert PutAll(kept, [second]).Err? && PutUntilRefused(kept, [second]) == kept;
    var grown := cluster[target := kept];
    assert grown[other][first.artifactId] != grown[target][first.artifactId];
  }

  // ---------- Placed actions ----------

  /** What the refinement assumes of a deployment of the system. */
  ghost predicate Sound(setup: Deployed) {
    setup.environment.Valid() && setup.semantics.Valid()
  }

  function ObservedBy(setup: Deployed, cluster: Cluster, load: Id -> nat): InfrastructureState {
    Snapshot(setup.environment, EveryReport(setup, cluster, load))
  }

  function PlacementOf(setup: Deployed, action: JointDecision, state: InfrastructureState): Result<Binding, ErrorCode>
    requires action.JointAction? && action.semantic.operator in setup.registry
  {
    Resolution(action.physical, action.semantic, setup.registry[action.semantic.operator], setup.environment, state)
  }

  predicate LocalizedTo(cluster: Cluster, target: Id, inputs: seq<Id>, state: InfrastructureState, localized: Cluster) {
    && target in cluster && InputsKnown(inputs, IndexArtifacts(state))
    && Localize(cluster, target, inputs, IndexArtifacts(state)).1.Ok?
    && localized == Localize(cluster, target, inputs, IndexArtifacts(state)).0
  }

  /** With a placement on an exact snapshot, an action fails only where its worker fails. */
  lemma PlacedStep(setup: Deployed, cluster: Cluster, load: Id -> nat, action: JointDecision, store: Contents)
    returns (localized: Cluster, transfers: seq<Transfer>)
    requires Sha256Injective() && Sound(setup) && ValidCluster(cluster) && Replicates(cluster, store)
    requires action.JointAction? && action.semantic.operator in setup.registry
    requires PlacementOf(setup, action, ObservedBy(setup, cluster, load)).Ok?
    ensures var binding := PlacementOf(setup, action, ObservedBy(setup, cluster, load)).value;
            && binding.agentId in localized && ValidCluster(localized) && Replicates(localized, store)
            && LocalizedTo(cluster, binding.agentId, action.semantic.inputs,
                 ObservedBy(setup, cluster, load), localized)
            && Load(localized[binding.agentId], action.semantic.inputs).Ok?
            && Load(localized[binding.agentId], action.semantic.inputs) == Load(store, action.semantic.inputs)
            && ExecuteAction(setup, cluster, action, ObservedBy(setup, cluster, load)) ==
               if setup.semantics.admits(action.semantic)
               then ExecuteAt(setup, localized, action.semantic, binding, transfers)
               else (cluster, Err(InvalidAction))
  {
    var state := ObservedBy(setup, cluster, load);
    ReplicatesAgrees(cluster, store);
    ConflictsAreObserved(setup, cluster, load);
    var q := Request(
      action.physical, action.semantic, setup.registry[action.semantic.operator], setup.environment, state);
    TransferOptimality(q, EveryReport(setup, cluster, load), cluster);
    var target := q.Resolved().value.agentId;
    var pulled := Localize(cluster, target, action.semantic.inputs, q.Index());
    localized, transfers := pulled.0, pulled.1.value;
    PullsStutter(cluster, localized, target, action.semantic.inputs, q.Index(), transfers, store);
  }

  lemma PlacedIfDone(setup: Deployed, cluster: Cluster, action: JointDecision, state: InfrastructureState)
    requires action.JointAction? && ExecuteAction(setup, cluster, action, state).1.Ok?
    ensures action.semantic.operator in setup.registry && setup.semantics.admits(action.semantic)
    ensures PlacementOf(setup, action, state).Ok?
  {
  }

  /**
   An action the workers carried out is the single store's action, answered by the same deployment if
   it is a model request: same output, namespaces still one; and when its outputs clash with a replica
   elsewhere, the single store refuses them.
   */
  lemma StepRefines(setup: Deployed, cluster: Cluster, load: Id -> nat, action: JointDecision, store: Contents)
    requires Sha256Injective() && Sound(setup)
    requires ValidCluster(cluster) && Replicates(cluster, store)
    requires action.JointAction? && ExecuteAction(setup, cluster, action, ObservedBy(setup, cluster, load)).1.Ok?
    ensures var (after, done) := ExecuteAction(setup, cluster, action, ObservedBy(setup, cluster, load));
            var used := Used(setup, done.value);
            var single := SingleExecute(store, action.semantic, used, setup.semantics);
            && ValidCluster(after)
            && action.semantic.operator in setup.registry && done.value.operator == action.semantic.operator
            && (action.semantic.operator == "invoke_model" ==> used.Some?)
            && (single.1.Ok? <==> Agreeing(after))
            && (single.1.Ok? ==> single.1.value == done.value.output && Replicates(after, single.0))
  {
    PlacedIfDone(setup, cluster, action, ObservedBy(setup, cluster, load));
    var binding := PlacementOf(setup, action, ObservedBy(setup, cluster, load)).value;
    var localized, transfers := PlacedStep(setup, cluster, load, action, store);
    WorkerStep(
      localized, binding.agentId, action.semantic, binding.deploymentId, SurfaceAt(setup, binding.agentId),
      setup.semantics, store);
  }

  /** When an action fails, the replicas it leaves agree, or the single store fails it whoever answers. */
  lemma FailedStepRefines(setup: Deployed, cluster: Cluster, load: Id -> nat, action: JointDecision, store: Contents)
    requires Sha256Injective() && Sound(setup)
    requires ValidCluster(cluster) && Replicates(cluster, store)
    requires action.JointAction? && ExecuteAction(setup, cluster, action, ObservedBy(setup, cluster, load)).1.Err?
    ensures Agreeing(ExecuteAction(setup, cluster, action, ObservedBy(setup, cluster, load)).0)
            || (action.semantic.operator in setup.registry
                && forall used :: SingleExecute(store, action.semantic, used, setup.semantics).1.Err?)
  {
    var state := ObservedBy(setup, cluster, load);
    ReplicatesAgrees(cluster, store);
    if action.semantic.operator in setup.registry && PlacementOf(setup, action, state).Ok? {
      var binding := PlacementOf(setup, action, state).value;
      var localized, transfers := PlacedStep(setup, cluster, load, action, store);
      if setup.semantics.admits(action.semantic) {
        FailedAtWorker(
          localized, binding.agentId, action.semantic, binding.deploymentId, SurfaceAt(setup, binding.agentId),
          setup.semantics, store);
      }
    }
  }

  /** A worker that has the operator carries out whatever the single store would. */
  lemma WorkerCan(
    cluster: Cluster, target: Id, action: SemanticAction, surface: Surface, semantics: Semantics, store: Contents)
    requires action.operator != "invoke_model" && Replicates(cluster, store) && target in cluster
    requires Load(cluster[target], action.inputs).Ok?
    requires Load(cluster[target], action.inputs) == Load(store, action.inputs)
    ensures ExecuteOn(cluster[target], action, None, surface, semantics).1.Ok? ==> action.operator in surface.operators
    ensures SingleExecute(store, action, None, semantics).1.Ok? && action.operator in surface.operators ==>
      semantics.admits(action) && ExecuteOn(cluster[target], action, None, surface, semantics).1.Ok?
  {
    if SingleExecute(store, action, None, semantics).1.Ok? && Handle(cluster[target], action, semantics).1.Err? {
      HandlerFailsAlone(cluster, target, action, semantics, store);
    }
  }

  lemma OperatorNeedsNoDeployment(setup: Deployed, action: JointDecision, state: InfrastructureState)
    requires action.JointAction? && action.semantic.operator in setup.registry
    requires !IsModelOperator(setup.registry[action.semantic.operator])
    requires PlacementOf(setup, action, state).Ok?
    ensures PlacementOf(setup, action, state).value.deploymentId == None
  {
  }

  /**
   Once placed, an operator's step gets past its worker and the next observation exactly when the
   single store would have carried it out and the worker has the operator.
   */
  lemma OperatorStepExact(setup: Deployed, cluster: Cluster, load: Id -> nat, action: JointDecision, store: Contents)
    requires Sha256Injective() && Sound(setup) && ValidCluster(cluster) && Replicates(cluster, store)
    requires action.JointAction? && action.semantic.operator in setup.registry
    requires action.semantic.operator != "invoke_model"
    requires !IsModelOperator(setup.registry[action.semantic.operator])
    requires PlacementOf(setup, action, ObservedBy(setup, cluster, load)).Ok?
    ensures var step := ExecuteAction(setup, cluster, action, ObservedBy(setup, cluster, load));
            var target := PlacementOf(setup, action, ObservedBy(setup, cluster, load)).value.agentId;
            step.1.Ok? && Agreeing(step.0) <==>
            && SingleExecute(store, action.semantic, None, setup.semantics).1.Ok?
            && action.semantic.operator in SurfaceAt(setup, target).operators
  {
    var localized, transfers := PlacedStep(setup, cluster, load, action, store);
    var target := PlacementOf(setup, action, ObservedBy(setup, cluster, load)).value.agentId;
    OperatorNeedsNoDeployment(setup, action, ObservedBy(setup, cluster, load));
    WorkerCan(localized, target, action.semantic, SurfaceAt(setup, target), setup.semantics, store);
    if ExecuteAction(setup, cluster, action, ObservedBy(setup, cluster, load)).1.Ok? {
      StepRefines(setup, cluster, load, action, store);
    }
  }

  /** Every worker offers the operators and deployments declared for it: what surface validation establishes. */
  ghost predicate Validated(setup: Deployed) {
    && (forall spec :: spec in setup.environment.agents ==>
      SurfaceAt(setup, spec.agentId).operators == ExpectedOperators(spec.capabilities, setup.registry))
    && (forall d :: d in setup.environment.deployments ==>
      && d.deploymentId in SurfaceAt(setup, d.agentId).deployments
      && SameContract(d, SurfaceAt(setup, d.agentId).deployments[d.deploymentId]))
  }

  /** On validated workers an action is never sent where its operator is unknown. */
  lemma PlacedOperatorRegistered(setup: Deployed, action: JointDecision, state: InfrastructureState)
    requires setup.environment.Valid() && Validated(setup)
    requires action.JointAction? && action.semantic.operator in setup.registry
    requires PlacementOf(setup, action, state).Ok?
    ensures action.semantic.operator in SurfaceAt(setup, PlacementOf(setup, action, state).value.agentId).operators
  {
    var operator := setup.registry[action.semantic.operator];
    var q := Request(action.physical, action.semantic, operator, setup.environment, state);
    ResolutionCharacterised(q);
    var b := q.Resolved().value;
    var spec :| spec in setup.environment.agents && spec.agentId == b.agentId
                && operator.capabilityRequirements <= spec.capabilities;
    assert action.semantic.operator in ExpectedOperators(spec.capabilities, setup.registry);
  }

  /**
   A placed model request succeeds exactly when the deployment it was placed on would answer it over
   the single store, unless an input declared as text is not valid UTF-8.
   */
  lemma ModelStepExact(setup: Deployed, cluster: Cluster, load: Id -> nat, action: JointDecision, store: Contents)
    requires Sha256Injective() && Sound(setup) && ValidCluster(cluster) && Replicates(cluster, store)
    requires Validated(setup)
    requires action.JointAction? && action.semantic.operator == "invoke_model" && "invoke_model" in setup.registry
    requires IsModelOperator(setup.registry["invoke_model"])
    requires PlacementOf(setup, action, ObservedBy(setup, cluster, load)).Ok?
    ensures Load(store, action.semantic.inputs).Ok?
    ensures var binding := PlacementOf(setup, action, ObservedBy(setup, cluster, load)).value;
            var used := Chosen(SurfaceAt(setup, binding.agentId), binding.deploymentId);
            && used.Some?
            && (ExecuteAction(setup, cluster, action, ObservedBy(setup, cluster, load)).1.Ok? <==>
                && SingleExecute(store, action.semantic, used, setup.semantics).1.Ok?
                && AllTextDecodes(Map(AsModelArtifact, Load(store, action.semantic.inputs).value)))
  {
    var localized, transfers := PlacedStep(setup, cluster, load, action, store);
    var binding := PlacementOf(setup, action, ObservedBy(setup, cluster, load)).value;
    ModelAdmission(setup, cluster, load, action, store, localized);
    PlacedOperatorRegistered(setup, action, ObservedBy(setup, cluster, load));
    ModelAnswers(
      localized[binding.agentId], store, action.semantic, binding.deploymentId, SurfaceAt(setup, binding.agentId),
      setup.semantics);
  }

  lemma ModelAdmission(
    setup: Deployed, cluster: Cluster, load: Id -> nat, action: JointDecision, store: Contents, localized: Cluster)
    requires Sha256Injective() && Sound(setup) && ValidCluster(cluster) && Replicates(cluster, store)
    requires Validated(setup)
    requires action.JointAction? && action.semantic.operator in setup.registry
    requires IsModelOperator(setup.registry[action.semantic.operator])
    requires PlacementOf(setup, action, ObservedBy(setup, cluster, load)).Ok?
    requires var binding := PlacementOf(setup, action, ObservedBy(setup, cluster, load)).value;
      LocalizedTo(cluster, binding.agentId, action.semantic.inputs, ObservedBy(setup, cluster, load), localized)
    ensures var binding := PlacementOf(setup, action, ObservedBy(setup, cluster, load)).value;
      && binding.agentId in localized && binding.deploymentId.Some?
      && binding.deploymentId.value in SurfaceAt(setup, binding.agentId).deployments
      && (var loaded := Load(localized[binding.agentId], action.semantic.inputs);
          && loaded.Ok?
          && (var artifacts := Map(AsModelArtifact, loaded.value);
              var deployment := SurfaceAt(setup, binding.agentId).deployments[binding.deploymentId.value];
              Preflight(PromptText(action.semantic), artifacts, deployment).Ok? <==> AllTextDecodes(artifacts)))
  {
    var state, reports := ObservedBy(setup, cluster, load), EveryReport(setup, cluster, load);
    var q := Request(
      action.physical, action.semantic, setup.registry[action.semantic.operator], setup.environment, state);
    ReplicatesAgrees(cluster, store);
    ConflictsAreObserved(setup, cluster, load);
    ResolutionCharacterised(q);
    var b := q.Resolved().value;
    var d :| q.Serves(d, b);
    AdmittedRequestAdmittedAtWorker(q, reports, cluster, SurfaceAt(setup, b.agentId).deployments);
  }

  lemma ModelAnswers(
    local: Contents, store: Contents, action: SemanticAction, deploymentId: Option<Id>, surface: Surface,
    semantics: Semantics)
    requires action.operator == "invoke_model" && action.operator in surface.operators
    requires Load(local, action.inputs).Ok? && Load(local, action.inputs) == Load(store, action.inputs)
    requires deploymentId.Some? && deploymentId.value in surface.deployments
    requires var artifacts := Map(AsModelArtifact, Load(local, action.inputs).value);
             Preflight(PromptText(action), artifacts, surface.deployments[deploymentId.value]).Ok?
             <==> AllTextDecodes(artifacts)
    ensures semantics.admits(action) && ExecuteOn(local, action, deploymentId, surface, semantics).1.Ok? <==>
      && SingleExecute(store, action, Chosen(surface, deploymentId), semantics).1.Ok?
      && AllTextDecodes(Map(AsModelArtifact, Load(store, action.inputs).value))
  {
  }

  /** Model operators are the model operator. */
  predicate Catalogued(setup: Deployed) {
    forall name :: name in setup.registry ==> (IsModelOperator(setup.registry[name]) <==> name == "invoke_model")
  }

  /**
   The workers had no reason of their own to fail an action: they were validated and it was placed; and,
   for a model request, its text inputs decode and `next` answers like the deployment it was placed on.
   */
  ghost predicate Unexcused(
    setup: Deployed, action: JointDecision, state: InfrastructureState, left: Cluster, next: Option<WorkerDeployment>)
  {
    && Validated(setup) && Catalogued(setup)
    && action.JointAction? && action.semantic.operator in setup.registry && PlacementOf(setup, action, state).Ok?
    && (action.semantic.operator == "invoke_model" ==>
      var binding := PlacementOf(setup, action, state).value;
      && AnswersLike(
           setup.semantics, "invoke_model", Chosen(SurfaceAt(setup, binding.agentId), binding.deploymentId), next)
      && binding.agentId in left && TextInputsDecode(left[binding.agentId], action.semantic.inputs))
  }

  predicate TextInputsDecode(store: Contents, inputs: seq<Id>) {
    Load(store, inputs).Ok? && AllTextDecodes(Map(AsModelArtifact, Load(store, inputs).value))
  }

  /** Then an action they fail is one the single store fails. */
  lemma UnexcusedFailure(
    setup: Deployed, cluster: Cluster, load: Id -> nat, action: JointDecision, store: Contents,
    next: Option<WorkerDeployment>)
    requires Sha256Injective() && Sound(setup) && ValidCluster(cluster) && Replicates(cluster, store)
    requires action.JointAction?
    requires var (left, done) := ExecuteAction(setup, cluster, action, ObservedBy(setup, cluster, load));
             done.Err? && Unexcused(setup, action, ObservedBy(setup, cluster, load), left, next)
    ensures SingleExecute(store, action.semantic, next, setup.semantics).1.Err?
  {
    var state := ObservedBy(setup, cluster, load);
    PlacedOperatorRegistered(setup, action, state);
    if action.semantic.operator == "invoke_model" {
      var binding := PlacementOf(setup, action, state).value;
      ModelLeaves(setup, cluster, load, action, store);
      ModelStepExact(setup, cluster, load, action, store);
      AnswersLikeExecutes(
        store, action.semantic, Chosen(SurfaceAt(setup, binding.agentId), binding.deploymentId), next, setup.semantics);
    } else {
      OperatorStepExact(setup, cluster, load, action, store);
    }
  }

  /** Past its placement, a model request that is well-formed leaves its inputs at its worker. */
  lemma ModelLeaves(setup: Deployed, cluster: Cluster, load: Id -> nat, action: JointDecision, store: Contents)
    requires Sha256Injective() && Sound(setup) && ValidCluster(cluster) && Replicates(cluster, store)
    requires action.JointAction? && action.semantic.operator == "invoke_model" && "invoke_model" in setup.registry
    requires PlacementOf(setup, action, ObservedBy(setup, cluster, load)).Ok?
    ensures var left := ExecuteAction(setup, cluster, action, ObservedBy(setup, cluster, load)).0;
            var target := PlacementOf(setup, action, ObservedBy(setup, cluster, load)).value.agentId;
            setup.semantics.admits(action.semantic) ==>
              target in left && Load(left[target], action.semantic.inputs) == Load(store, action.semantic.inputs)
  {
    var localized, transfers := PlacedStep(setup, cluster, load, action, store);
  }

  // ---------- Whole runs ----------

  /** A planner, a finalizer and an evaluator that see logical state only. */
  datatype LogicalMind = LogicalMind(
    decide: BlindPlannerContext -> Result<JointDecision, Failure>,
    finalize: (TaskContract, seq<JointDecision>, seq<PlannerObservation>) -> Result<string, Failure>,
    evaluate: (TaskContract, string) -> Result<EvaluationResult, Failure>)

  const INTERNAL := Failure("internal_error")
  const OPERATOR_FAILED := Failure("operator_failed")

  /** The workers' stores, and how often they have been observed. */
  datatype Site = Site(cluster: Cluster, looks: nat)

  /** What else the workers are doing, at each look. */
  type Loads = nat -> Id -> nat

  /** Observe every worker, execute through the resolver and the pulls; a failed step ends the run. */
  function Distributed(setup: Deployed, loads: Loads, mind: LogicalMind): Collaborators<Site> {
    Collaborators(
      (site: Site) =>
        (Site(site.cluster, site.looks + 1),
         match Observation(setup.environment, EveryReport(setup, site.cluster, loads(site.looks)))
         case Ok(state) => Ok(state)
         case Err(_) => Err(Failure("infrastructure_failure"))),
      (site: Site, context: BlindPlannerContext) => (site, mind.decide(context)),
      (site: Site, action: JointDecision, state: InfrastructureState) =>
        if action.FinishDecision? then (site, Err(INTERNAL))
        else
          var (after, done) := ExecuteAction(setup, site.cluster, action, state);
          (Site(after, site.looks),
           match done case Ok(result) => Ok(result) case Err(_) => Err(Failure("infrastructure_failure"))),
      (site: Site, task: TaskContract, decisions: seq<JointDecision>, observations: seq<ExecutionResult>) =>
        (site, mind.finalize(task, decisions, Logical(observations))),
      (site: Site, task: TaskContract, answer: string) => (site, mind.evaluate(task, answer)))
  }

  const NOWHERE := InfrastructureState([], [], [])

  /** The deployment scheduled `n` actions from now. */
  function NextAt(schedule: seq<Option<WorkerDeployment>>, n: nat): Option<WorkerDeployment> {
    if n < |schedule| then schedule[n] else None
  }

  function Later(schedule: seq<Option<WorkerDeployment>>): seq<Option<WorkerDeployment>> {
    if schedule == [] then [] else schedule[1..]
  }

  /** The same mind over one store; each action takes the next deployment of the schedule. */
  function AloneWith(
      registry: map<string, OperatorSpec>, semantics: Semantics, mind: LogicalMind): Collaborators<Scheduled> {
    Collaborators(
      (alone: Scheduled) => (alone, Ok(NOWHERE)),
      (alone: Scheduled, context: BlindPlannerContext) => (alone, mind.decide(context)),
      (alone: Scheduled, action: JointDecision, state: InfrastructureState) =>
        if action.FinishDecision? || action.semantic.operator !in registry then (alone, Err(INTERNAL))
        else
          var (after, output) := SingleExecute(alone.store, action.semantic, NextAt(alone.schedule, 0), semantics);
          (Scheduled(after, Later(alone.schedule)),
           match output
           case Ok(fields) => Ok(ExecutionResult(action.semantic.operator, "", None, fields, []))
           case Err(_) => Err(OPERATOR_FAILED)),
      (alone: Scheduled, task: TaskContract, decisions: seq<JointDecision>, observations: seq<ExecutionResult>) =>
        (alone, mind.finalize(task, decisions, Logical(observations))),
      (alone: Scheduled, task: TaskContract, answer: string) => (alone, mind.evaluate(task, answer)))
  }

  /** The two runs agree on everything but where things are. */
  predicate SameLogically(s: PlanningState, t: PlanningState) {
    && s.task == t.task && s.remainingSteps == t.remainingSteps && s.decisions == t.decisions
    && Logical(s.observations) == Logical(t.observations)
    && s.pendingDecision == t.pendingDecision && s.infrastructure.Some? == t.infrastructure.Some?
    && s.finalAnswer == t.finalAnswer && s.evaluation == t.evaluation
  }

  /** What was last seen is what is there. */
  ghost predicate JustObserved(setup: Deployed, loads: Loads, site: Site, s: PlanningState) {
    site.looks > 0 && s.infrastructure == Some(ObservedBy(setup, site.cluster, loads(site.looks - 1)))
  }

  predicate Pending(s: PlanningState) {
    s.decisions != [] && s.pendingDecision == Some(s.decisions[|s.decisions| - 1])
  }

  ghost predicate Simulated(
    setup: Deployed, loads: Loads, node: Node, site: Site, s: PlanningState, alone: Scheduled, t: PlanningState)
  {
    && ValidCluster(site.cluster) && Replicates(site.cluster, alone.store) && SameLogically(s, t)
    && (node.Plan? ==> s.remainingSteps > 0)
    && (node.Plan? || node.Execute? ==> JustObserved(setup, loads, site, s))
    && (node.Execute? ==> Pending(s))
  }

  lemma LogicalSnoc(observations: seq<ExecutionResult>, o: ExecutionResult)
    ensures Logical(observations + [o]) == Logical(observations) + [FromExecution(o)]
  {
  }

  /** Both sides left their stores alone, and failed alike or went on alike. */
  ghost predicate Alike(
    setup: Deployed, loads: Loads, node: Node, site: Site, alone: Scheduled,
    step: NodeOutcome<Site>, single: NodeOutcome<Scheduled>)
  {
    && step.world.cluster == site.cluster && single.world == alone
    && match step.result
       case Err(failure) => single.result == Err(failure) && !node.Observe?
       case Ok(state) =>
         && single.result.Ok? && SameLogically(state, single.result.value)
         && match Successor(node, state)
            case Some(next) => Simulated(setup, loads, next, step.world, state, alone, single.result.value)
            case None => true
  }

  lemma ObserveRefines(
    setup: Deployed, loads: Loads, mind: LogicalMind, site: Site, s: PlanningState, alone: Scheduled, t: PlanningState)
    requires Sha256Injective() && Simulated(setup, loads, Observe, site, s, alone, t)
    ensures Alike(
      setup, loads, Observe, site, alone, ObserveNode(Distributed(setup, loads, mind), site, s),
      ObserveNode(AloneWith(setup.registry, setup.semantics, mind), alone, t))
  {
    ReplicatesAgrees(site.cluster, alone.store);
    ConflictsAreObserved(setup, site.cluster, loads(site.looks));
  }

  lemma PlanRefines(
    setup: Deployed, loads: Loads, mind: LogicalMind, site: Site, s: PlanningState, alone: Scheduled, t: PlanningState)
    requires Simulated(setup, loads, Plan, site, s, alone, t)
    ensures Alike(
      setup, loads, Plan, site, alone, PlanNode(Distributed(setup, loads, mind), site, s),
      PlanNode(AloneWith(setup.registry, setup.semantics, mind), alone, t))
  {
    assert PlannerContext(s) == PlannerContext(t);
  }

  lemma EndingRefines(
    setup: Deployed, loads: Loads, mind: LogicalMind, node: Node, site: Site, s: PlanningState,
    alone: Scheduled, t: PlanningState)
    requires Simulated(setup, loads, node, site, s, alone, t) && (node.Finalize? || node.Evaluate?)
    ensures Alike(
      setup, loads, node, site, alone, RunNode(Distributed(setup, loads, mind), node, site, s),
      RunNode(AloneWith(setup.registry, setup.semantics, mind), node, alone, t))
  {
  }

  /** Every node but Execute does the same on both sides, failures included. */
  lemma QuietNodeRefines(
    setup: Deployed, loads: Loads, mind: LogicalMind, node: Node,
    site: Site, s: PlanningState, alone: Scheduled, t: PlanningState)
    requires Sha256Injective() && Simulated(setup, loads, node, site, s, alone, t) && !node.Execute?
    ensures Alike(
      setup, loads, node, site, alone, RunNode(Distributed(setup, loads, mind), node, site, s),
      RunNode(AloneWith(setup.registry, setup.semantics, mind), node, alone, t))
  {
    match node
    case Observe => ObserveRefines(setup, loads, mind, site, s, alone, t);
    case Plan => PlanRefines(setup, loads, mind, site, s, alone, t);
    case _ => EndingRefines(setup, loads, mind, node, site, s, alone, t);
  }

  // ---------- Schedules ----------

  /** The schedule answers each of `observations` as the deployment that produced it did. */
  ghost predicate Serves(setup: Deployed, observations: seq<ExecutionResult>, schedule: seq<Option<WorkerDeployment>>) {
    && |observations| <= |schedule|
    && forall i :: 0 <= i < |observations| ==>
      AnswersLike(setup.semantics, observations[i].operator, Used(setup, observations[i]), schedule[i])
  }

  /** The deployments that produced the observations, in order. */
  function ScheduleOf(setup: Deployed, observations: seq<ExecutionResult>): seq<Option<WorkerDeployment>> {
    Map(o => Used(setup, o), observations)
  }

  lemma ServesParts(
    setup: Deployed, first: seq<ExecutionResult>, rest: seq<ExecutionResult>, schedule: seq<Option<WorkerDeployment>>)
    requires Serves(setup, first + rest, schedule)
    ensures Serves(setup, first, schedule) && Serves(setup, rest, schedule[|first|..])
  {
    var all := first + rest;
    forall i | 0 <= i < |first|
      ensures AnswersLike(setup.semantics, first[i].operator, Used(setup, first[i]), schedule[i])
    {
      assert all[i] == first[i];
    }
    forall i | 0 <= i < |rest|
      ensures AnswersLike(setup.semantics, rest[i].operator, Used(setup, rest[i]), schedule[|first|..][i])
    {
      assert all[|first| + i] == rest[i];
    }
  }

  lemma OwnScheduleServes(setup: Deployed, observations: seq<ExecutionResult>, next: Option<WorkerDeployment>)
    ensures Serves(setup, observations, ScheduleOf(setup, observations) + [next])
    ensures NextAt(ScheduleOf(setup, observations) + [next], |observations|) == next
  {
  }

  // ---------- Executing ----------

  lemma WorkersExecute(setup: Deployed, loads: Loads, mind: LogicalMind, site: Site, s: PlanningState)
    returns (result: ExecutionResult)
    requires JustObserved(setup, loads, site, s)
    requires ExecuteNode(Distributed(setup, loads, mind), site, s).result.Ok?
    ensures s.pendingDecision.Some? && s.pendingDecision.value.JointAction?
    ensures var step := ExecuteNode(Distributed(setup, loads, mind), site, s);
            && ExecuteAction(
                 setup, site.cluster, s.pendingDecision.value,
                 ObservedBy(setup, site.cluster, loads(site.looks - 1))) ==
               (step.world.cluster, Ok(result))
            && step.result.value.observations == s.observations + [result] && Observed(step.payloads) == [result]
            && step.result.value == s.(observations := s.observations + [result], cursor := step.result.value.cursor)
  {
    ExecuteObserves(Distributed(setup, loads, mind), site, s);
    result := ExecuteNode(Distributed(setup, loads, mind), site, s).result.value.observations[|s.observations|];
  }

  lemma AloneExecutes(
    registry: map<string, OperatorSpec>, semantics: Semantics, mind: LogicalMind, alone: Scheduled, t: PlanningState)
    requires t.pendingDecision.Some? && t.pendingDecision.value.JointAction? && t.infrastructure.Some?
    requires t.pendingDecision.value.semantic.operator in registry
    ensures var action := t.pendingDecision.value.semantic;
            var single := ExecuteNode(AloneWith(registry, semantics, mind), alone, t);
            var (after, output) := SingleExecute(alone.store, action, NextAt(alone.schedule, 0), semantics);
            && single.world == Scheduled(after, Later(alone.schedule))
            && (output.Err? ==> single.result == Err(OPERATOR_FAILED))
            && (output.Ok? ==>
              && single.result.Ok?
              && (var o := ExecutionResult(action.operator, "", None, output.value, []);
                  single.result.value ==
                  t.(observations := t.observations + [o], cursor := single.result.value.cursor)))
  {
  }

  /** Two states that agree go on agreeing when both observe the same thing. */
  lemma ObservesAlike(
    s: PlanningState, t: PlanningState, result: ExecutionResult, o: ExecutionResult,
    s': PlanningState, t': PlanningState)
    requires SameLogically(s, t) && FromExecution(result) == FromExecution(o)
    requires s' == s.(observations := s.observations + [result], cursor := s'.cursor)
    requires t' == t.(observations := t.observations + [o], cursor := t'.cursor)
    ensures SameLogically(s', t')
  {
    LogicalSnoc(s.observations, result);
    LogicalSnoc(t.observations, o);
  }

  /** What the single store makes of an action that got past its worker. */
  lemma StoreFollows(
    setup: Deployed, load: Id -> nat, cluster: Cluster, action: JointDecision, store: Contents,
    schedule: seq<Option<WorkerDeployment>>, after: Cluster, result: ExecutionResult)
    requires Sha256Injective() && Sound(setup)
    requires ValidCluster(cluster) && Replicates(cluster, store)
    requires action.JointAction?
    requires ExecuteAction(setup, cluster, action, ObservedBy(setup, cluster, load)) == (after, Ok(result))
    requires Serves(setup, [result], schedule)
    ensures ValidCluster(after)
    ensures action.semantic.operator in setup.registry && result.operator == action.semantic.operator
    ensures var single := SingleExecute(store, action.semantic, NextAt(schedule, 0), setup.semantics);
            && (single.1.Ok? <==> Agreeing(after))
            && (single.1.Ok? ==> single.1.value == result.output && Replicates(after, single.0))
  {
    StepRefines(setup, cluster, load, action, store);
    assert AnswersLike(setup.semantics, [result][0].operator, Used(setup, [result][0]), schedule[0]);
    AnswersLikeExecutes(store, action.semantic, Used(setup, result), schedule[0], setup.semantics);
  }

  /** An execution that got past its worker: the single store follows, or refuses what clashes. */
  lemma ExecuteNodeRefines(
    setup: Deployed, loads: Loads, mind: LogicalMind, site: Site, s: PlanningState, alone: Scheduled, t: PlanningState)
    requires Sha256Injective() && Sound(setup)
    requires Simulated(setup, loads, Execute, site, s, alone, t)
    requires ExecuteNode(Distributed(setup, loads, mind), site, s).result.Ok?
    requires Serves(setup, Observed(ExecuteNode(Distributed(setup, loads, mind), site, s).payloads), alone.schedule)
    ensures var step := ExecuteNode(Distributed(setup, loads, mind), site, s);
            var single := ExecuteNode(AloneWith(setup.registry, setup.semantics, mind), alone, t);
            && ValidCluster(step.world.cluster)
            && (!Agreeing(step.world.cluster) ==> single.result == Err(OPERATOR_FAILED))
            && (Agreeing(step.world.cluster) ==>
              && single.result.Ok? && single.world.schedule == Later(alone.schedule)
              && Simulated(setup, loads, Observe, step.world, step.result.value, single.world, single.result.value))
  {
    var result := WorkersExecute(setup, loads, mind, site, s);
    var step := ExecuteNode(Distributed(setup, loads, mind), site, s);
    var action := s.pendingDecision.value;
    StoreFollows(
      setup, loads(site.looks - 1), site.cluster, action, alone.store, alone.schedule, step.world.cluster, result);
    AloneExecutes(setup.registry, setup.semantics, mind, alone, t);
    if Agreeing(step.world.cluster) {
      var o := ExecutionResult(action.semantic.operator, "", None, result.output, []);
      var single := ExecuteNode(AloneWith(setup.registry, setup.semantics, mind), alone, t);
      ObservesAlike(s, t, result, o, step.result.value, single.result.value);
    }
  }

  // ---------- Drives, however they end ----------

  function LastOf(visited: seq<Node>): Option<Node> {
    if visited == [] then None else Some(visited[|visited| - 1])
  }

  /** `Unexcused`, of the last decision of a record and the last snapshot before it. */
  ghost predicate TriedUnexcused(
    setup: Deployed, tried: Recovered, left: Cluster, next: Option<WorkerDeployment>)
  {
    && tried.decisions != [] && tried.snapshot.Some?
    && Unexcused(setup, tried.decisions[|tried.decisions| - 1], tried.snapshot.value, left, next)
  }

  /**
   How a failed drive over one store ends, given how the drive over the workers ended: alike, unless an
   observation found replicas that clash, which is one node after the single store refused the output; or
   a step failed, up to which both went the same way, and where the single store fails too if what the
   step left behind clashes or if nothing but its operator or model can have failed it.
   */
  ghost predicate FailsAfter(
    setup: Deployed, visited: seq<Node>, failure: Failure, left: Cluster, tried: Recovered,
    next: Option<WorkerDeployment>, aloneVisited: seq<Node>, aloneFailure: Option<Failure>)
  {
    match LastOf(visited)
    case Some(Observe) =>
      && !Agreeing(left) && aloneFailure == Some(OPERATOR_FAILED) && LastOf(aloneVisited) == Some(Execute)
      && visited == aloneVisited + [Observe]
    case Some(Execute) =>
      && visited <= aloneVisited
      && (!Agreeing(left) || TriedUnexcused(setup, tried, left, next) ==>
        aloneFailure == Some(OPERATOR_FAILED) && aloneVisited == visited)
    case _ => Agreeing(left) && aloneFailure == Some(failure) && aloneVisited == visited
  }

  function FailureOf<T>(result: Result<T, Failure>): Option<Failure> {
    if result.Err? then Some(result.error) else None
  }

  ghost predicate Follows(
    setup: Deployed, drive: Outcome<Site>, single: Outcome<Scheduled>, tried: Recovered,
    next: Option<WorkerDeployment>)
  {
    match drive.result
    case Ok(final) =>
      && single.result.Ok? && SameLogically(final, single.result.value)
      && single.visited == drive.visited && Replicates(drive.world.cluster, single.world.store)
    case Err(failure) =>
      FailsAfter(
        setup, drive.visited, failure, drive.world.cluster, tried, next, single.visited, FailureOf(single.result))
  }

  lemma FailsLater(
    setup: Deployed, node: Node, visited: seq<Node>, failure: Failure, left: Cluster, tried: Recovered,
    next: Option<WorkerDeployment>, aloneVisited: seq<Node>, aloneFailure: Option<Failure>)
    requires FailsAfter(setup, visited, failure, left, tried, next, aloneVisited, aloneFailure)
    requires visited != [] && aloneVisited != []
    ensures FailsAfter(setup, [node] + visited, failure, left, tried, next, [node] + aloneVisited, aloneFailure)
  {
    assert LastOf([node] + visited) == LastOf(visited);
    assert LastOf([node] + aloneVisited) == LastOf(aloneVisited);
    assert [node] + (aloneVisited + [Observe]) == [node] + aloneVisited + [Observe];
  }

  /** What the two drives from here have in common. */
  ghost predicate DriveFollows(
    setup: Deployed, loads: Loads, mind: LogicalMind, node: Node, site: Site, s: PlanningState,
    alone: Scheduled, t: PlanningState, initialTransfers: seq<Transfer>)
    requires node.Plan? ==> s.remainingSteps > 0 && t.remainingSteps > 0
  {
    var drive := Drive(Distributed(setup, loads, mind), node, site, s);
    Follows(
      setup, drive, Drive(AloneWith(setup.registry, setup.semantics, mind), node, alone, t),
      Replay(RecordOf(s, initialTransfers), drive.payloads), NextAt(alone.schedule, |Observed(drive.payloads)|))
  }

  lemma ClashStopsObserve(setup: Deployed, loads: Loads, mind: LogicalMind, site: Site, s: PlanningState)
    requires Sha256Injective() && ValidCluster(site.cluster) && !Agreeing(site.cluster)
    ensures ObserveNode(Distributed(setup, loads, mind), site, s) ==
            NodeOutcome(Site(site.cluster, site.looks + 1), [], Err(Failure("infrastructure_failure")))
  {
    ConflictsAreObserved(setup, site.cluster, loads(site.looks));
  }

  /** Where replicas clash the next observation is the last thing that happens. */
  lemma ClashEndsDrive(setup: Deployed, loads: Loads, mind: LogicalMind, site: Site, s: PlanningState)
    requires Sha256Injective() && ValidCluster(site.cluster) && !Agreeing(site.cluster)
    ensures var drive := Drive(Distributed(setup, loads, mind), Observe, site, s);
            && drive.result.Err? && drive.visited == [Observe] && drive.payloads == []
            && drive.world.cluster == site.cluster
  {
    ClashStopsObserve(setup, loads, mind, site, s);
    DriveUnfolds(Distributed(setup, loads, mind), Observe, site, s);
  }

  /** The schedule serves an execution, and what is left of it serves what comes after. */
  lemma ExecuteServes(
    setup: Deployed, c: Collaborators<Site>, site: Site, s: PlanningState, schedule: seq<Option<WorkerDeployment>>)
    requires ExecuteNode(c, site, s).result.Ok?
    requires Serves(setup, Observed(Drive(c, Execute, site, s).payloads), schedule)
    ensures var step := ExecuteNode(c, site, s);
            var rest := Observed(Drive(c, Observe, step.world, step.result.value).payloads);
            && Serves(setup, Observed(step.payloads), schedule) && Serves(setup, rest, Later(schedule))
            && NextAt(schedule, |Observed(Drive(c, Execute, site, s).payloads)|) == NextAt(Later(schedule), |rest|)
  {
    var step := ExecuteNode(c, site, s);
    DriveObserves(c, Execute, site, s);
    ExecuteObserves(c, site, s);
    ServesParts(
      setup, Observed(step.payloads), Observed(Drive(c, Observe, step.world, step.result.value).payloads), schedule);
  }

  /** No other node uses up any of it. */
  lemma QuietServes(
    setup: Deployed, c: Collaborators<Site>, node: Node, site: Site, s: PlanningState,
    schedule: seq<Option<WorkerDeployment>>)
    requires !node.Execute? && (node.Plan? ==> s.remainingSteps > 0) && RunNode(c, node, site, s).result.Ok?
    requires Successor(node, RunNode(c, node, site, s).result.value).Some?
    requires Serves(setup, Observed(Drive(c, node, site, s).payloads), schedule)
    ensures var step := RunNode(c, node, site, s);
            var next := Successor(node, step.result.value).value;
            && (next.Plan? ==> step.result.value.remainingSteps > 0)
            && (var rest := Observed(Drive(c, next, step.world, step.result.value).payloads);
                && Serves(setup, rest, schedule)
                && NextAt(schedule, |Observed(Drive(c, node, site, s).payloads)|) == NextAt(schedule, |rest|))
  {
    QuietDriveObserves(c, node, site, s);
  }

  /** Two drives that went through `node` and on to `next` end as the rest of them ends. */
  lemma FollowsOn(
    setup: Deployed, c: Collaborators<Site>, d: Collaborators<Scheduled>, node: Node, next: Node, site: Site,
    s: PlanningState, alone: Scheduled, t: PlanningState, tried: Recovered, scheduled: Option<WorkerDeployment>)
    requires node.Plan? ==> s.remainingSteps > 0 && t.remainingSteps > 0
    requires RunNode(c, node, site, s).result.Ok? && RunNode(d, node, alone, t).result.Ok?
    requires Successor(node, RunNode(c, node, site, s).result.value) == Some(next)
    requires Successor(node, RunNode(d, node, alone, t).result.value) == Some(next)
    requires var step, single := RunNode(c, node, site, s), RunNode(d, node, alone, t);
             && (next.Plan? ==> step.result.value.remainingSteps > 0 && single.result.value.remainingSteps > 0)
             && Follows(
                  setup, Drive(c, next, step.world, step.result.value),
                  Drive(d, next, single.world, single.result.value), tried, scheduled)
    ensures Follows(setup, Drive(c, node, site, s), Drive(d, node, alone, t), tried, scheduled)
  {
    DriveUnfolds(c, node, site, s);
    DriveUnfolds(d, node, alone, t);
    var step, single := RunNode(c, node, site, s), RunNode(d, node, alone, t);
    var rest := Drive(c, next, step.world, step.result.value);
    var aloneRest := Drive(d, next, single.world, single.result.value);
    if rest.result.Err? {
      FailsLater(
        setup, node, rest.visited, rest.result.error, rest.world.cluster, tried, scheduled, aloneRest.visited,
        FailureOf(aloneRest.result));
    }
  }

  lemma ClashFollows(
    setup: Deployed, c: Collaborators<Site>, d: Collaborators<Scheduled>, site: Site, s: PlanningState,
    alone: Scheduled, t: PlanningState, tried: Recovered, scheduled: Option<WorkerDeployment>)
    requires ExecuteNode(c, site, s).result.Ok? && ExecuteNode(d, alone, t).result == Err(OPERATOR_FAILED)
    requires var step := ExecuteNode(c, site, s);
             var drive := Drive(c, Observe, step.world, step.result.value);
             drive.result.Err? && drive.visited == [Observe] && !Agreeing(drive.world.cluster)
    ensures Follows(setup, Drive(c, Execute, site, s), Drive(d, Execute, alone, t), tried, scheduled)
  {
    DriveUnfolds(c, Execute, site, s);
    DriveUnfolds(d, Execute, alone, t);
  }

  /** Two drives that end, or fail, with a quiet node. */
  lemma QuietEndFollows(
    setup: Deployed, loads: Loads, mind: LogicalMind, node: Node, site: Site, s: PlanningState,
    alone: Scheduled, t: PlanningState, tried: Recovered, scheduled: Option<WorkerDeployment>)
    requires Sha256Injective() && Simulated(setup, loads, node, site, s, alone, t) && !node.Execute?
    requires var step := RunNode(Distributed(setup, loads, mind), node, site, s);
             step.result.Err? || Successor(node, step.result.value).None?
    ensures Follows(
      setup, Drive(Distributed(setup, loads, mind), node, site, s),
      Drive(AloneWith(setup.registry, setup.semantics, mind), node, alone, t), tried, scheduled)
  {
    ReplicatesAgrees(site.cluster, alone.store);
    QuietNodeRefines(setup, loads, mind, node, site, s, alone, t);
    DriveUnfolds(Distributed(setup, loads, mind), node, site, s);
    DriveUnfolds(AloneWith(setup.registry, setup.semantics, mind), node, alone, t);
  }

  // ---------- Failed executions ----------

  lemma FailedExecuteRecord(
    setup: Deployed, loads: Loads, mind: LogicalMind, site: Site, s: PlanningState, initialTransfers: seq<Transfer>)
    requires ExecuteNode(Distributed(setup, loads, mind), site, s).result.Err?
    ensures var step := ExecuteNode(Distributed(setup, loads, mind), site, s);
            && Replay(RecordOf(s, initialTransfers), step.payloads) == RecordOf(s, initialTransfers)
            && Observed(step.payloads) == []
  {
    var step := ExecuteNode(Distributed(setup, loads, mind), site, s);
    if step.payloads != [] {
      ReplayOne(RecordOf(s, initialTransfers), step.payloads[0]);
      ReplayOne(NOTHING, step.payloads[0]);
    }
  }

  lemma FailedExecuteWorld(setup: Deployed, loads: Loads, mind: LogicalMind, site: Site, s: PlanningState)
    requires s.pendingDecision.Some? && s.infrastructure.Some?
    requires ExecuteNode(Distributed(setup, loads, mind), site, s).result.Err?
    ensures var left := ExecuteNode(Distributed(setup, loads, mind), site, s).world.cluster;
            var action := s.pendingDecision.value;
            if action.FinishDecision? then left == site.cluster
            else
              var (after, done) := ExecuteAction(setup, site.cluster, action, s.infrastructure.value);
              left == after && done.Err?
  {
  }

  lemma FailedAction(
    setup: Deployed, load: Id -> nat, cluster: Cluster, action: JointDecision, store: Contents,
    next: Option<WorkerDeployment>)
    requires Sha256Injective() && Sound(setup) && ValidCluster(cluster) && Replicates(cluster, store)
    requires action.JointAction?
    requires var (left, done) := ExecuteAction(setup, cluster, action, ObservedBy(setup, cluster, load));
             done.Err? && (!Agreeing(left) || Unexcused(setup, action, ObservedBy(setup, cluster, load), left, next))
    ensures action.semantic.operator in setup.registry
    ensures SingleExecute(store, action.semantic, next, setup.semantics).1.Err?
  {
    if Agreeing(ExecuteAction(setup, cluster, action, ObservedBy(setup, cluster, load)).0) {
      UnexcusedFailure(setup, cluster, load, action, store, next);
    } else {
      FailedStepRefines(setup, cluster, load, action, store);
    }
  }

  /** An action that failed without an excuse, or left replicas in conflict, fails at the single store. */
  lemma FailedExecuteNode(
    setup: Deployed, loads: Loads, mind: LogicalMind, site: Site, s: PlanningState, alone: Scheduled, t: PlanningState,
    initialTransfers: seq<Transfer>)
    requires Sha256Injective() && Sound(setup) && Simulated(setup, loads, Execute, site, s, alone, t)
    requires ExecuteNode(Distributed(setup, loads, mind), site, s).result.Err?
    ensures var left := ExecuteNode(Distributed(setup, loads, mind), site, s).world.cluster;
            !Agreeing(left) || TriedUnexcused(setup, RecordOf(s, initialTransfers), left, NextAt(alone.schedule, 0)) ==>
              ExecuteNode(AloneWith(setup.registry, setup.semantics, mind), alone, t).result == Err(OPERATOR_FAILED)
  {
    var action := s.pendingDecision.value;
    var left := ExecuteNode(Distributed(setup, loads, mind), site, s).world.cluster;
    ReplicatesAgrees(site.cluster, alone.store);
    FailedExecuteWorld(setup, loads, mind, site, s);
    if action.JointAction? &&
       (!Agreeing(left) || TriedUnexcused(setup, RecordOf(s, initialTransfers), left, NextAt(alone.schedule, 0)))
    {
      FailedAction(
        setup, loads(site.looks - 1), site.cluster, action, alone.store, NextAt(alone.schedule, 0));
      AloneExecutes(setup.registry, setup.semantics, mind, alone, t);
    }
  }

  lemma FailedExecuteFollows(
    setup: Deployed, loads: Loads, mind: LogicalMind, site: Site, s: PlanningState, alone: Scheduled, t: PlanningState,
    initialTransfers: seq<Transfer>)
    requires Sha256Injective() && Sound(setup) && Simulated(setup, loads, Execute, site, s, alone, t)
    requires ExecuteNode(Distributed(setup, loads, mind), site, s).result.Err?
    ensures DriveFollows(setup, loads, mind, Execute, site, s, alone, t, initialTransfers)
  {
    FailedExecuteRecord(setup, loads, mind, site, s, initialTransfers);
    FailedExecuteNode(setup, loads, mind, site, s, alone, t, initialTransfers);
    DriveUnfolds(Distributed(setup, loads, mind), Execute, site, s);
    DriveUnfolds(AloneWith(setup.registry, setup.semantics, mind), Execute, alone, t);
  }

  // ---------- All drives ----------

  lemma {:induction false} DriveRefines(
    setup: Deployed, loads: Loads, mind: LogicalMind, node: Node, site: Site, s: PlanningState,
    alone: Scheduled, t: PlanningState, initialTransfers: seq<Transfer>)
    requires Sha256Injective() && Sound(setup)
    requires Simulated(setup, loads, node, site, s, alone, t)
    requires Serves(setup, Observed(Drive(Distributed(setup, loads, mind), node, site, s).payloads), alone.schedule)
    ensures DriveFollows(setup, loads, mind, node, site, s, alone, t, initialTransfers)
    decreases Rank(node, s), 1
  {
    var c, d := Distributed(setup, loads, mind), AloneWith(setup.registry, setup.semantics, mind);
    var step := RunNode(c, node, site, s);
    var payloads := Drive(c, node, site, s).payloads;
    if node.Execute? {
      if step.result.Ok? {
        ExecuteDriveRefines(setup, loads, mind, site, s, alone, t, initialTransfers);
      } else {
        FailedExecuteFollows(setup, loads, mind, site, s, alone, t, initialTransfers);
      }
    } else if step.result.Err? || Successor(node, step.result.value).None? {
      QuietEndFollows(
        setup, loads, mind, node, site, s, alone, t, Replay(RecordOf(s, initialTransfers), payloads),
        NextAt(alone.schedule, |Observed(payloads)|));
    } else {
      var single, next := RunNode(d, node, alone, t), Successor(node, step.result.value).value;
      QuietNodeRefines(setup, loads, mind, node, site, s, alone, t);
      QuietServes(setup, c, node, site, s, alone.schedule);
      RankDecreases(c, node, site, s);
      DriveRecords(c, node, site, s, initialTransfers);
      DriveRefines(
        setup, loads, mind, next, step.world, step.result.value, alone, single.result.value, initialTransfers);
      FollowsOn(
        setup, c, d, node, next, site, s, alone, t, Replay(RecordOf(s, initialTransfers), payloads),
        NextAt(alone.schedule, |Observed(payloads)|));
    }
  }

  lemma {:induction false} ExecuteDriveRefines(
    setup: Deployed, loads: Loads, mind: LogicalMind, site: Site, s: PlanningState,
    alone: Scheduled, t: PlanningState, initialTransfers: seq<Transfer>)
    requires Sha256Injective() && Sound(setup)
    requires Simulated(setup, loads, Execute, site, s, alone, t)
    requires ExecuteNode(Distributed(setup, loads, mind), site, s).result.Ok?
    requires Serves(setup, Observed(Drive(Distributed(setup, loads, mind), Execute, site, s).payloads), alone.schedule)
    ensures DriveFollows(setup, loads, mind, Execute, site, s, alone, t, initialTransfers)
    decreases Rank(Execute, s), 0
  {
    var c, d := Distributed(setup, loads, mind), AloneWith(setup.registry, setup.semantics, mind);
    var step, payloads := ExecuteNode(c, site, s), Drive(c, Execute, site, s).payloads;
    var tried := Replay(RecordOf(s, initialTransfers), payloads);
    var scheduled := NextAt(alone.schedule, |Observed(payloads)|);
    ExecuteServes(setup, c, site, s, alone.schedule);
    ExecuteNodeRefines(setup, loads, mind, site, s, alone, t);
    if Agreeing(step.world.cluster) {
      var single := ExecuteNode(d, alone, t);
      RankDecreases(c, Execute, site, s);
      DriveRecords(c, Execute, site, s, initialTransfers);
      DriveRefines(
        setup, loads, mind, Observe, step.world, step.result.value, single.world, single.result.value,
        initialTransfers);
      FollowsOn(setup, c, d, Execute, Observe, site, s, alone, t, tried, scheduled);
    } else {
      ClashEndsDrive(setup, loads, mind, step.world, step.result.value);
      ClashFollows(setup, c, d, site, s, alone, t, tried, scheduled);
    }
  }

  // ---------- All runs ----------

  function RunWorkers(
    setup: Deployed, loads: Loads, mind: LogicalMind, cluster: Cluster,
    runId: string, task: TaskContract, budget: nat, initialTransfers: seq<Transfer>): Run<Site>
  {
    RunGraph(Distributed(setup, loads, mind), Site(cluster, 0), runId, task, budget, initialTransfers)
  }

  /** The same run over one store, its model requests answered as scheduled. */
  function RunAlone(
    setup: Deployed, mind: LogicalMind, store: Contents, schedule: seq<Option<WorkerDeployment>>,
    runId: string, task: TaskContract, budget: nat, initialTransfers: seq<Transfer>): Run<Scheduled>
  {
    RunGraph(
      AloneWith(setup.registry, setup.semantics, mind), Scheduled(store, schedule),
      runId, task, budget, initialTransfers)
  }

  predicate SameOutcome(r: RunResult, single: RunResult) {
    && r.decisions == single.decisions && Logical(r.observations) == Logical(single.observations)
    && r.finalAnswer == single.finalAnswer && r.evaluation == single.evaluation
  }

  /** `Follows`, for whole runs. */
  ghost predicate RunFollows(
    setup: Deployed, run: Run<Site>, single: Run<Scheduled>, schedule: seq<Option<WorkerDeployment>>)
  {
    match run.result
    case Ok(r) =>
      && single.result.Ok? && SameOutcome(r, single.result.value)
      && single.visited == run.visited && Replicates(run.world.cluster, single.world.store)
    case Err(failure) =>
      FailsAfter(
        setup, run.visited, failure, run.world.cluster, Replay(NOTHING, Payloads(run.events)),
        NextAt(schedule, |ObservedBefore(run)|), single.visited, FailureOf(single.result))
  }

  /** A run fails exactly when its drive does. */
  lemma RunEndsAsDrive<W(!new)>(
    c: Collaborators<W>, world: W, runId: string, task: TaskContract, budget: nat, initialTransfers: seq<Transfer>)
    ensures var run := RunGraph(c, world, runId, task, budget, initialTransfers);
            var drive := Drive(c, Observe, world, InitialState(runId, task, budget, initialTransfers));
            && run.world == drive.world && run.visited == drive.visited
            && match drive.result
               case Ok(final) => run.result == Conclude(final, initialTransfers) && run.result.Ok?
               case Err(failure) => run.result == Err(failure)
  {
    var initial := InitialState(runId, task, budget, initialTransfers);
    if Drive(c, Observe, world, initial).result.Ok? {
      DriveShape(c, Observe, world, initial);
    }
  }

  /**
   For any number of workers that all report at every observation, and however the run ends: it follows
   the same run over one write-once store holding the union of theirs, whose model requests are answered
   as `schedule` says, if that is how the run over the workers had them answered.
   */
  lemma EveryRunFollowsSingleStore(
    setup: Deployed, loads: Loads, mind: LogicalMind, cluster: Cluster, runId: string, task: TaskContract,
    budget: nat, initialTransfers: seq<Transfer>, schedule: seq<Option<WorkerDeployment>>)
    requires Sha256Injective() && Sound(setup) && ValidCluster(cluster) && Agreeing(cluster)
    requires var run := RunWorkers(setup, loads, mind, cluster, runId, task, budget, initialTransfers);
             Serves(setup, ObservedBefore(run), schedule)
    ensures RunFollows(
      setup, RunWorkers(setup, loads, mind, cluster, runId, task, budget, initialTransfers),
      RunAlone(setup, mind, Union(cluster), schedule, runId, task, budget, initialTransfers), schedule)
  {
    var c, site := Distributed(setup, loads, mind), Site(cluster, 0);
    var initial, alone := InitialState(runId, task, budget, initialTransfers), Scheduled(Union(cluster), schedule);
    RunObserves(c, site, runId, task, budget, initialTransfers);
    UnionReplicates(cluster);
    DriveRefines(setup, loads, mind, Observe, site, initial, alone, initial, initialTransfers);
    RunEndsAsDrive(c, site, runId, task, budget, initialTransfers);
    RunEndsAsDrive(AloneWith(setup.registry, setup.semantics, mind), alone, runId, task, budget, initialTransfers);
    FailedRunRecords(c, site, runId, task, budget, initialTransfers);
  }

  lemma CompletesSoAgrees(
    setup: Deployed, loads: Loads, mind: LogicalMind, cluster: Cluster, runId: string, task: TaskContract,
    budget: nat, initialTransfers: seq<Transfer>)
    requires Sha256Injective() && ValidCluster(cluster)
    requires RunWorkers(setup, loads, mind, cluster, runId, task, budget, initialTransfers).result.Ok?
    ensures Agreeing(cluster)
  {
    if !Agreeing(cluster) {
      ClashEndsDrive(
        setup, loads, mind, Site(cluster, 0), InitialState(runId, task, budget, initialTransfers));
    }
  }

  /**
   A run that completes has the decisions, logical observations, answer and evaluation of the same run
   over one store holding the union, where each model request goes to the deployment that answered it;
   and the stores it leaves behind still replicate that one store.
   */
  lemma RunRefinesSingleStore(
    setup: Deployed, loads: Loads, mind: LogicalMind, cluster: Cluster, runId: string, task: TaskContract,
    budget: nat, initialTransfers: seq<Transfer>)
    requires Sha256Injective() && Sound(setup) && ValidCluster(cluster)
    requires RunWorkers(setup, loads, mind, cluster, runId, task, budget, initialTransfers).result.Ok?
    ensures var run := RunWorkers(setup, loads, mind, cluster, runId, task, budget, initialTransfers);
            var schedule := ScheduleOf(setup, run.result.value.observations);
            var single := RunAlone(setup, mind, Union(cluster), schedule, runId, task, budget, initialTransfers);
            && Agreeing(cluster)
            && single.result.Ok? && SameOutcome(run.result.value, single.result.value)
            && run.visited == single.visited && Replicates(run.world.cluster, single.world.store)
  {
    var run := RunWorkers(setup, loads, mind, cluster, runId, task, budget, initialTransfers);
    CompletesSoAgrees(setup, loads, mind, cluster, runId, task, budget, initialTransfers);
    TraceRecoversRun(
      Distributed(setup, loads, mind), Site(cluster, 0), runId, task, budget, initialTransfers);
    EveryRunFollowsSingleStore(
      setup, loads, mind, cluster, runId, task, budget, initialTransfers,
      ScheduleOf(setup, run.result.value.observations));
  }

  /**
   A run that ends with replicas in conflict that it did not start with did so at a step that the one
   store fails as well: directly there if the worker refused part of the output, otherwise at the
   observation after it.
   */
  lemma ConflictEndsBothRuns(
    setup: Deployed, loads: Loads, mind: LogicalMind, cluster: Cluster, runId: string, task: TaskContract,
    budget: nat, initialTransfers: seq<Transfer>)
    requires Sha256Injective() && Sound(setup) && ValidCluster(cluster)
    ensures var run := RunWorkers(setup, loads, mind, cluster, runId, task, budget, initialTransfers);
            var schedule := ScheduleOf(setup, ObservedBefore(run));
            var single := RunAlone(setup, mind, Union(cluster), schedule, runId, task, budget, initialTransfers);
            && (!Agreeing(cluster) ==> run.result.Err? && run.visited == [Observe])
            && (Agreeing(cluster) && !Agreeing(run.world.cluster) ==>
              && run.result.Err? && single.result == Err(OPERATOR_FAILED) && LastOf(single.visited) == Some(Execute)
              && (run.visited == single.visited || run.visited == single.visited + [Observe]))
  {
    var run := RunWorkers(setup, loads, mind, cluster, runId, task, budget, initialTransfers);
    var schedule := ScheduleOf(setup, ObservedBefore(run));
    if Agreeing(cluster) {
      EveryRunFollowsSingleStore(setup, loads, mind, cluster, runId, task, budget, initialTransfers, schedule);
      if run.result.Ok? {
        ReplicatesAgrees(
          run.world.cluster,
          RunAlone(setup, mind, Union(cluster), schedule, runId, task, budget, initialTransfers).world.store);
      }
    } else {
      ClashEndsDrive(
        setup, loads, mind, Site(cluster, 0), InitialState(runId, task, budget, initialTransfers));
    }
  }

  /**
   A run over validated workers that fails an action it could place, with text inputs that decode if it is
   a model request, ends at the node where the one store fails it, asked the deployment it was placed on.
   */
  lemma PlacedFailureEndsBothRuns(
    setup: Deployed, loads: Loads, mind: LogicalMind, cluster: Cluster, runId: string, task: TaskContract,
    budget: nat, initialTransfers: seq<Transfer>, next: Option<WorkerDeployment>)
    requires Sha256Injective() && Sound(setup) && ValidCluster(cluster) && Agreeing(cluster)
    ensures var run := RunWorkers(setup, loads, mind, cluster, runId, task, budget, initialTransfers);
            var schedule := ScheduleOf(setup, ObservedBefore(run)) + [next];
            var single := RunAlone(setup, mind, Union(cluster), schedule, runId, task, budget, initialTransfers);
            run.result.Err? && LastOf(run.visited) == Some(Execute)
            && TriedUnexcused(setup, Replay(NOTHING, Payloads(run.events)), run.world.cluster, next) ==>
              single.result == Err(OPERATOR_FAILED) && single.visited == run.visited
  {
    var run := RunWorkers(setup, loads, mind, cluster, runId, task, budget, initialTransfers);
    OwnScheduleServes(setup, ObservedBefore(run), next);
    EveryRunFollowsSingleStore(
      setup, loads, mind, cluster, runId, task, budget, initialTransfers,
      ScheduleOf(setup, ObservedBefore(run)) + [next]);
  }

  lemma AnyDeploymentServes(setup: Deployed, observations: seq<ExecutionResult>, n: nat, deployment: WorkerDeployment)
    requires setup.semantics.DeploymentIndependent() && |observations| <= n
    ensures Serves(setup, observations, seq(n, _ => Some(deployment)))
  {
  }

  lemma ObservationsWithinBudget<W(!new)>(
    c: Collaborators<W>, world: W, runId: string, task: TaskContract, budget: nat, initialTransfers: seq<Transfer>)
    requires RunGraph(c, world, runId, task, budget, initialTransfers).result.Ok?
    ensures |ObservedBefore(RunGraph(c, world, runId, task, budget, initialTransfers))| <= budget
  {
    TraceRecoversRun(c, world, runId, task, budget, initialTransfers);
    CompletedRunShape(c, world, runId, task, budget, initialTransfers);
  }

  /** When deployments do not matter, neither does the one the single store asks. */
  lemma RunRefinesAnyDeployment(
    setup: Deployed, loads: Loads, mind: LogicalMind, cluster: Cluster, runId: string, task: TaskContract,
    budget: nat, initialTransfers: seq<Transfer>, deployment: WorkerDeployment)
    requires Sha256Injective() && Sound(setup) && ValidCluster(cluster) && setup.semantics.DeploymentIndependent()
    requires RunWorkers(setup, loads, mind, cluster, runId, task, budget, initialTransfers).result.Ok?
    ensures var run := RunWorkers(setup, loads, mind, cluster, runId, task, budget, initialTransfers);
            var single := RunAlone(
              setup, mind, Union(cluster), seq(budget, _ => Some(deployment)), runId, task, budget, initialTransfers);
            && single.result.Ok? && SameOutcome(run.result.value, single.result.value)
            && run.visited == single.visited && Replicates(run.world.cluster, single.world.store)
  {
    var run := RunWorkers(setup, loads, mind, cluster, runId, task, budget, initialTransfers);
    CompletesSoAgrees(setup, loads, mind, cluster, runId, task, budget, initialTransfers);
    ObservationsWithinBudget(
      Distributed(setup, loads, mind), Site(cluster, 0), runId, task, budget, initialTransfers);
    AnyDeploymentServes(setup, ObservedBefore(run), budget, deployment);
    EveryRunFollowsSingleStore(
      setup, loads, mind, cluster, runId, task, budget, initialTransfers, seq(budget, _ => Some(deployment)));
  }

  // ---------- What the workers' run asks of the mind ----------

  /** An action carried out by the workers, on what an observation of all of them said. */
  ghost predicate CarriedOut(setup: Deployed, loads: Loads, decision: JointDecision, done: ExecutionResult) {
    exists seen: Site, at: Site, state ::
      && Observation(setup.environment, EveryReport(setup, seen.cluster, loads(seen.looks))) == Ok(state)
      && decision.JointAction? && ExecuteAction(setup, at.cluster, decision, state).1 == Ok(done)
  }

  /** The decisions, the answer and the evaluation of a completed run are the mind's own on what the run showed it. */
  lemma WorkersAsked(
    setup: Deployed, loads: Loads, mind: LogicalMind, cluster: Cluster,
    runId: string, task: TaskContract, budget: nat, initialTransfers: seq<Transfer>)
    requires RunWorkers(setup, loads, mind, cluster, runId, task, budget, initialTransfers).result.Ok?
    ensures var r := RunWorkers(setup, loads, mind, cluster, runId, task, budget, initialTransfers).result.value;
            && |r.observations| <= |r.decisions| <= budget && |r.decisions| <= |r.observations| + 1
            && (forall i: nat :: i < |r.decisions| ==>
                  mind.decide(BlindPlannerContext(
                    task, r.decisions[..i], Logical(r.observations[..i]), budget - i)) == Ok(r.decisions[i]))
            && (forall i: nat :: i < |r.observations| ==> CarriedOut(setup, loads, r.decisions[i], r.observations[i]))
            && mind.finalize(task, r.decisions, Logical(r.observations)) == Ok(r.finalAnswer)
            && mind.evaluate(task, r.finalAnswer) == Ok(r.evaluation)
  {
    var c := Distributed(setup, loads, mind);
    CompletedRunAsked(c, Site(cluster, 0), runId, task, budget, initialTransfers);
    var r := RunWorkers(setup, loads, mind, cluster, runId, task, budget, initialTransfers).result.value;
    var reached := Reached(r.decisions, r.observations, r.finalAnswer, r.evaluation);
    forall i: nat | i < |r.decisions|
      ensures mind.decide(BlindPlannerContext(
                task, r.decisions[..i], Logical(r.observations[..i]), budget - i)) == Ok(r.decisions[i])
    {
      assert DecidedAt(c, task, budget, reached, i);
    }
    forall i: nat | i < |r.observations| ensures CarriedOut(setup, loads, r.decisions[i], r.observations[i]) {
      assert ExecutedAt(c, reached, i);
      WorkersExecuted(setup, loads, mind, reached, i);
    }
  }

  lemma WorkersExecuted(setup: Deployed, loads: Loads, mind: LogicalMind, reached: Reached, i: nat)
    requires i < |reached.observations| && i < |reached.decisions|
    requires ExecutedAt(Distributed(setup, loads, mind), reached, i)
    ensures CarriedOut(setup, loads, reached.decisions[i], reached.observations[i])
  {
    var c := Distributed(setup, loads, mind);
    var v, w, snapshot :|
      c.observe(v).1 == Ok(snapshot) && c.execute(w, reached.decisions[i], snapshot).1 == Ok(reached.observations[i]);
    assert Observation(setup.environment, EveryReport(setup, v.cluster, loads(v.looks))) == Ok(snapshot);
    assert ExecuteAction(setup, w.cluster, reached.decisions[i], snapshot).1 == Ok(reached.observations[i]);
  }
}
