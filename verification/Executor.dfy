/** The runtime executor: resolve, pull what the target lacks, execute there. */
module Executor {
  import opened Basics
  import opened JsonValues
  import opened Sorting
  import opened CoreState
  import opened ArtifactStore
  import opened WorkerServer
  import opened Resolver
  import opened Protocol

  function After(transfers: seq<Transfer>, rest: (Cluster, Result<seq<Transfer>, ProtocolError>)):
    (Cluster, Result<seq<Transfer>, ProtocolError>)
  {
    (rest.0, if rest.1.Ok? then Ok(transfers + rest.1.value) else rest.1)
  }

  lemma SkipInput(start: (Cluster, Result<seq<Transfer>, ProtocolError>), transfers: seq<Transfer>,
                  now: Cluster, target: Id, inputs: seq<Id>, index: ArtifactIndex)
    requires target in now && inputs != [] && InputsKnown(inputs, index)
    requires start == After(transfers, Localize(now, target, inputs, index))
    requires target in index[inputs[0]].locations
    ensures InputsKnown(inputs[1..], index)
    ensures start == After(transfers, Localize(now, target, inputs[1..], index))
  {
  }

  lemma PulledInput(start: (Cluster, Result<seq<Transfer>, ProtocolError>), transfers: seq<Transfer>,
                    now: Cluster, target: Id, inputs: seq<Id>, index: ArtifactIndex)
    requires target in now && inputs != [] && InputsKnown(inputs, index)
    requires start == After(transfers, Localize(now, target, inputs, index))
    requires target !in index[inputs[0]].locations
    ensures InputsKnown(inputs[1..], index) && target in PullOne(now, target, inputs[0], index).0
    ensures var step := PullOne(now, target, inputs[0], index);
            if step.1.Err? then start == (step.0, Err(step.1.error))
            else start == After(transfers + [step.1.value], Localize(step.0, target, inputs[1..], index))
  {
    var (step, pulled) := PullOne(now, target, inputs[0], index);
    if pulled.Ok? {
      var rest := Localize(step, target, inputs[1..], index).1;
      if rest.Ok? {
        assert transfers + ([pulled.value] + rest.value) == transfers + [pulled.value] + rest.value;
      }
    }
  }

  lemma StartLocalizing(now: Cluster, target: Id, inputs: seq<Id>, index: ArtifactIndex)
    requires target in now && InputsKnown(inputs, index)
    ensures inputs[0..] == inputs
    ensures Localize(now, target, inputs, index) == After([], Localize(now, target, inputs, index))
  {
    var start := Localize(now, target, inputs, index).1;
    if start.Ok? {
      assert [] + start.value == start.value;
    }
  }

  class RuntimeExecutor {
    const registry: map<string, OperatorSpec>
    const environment: EnvironmentSpec
    const semantics: Semantics
    const workers: map<Id, Worker>

    ghost predicate Valid()
      reads set a | a in workers :: workers[a]
      reads set a | a in workers :: workers[a].store
    {
      && (forall a :: a in workers ==>
        workers[a].Valid() && workers[a].agentId == a && workers[a].semantics == semantics)
      && (forall a, b :: a in workers && b in workers && a != b ==> workers[a].store != workers[b].store)
    }

    function Now(): Cluster
      reads set a | a in workers :: workers[a].store
    {
      map a | a in workers :: workers[a].store.artifacts
    }

    function Setup(): Deployed {
      Deployed(environment, registry, map a | a in workers :: workers[a].surface, semantics)
    }

    constructor (
        registry: map<string, OperatorSpec>, environment: EnvironmentSpec, semantics: Semantics,
        workers: map<Id, Worker>)
      ensures this.registry == registry && this.environment == environment
      ensures this.semantics == semantics && this.workers == workers
    {
      this.registry := registry;
      this.environment := environment;
      this.semantics := semantics;
      this.workers := workers;
    }

    method PullFrom(target: Id, source: Id, id: Id, expected: Option<string>) returns (r: Result<nat, ProtocolError>)
      requires Valid() && target in workers && source in workers
      modifies workers[target].store
      ensures Valid()
      ensures match Pull(old(Now())[target], old(Now())[source], id, expected)
              case Ok(after) => id in after && r == Ok(|after[id].content|) && Now() == old(Now())[target := after]
              case Err(error) => r == Err(AtWorker(error)) && Now() == old(Now())
    {
      var response := workers[target].PullArtifact(id, workers[source], expected);
      assert Now() == old(Now())[target := workers[target].store.artifacts];
      return if response.Ok? then Ok(response.value) else Err(AtWorker(response.error));
    }

    /** One pull into the target's store, from the first reachable location in ID order. */
    method PullInput(target: Id, id: Id, index: ArtifactIndex) returns (r: Result<Transfer, ProtocolError>)
      requires Valid() && target in workers && id in index
      modifies workers[target].store
      ensures Valid()
      ensures (Now(), r) == PullOne(old(Now()), target, id, index)
    {
      assert Now().Keys == workers.Keys;
      var candidates := Sources(index, id, workers.Keys);
      if candidates == {} {
        return Err(NoReachableSource(id));
      }
      var source := Least(candidates);
      var bytes := PullFrom(target, source, id, index[id].sha256Hex);
      if bytes.Err? {
        return Err(bytes.error);
      }
      return Ok(Transfer(id, source, target, bytes.value));
    }

    /** Earlier pulls stay when a later one fails. */
    method LocalizeInputs(target: Id, inputs: seq<Id>, index: ArtifactIndex)
      returns (r: Result<seq<Transfer>, ProtocolError>)
      requires Valid() && target in workers && InputsKnown(inputs, index)
      modifies workers[target].store
      ensures Valid()
      ensures (Now(), r) == Localize(old(Now()), target, inputs, index)
    {
      var transfers: seq<Transfer> := [];
      ghost var start := Localize(old(Now()), target, inputs, index);
      StartLocalizing(old(Now()), target, inputs, index);
      for i := 0 to |inputs|
        invariant Valid()
        invariant start == After(transfers, Localize(Now(), target, inputs[i..], index))
      {
        var id := inputs[i];
        assert inputs[i..][0] == id && inputs[i..][1..] == inputs[i + 1..];
        if target in index[id].locations {
          SkipInput(start, transfers, Now(), target, inputs[i..], index);
          continue;
        }
        PulledInput(start, transfers, Now(), target, inputs[i..], index);
        var pulled := PullInput(target, id, index);
        if pulled.Err? {
          return Err(pulled.error);
        }
        transfers := transfers + [pulled.value];
      }
      assert inputs[|inputs|..] == [] && transfers + [] == transfers;
      return Ok(transfers);
    }

    method ExecuteAt(agentId: Id, action: SemanticAction, deploymentId: Option<Id>)
      returns (r: Result<map<string, Json>, ProtocolError>)
      requires Valid() && agentId in workers
      modifies workers[agentId].store, {workers[agentId]}`inFlight
      ensures Valid() && workers[agentId].inFlight == old(workers[agentId].inFlight)
      ensures var (after, output) :=
                ExecuteOn(old(Now())[agentId], action, deploymentId, workers[agentId].surface, semantics);
              && Now() == old(Now())[agentId := after]
              && r == if output.Ok? then Ok(output.value) else Err(AtWorker(output.error))
    {
      var output := workers[agentId].ExecuteOperator(action, deploymentId);
      assert Now() == old(Now())[agentId := workers[agentId].store.artifacts];
      return if output.Ok? then Ok(output.value) else Err(AtWorker(output.error));
    }

    /** A step that fails leaves what it pulled, and what its operator put, where it is. */
    method Execute(
        action: JointDecision, state: InfrastructureState) returns (r: Result<ExecutionResult, ProtocolError>)
      requires Valid() && action.JointAction?
      modifies set a | a in workers :: workers[a].store
      modifies (set a | a in workers :: workers[a])`inFlight
      ensures Valid()
      ensures forall a :: a in workers ==> workers[a].inFlight == old(workers[a].inFlight)
      ensures (Now(), r) == ExecuteAction(Setup(), old(Now()), action, state)
    {
      var semantic := action.semantic;
      if semantic.operator !in registry {
        return Err(UnknownOperator);
      }
      if !semantics.admits(semantic) {
        return Err(InvalidAction);
      }
      var binding := Resolver.Resolve(action.physical, semantic, registry[semantic.operator], environment, state);
      if binding.Err? {
        return Err(Unresolved(binding.error));
      }
      var Binding(agentId, deploymentId) := binding.value;
      if agentId !in workers {
        return Err(NoWorkerClient);
      }
      var transfers := LocalizeInputs(agentId, semantic.inputs, IndexArtifacts(state));
      if transfers.Err? {
        return Err(transfers.error);
      }
      var output := ExecuteAt(agentId, semantic, deploymentId);
      if output.Err? {
        return Err(output.error);
      }
      return Ok(ExecutionResult(semantic.operator, agentId, deploymentId, output.value, transfers.value));
    }
  }
}
