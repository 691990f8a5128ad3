/**
 The planning graph as it runs: nodes write to an append-only sink through the cursor held in the
 state, and the driver follows the edges. Everything it does equals the functional model.
 */
module PlanningRuntime {
  import opened Basics
  import opened CoreState
  import opened Protocol
  import opened PlanningTypes
  import opened PlanningGraph

  class TraceSink {
    var events: seq<TraceEvent>

    constructor ()
      ensures events == []
    {
      events := [];
    }

    method Append(event: TraceEvent)
      modifies this
      ensures events == old(events) + [event]
    {
      events := events + [event];
    }
  }

  class GraphRunner<W> {
    const collaborators: Collaborators<W>
    const sink: TraceSink
    var world: W

    constructor (collaborators: Collaborators<W>, sink: TraceSink, world: W)
      ensures this.collaborators == collaborators && this.sink == sink && this.world == world
    {
      this.collaborators := collaborators;
      this.sink := sink;
      this.world := world;
    }

    method Emit(cursor: Cursor, payload: Payload) returns (next: Cursor)
      modifies sink
      ensures sink.events == old(sink.events) + EventsFrom(cursor, [payload])
      ensures next == AdvanceAll(cursor, [payload])
    {
      sink.Append(EventAt(cursor, payload));
      assert [payload][1..] == [];
      next := Advance(cursor, payload);
    }

    method EmitEach(cursor: Cursor, payloads: seq<Payload>) returns (next: Cursor)
      modifies sink
      ensures sink.events == old(sink.events) + EventsFrom(cursor, payloads)
      ensures next == AdvanceAll(cursor, payloads)
    {
      next := cursor;
      for i := 0 to |payloads|
        invariant sink.events == old(sink.events) + EventsFrom(cursor, payloads[..i])
        invariant next == AdvanceAll(cursor, payloads[..i])
      {
        EmitConcat(cursor, payloads[..i], [payloads[i]]);
        assert payloads[..i + 1] == payloads[..i] + [payloads[i]];
        next := Emit(next, payloads[i]);
      }
      assert payloads[..|payloads|] == payloads;
    }

    /** The sink, the world and the result are exactly what the functional node describes. */
    ghost predicate Performed(
      before: seq<TraceEvent>, state: PlanningState, node: NodeOutcome<W>, result: Result<PlanningState, Failure>)
      reads this, sink
    {
      && world == node.world && result == node.result
      && sink.events == before + EventsFrom(state.cursor, node.payloads)
    }

    method ObserveNode(state: PlanningState) returns (r: Result<PlanningState, Failure>)
      modifies this`world, sink
      ensures Performed(old(sink.events), state, PlanningGraph.ObserveNode(collaborators, old(world), state), r)
    {
      var (world', observed) := collaborators.observe(world);
      world := world';
      if observed.Err? {
        return Err(observed.error);
      }
      var cursor := Emit(state.cursor, SnapshotTaken(observed.value));
      return Ok(state.(infrastructure := Some(observed.value), cursor := cursor));
    }

    method PlanNode(state: PlanningState) returns (r: Result<PlanningState, Failure>)
      requires state.remainingSteps > 0
      modifies this`world, sink
      ensures Performed(old(sink.events), state, PlanningGraph.PlanNode(collaborators, old(world), state), r)
    {
      var started := PlannerStarted(state.remainingSteps);
      var cursor := Emit(state.cursor, started);
      var (world', decided) := collaborators.decide(world, PlannerContext(state));
      world := world';
      if decided.Err? {
        return Err(decided.error);
      }
      var decision := decided.value;
      EmitConcat(state.cursor, [started], [PlannerEnded(decision)]);
      EmitConcat(state.cursor, [started] + [PlannerEnded(decision)], [Proposed(decision)]);
      assert [started, PlannerEnded(decision), Proposed(decision)] ==
             [started] + [PlannerEnded(decision)] + [Proposed(decision)];
      cursor := Emit(cursor, PlannerEnded(decision));
      cursor := Emit(cursor, Proposed(decision));
      return Ok(state.(
        cursor := cursor,
        pendingDecision := Some(decision),
        decisions := state.decisions + [decision],
        remainingSteps := state.remainingSteps - 1));
    }

    method ExecuteNode(state: PlanningState) returns (r: Result<PlanningState, Failure>)
      modifies this`world, sink
      ensures Performed(old(sink.events), state, PlanningGraph.ExecuteNode(collaborators, old(world), state), r)
    {
      if state.pendingDecision.None? || state.pendingDecision.value.FinishDecision? || state.infrastructure.None? {
        return Err(Failure("internal_error"));
      }
      var decision := state.pendingDecision.value;
      var started := OperatorStarted(decision.semantic.operator);
      var cursor := Emit(state.cursor, started);
      var (world', executed) := collaborators.execute(world, decision, state.infrastructure.value);
      world := world';
      if executed.Err? {
        return Err(executed.error);
      }
      var observation := executed.value;
      ghost var middle := sink.events;
      ghost var payloads := TransferPayloads(observation.transfers) + [OperatorEnded(observation)];
      cursor := EmitObservation(cursor, observation);
      EmitJoined(state.cursor, [started], payloads, old(sink.events), middle, sink.events);
      assert [started] + payloads == [started] + TransferPayloads(observation.transfers) + [OperatorEnded(observation)];
      return Ok(state.(observations := state.observations + [observation], cursor := cursor));
    }

    method EmitObservation(cursor: Cursor, observation: ExecutionResult) returns (next: Cursor)
      modifies sink
      ensures var payloads := TransferPayloads(observation.transfers) + [OperatorEnded(observation)];
              sink.events == old(sink.events) + EventsFrom(cursor, payloads) && next == AdvanceAll(cursor, payloads)
    {
      next := EmitEach(cursor, TransferPayloads(observation.transfers));
      ghost var middle := sink.events;
      next := Emit(next, OperatorEnded(observation));
      EmitJoined(cursor, TransferPayloads(observation.transfers), [OperatorEnded(observation)],
                 old(sink.events), middle, sink.events);
    }

    method FinalizeNode(state: PlanningState) returns (r: Result<PlanningState, Failure>)
      modifies this`world, sink
      ensures Performed(old(sink.events), state, PlanningGraph.FinalizeNode(collaborators, old(world), state), r)
    {
      var cursor := Emit(state.cursor, FinalizeStarted);
      var (world', finalized) := collaborators.finalize(world, state.task, state.decisions, state.observations);
      world := world';
      if finalized.Err? {
        return Err(finalized.error);
      }
      EmitConcat(state.cursor, [FinalizeStarted], [FinalizeEnded(finalized.value)]);
      assert [FinalizeStarted, FinalizeEnded(finalized.value)] == [FinalizeStarted] + [FinalizeEnded(finalized.value)];
      cursor := Emit(cursor, FinalizeEnded(finalized.value));
      return Ok(state.(finalAnswer := Some(finalized.value), cursor := cursor));
    }

    method EvaluateNode(state: PlanningState) returns (r: Result<PlanningState, Failure>)
      modifies this`world, sink
      ensures Performed(old(sink.events), state, PlanningGraph.EvaluateNode(collaborators, old(world), state), r)
    {
      if state.finalAnswer.None? {
        return Err(Failure("internal_error"));
      }
      var (world', evaluated) := collaborators.evaluate(world, state.task, state.finalAnswer.value);
      world := world';
      if evaluated.Err? {
        return Err(evaluated.error);
      }
      var cursor := Emit(state.cursor, Evaluated(evaluated.value));
      return Ok(state.(evaluation := Some(evaluated.value), cursor := cursor));
    }

    method RunNode(node: Node, state: PlanningState) returns (r: Result<PlanningState, Failure>)
      requires node.Plan? ==> state.remainingSteps > 0
      modifies this`world, sink
      ensures Performed(old(sink.events), state, PlanningGraph.RunNode(collaborators, node, old(world), state), r)
    {
      match node
      case Observe => r := ObserveNode(state);
      case Plan => r := PlanNode(state);
      case Execute => r := ExecuteNode(state);
      case Finalize => r := FinalizeNode(state);
      case Evaluate => r := EvaluateNode(state);
    }

    /** Follow the edges from `node` until the graph ends or a collaborator raises. */
    method Drive(node: Node, state: PlanningState) returns (r: Result<PlanningState, Failure>)
      requires node.Plan? ==> state.remainingSteps > 0
      modifies this`world, sink
      decreases Rank(node, state)
      ensures var drive := PlanningGraph.Drive(collaborators, node, old(world), state);
              && world == drive.world && r == drive.result
              && sink.events == old(sink.events) + EventsFrom(state.cursor, drive.payloads)
      ensures var payloads := PlanningGraph.Drive(collaborators, node, old(world), state).payloads;
              r.Ok? ==> r.value.cursor == AdvanceAll(state.cursor, payloads)
    {
      ghost var step := PlanningGraph.RunNode(collaborators, node, world, state);
      r := RunNode(node, state);
      if r.Err? {
        return;
      }
      NodeCursor(collaborators, node, old(world), state);
      RankDecreases(collaborators, node, old(world), state);
      var next := Successor(node, r.value);
      if next.Some? {
        ghost var middle := sink.events;
        ghost var rest := PlanningGraph.Drive(collaborators, next.value, step.world, r.value);
        r := Drive(next.value, r.value);
        EmitJoined(state.cursor, step.payloads, rest.payloads, old(sink.events), middle, sink.events);
        DriveUnfolds(collaborators, node, old(world), state);
      }
    }

    method EmitStart(runId: string, task: TaskContract, initialTransfers: seq<Transfer>) returns (cursor: Cursor)
      modifies sink
      ensures sink.events == old(sink.events) + EventsOf(runId, InitialPayloads(task, initialTransfers))
      ensures cursor == AdvanceAll(FirstCursor(runId), InitialPayloads(task, initialTransfers))
    {
      var started := TaskStarted(task.taskId, task.benchmarkId);
      cursor := Emit(FirstCursor(runId), started);
      ghost var middle := sink.events;
      cursor := EmitEach(cursor, MaterializePayloads(initialTransfers));
      EmitJoined(
        FirstCursor(runId), [started], MaterializePayloads(initialTransfers), old(sink.events), middle, sink.events);
    }

    method Run(runId: string, task: TaskContract, budget: nat, initialTransfers: seq<Transfer>)
      returns (r: Result<RunResult, Failure>)
      modifies this`world, sink
      ensures var run := RunGraph(collaborators, old(world), runId, task, budget, initialTransfers);
              sink.events == old(sink.events) + run.events && world == run.world && r == run.result
    {
      ghost var first := FirstCursor(runId);
      ghost var before := InitialPayloads(task, initialTransfers);
      var cursor := EmitStart(runId, task, initialTransfers);
      ghost var started := sink.events;
      var initial := PlanningState(cursor, task, budget, [], [], None, None, None, None);
      ghost var drive := PlanningGraph.Drive(collaborators, Observe, world, initial);
      var driven := Drive(Observe, initial);
      ghost var middle := sink.events;
      EmitJoined(first, before, drive.payloads, old(sink.events), started, middle);
      if driven.Err? {
        return Err(driven.error);
      }
      r := Conclude(driven.value, initialTransfers);
      if r.Ok? {
        ghost var ended := [RunEnded(r.value.totalTransferBytes)];
        var last := Emit(driven.value.cursor, RunEnded(r.value.totalTransferBytes));
        EmitJoined(first, before + drive.payloads, ended, old(sink.events), middle, sink.events);
      }
    }
  }

  lemma NodeCursor<W>(c: Collaborators<W>, node: Node, world: W, state: PlanningState)
    requires node.Plan? ==> state.remainingSteps > 0
    requires PlanningGraph.RunNode(c, node, world, state).result.Ok?
    ensures var outcome := PlanningGraph.RunNode(c, node, world, state);
            outcome.result.value.cursor == AdvanceAll(state.cursor, outcome.payloads)
  {
  }
}
