/** The planning loop as one plain recursion over the collaborators, and the graph's agreement with it. */
module PlanningLoop {
  import opened Basics
  import opened CoreState
  import opened Protocol
  import opened PlanningTypes
  import opened PlanningGraph
  import opened PlanningProperties

  /** What a completed run came to. */
  datatype Reached = Reached(
    decisions: seq<JointDecision>, observations: seq<ExecutionResult>, answer: string, evaluation: EvaluationResult)

  /** Finalize from everything decided and observed, then evaluate that answer. */
  function Conclusion<W>(
    c: Collaborators<W>, world: W, task: TaskContract, decisions: seq<JointDecision>,
    observations: seq<ExecutionResult>): (W, Result<Reached, Failure>)
  {
    var (written, answer) := c.finalize(world, task, decisions, observations);
    if answer.Err? then (written, Err(answer.error))
    else
      var (judged, evaluation) := c.evaluate(written, task, answer.value);
      if evaluation.Err? then (judged, Err(evaluation.error))
      else (judged, Ok(Reached(decisions, observations, answer.value, evaluation.value)))
  }

  /** Look, decide, act, with `budget` decisions left; each collaborator acts in the world the last one left. */
  function Loop<W>(
    c: Collaborators<W>, world: W, task: TaskContract, budget: nat, decisions: seq<JointDecision>,
    observations: seq<ExecutionResult>): (W, Result<Reached, Failure>)
    decreases budget, 1
  {
    var (seen, snapshot) := c.observe(world);
    if snapshot.Err? then (seen, Err(snapshot.error))
    else if budget == 0 then Conclusion(c, seen, task, decisions, observations)
    else DecideAndAct(c, seen, task, budget, decisions, observations, snapshot.value)
  }

  function DecideAndAct<W>(
    c: Collaborators<W>, world: W, task: TaskContract, budget: nat, decisions: seq<JointDecision>,
    observations: seq<ExecutionResult>, snapshot: InfrastructureState): (W, Result<Reached, Failure>)
    requires budget > 0
    decreases budget, 0
  {
    var (thought, decided) := c.decide(world, BlindPlannerContext(task, decisions, Logical(observations), budget));
    if decided.Err? then (thought, Err(decided.error))
    else if decided.value.FinishDecision? then Conclusion(c, thought, task, decisions + [decided.value], observations)
    else
      var (acted, done) := c.execute(thought, decided.value, snapshot);
      if done.Err? then (acted, Err(done.error))
      else Loop(c, acted, task, budget - 1, decisions + [decided.value], observations + [done.value])
  }

  /** The graph ended where the loop did, with the same results. */
  predicate EndsAs<W(==)>(drive: Outcome<W>, end: (W, Result<Reached, Failure>)) {
    && drive.world == end.0
    && match end.1
       case Err(failure) => drive.result == Err(failure)
       case Ok(reached) =>
         && drive.result.Ok?
         && drive.result.value.decisions == reached.decisions
         && drive.result.value.observations == reached.observations
         && drive.result.value.finalAnswer == Some(reached.answer)
         && drive.result.value.evaluation == Some(reached.evaluation)
  }

  lemma EndingConcludes<W>(c: Collaborators<W>, world: W, s: PlanningState)
    ensures EndsAs(Drive(c, Finalize, world, s), Conclusion(c, world, s.task, s.decisions, s.observations))
  {
    DriveUnfolds(c, Finalize, world, s);
    var step := FinalizeNode(c, world, s);
    if step.result.Ok? {
      DriveUnfolds(c, Evaluate, step.world, step.result.value);
    }
  }

  lemma {:induction false} DriveIsLoop<W>(c: Collaborators<W>, world: W, s: PlanningState)
    ensures EndsAs(
      Drive(c, Observe, world, s), Loop(c, world, s.task, s.remainingSteps, s.decisions, s.observations))
    decreases s.remainingSteps
  {
    var seen := ObserveNode(c, world, s);
    DriveUnfolds(c, Observe, world, s);
    if seen.result.Ok? {
      if s.remainingSteps == 0 {
        EndingConcludes(c, seen.world, seen.result.value);
      } else {
        PlanIsLoop(c, seen.world, seen.result.value);
      }
    }
  }

  lemma {:induction false} PlanIsLoop<W>(c: Collaborators<W>, world: W, s: PlanningState)
    requires s.remainingSteps > 0 && s.infrastructure.Some?
    ensures EndsAs(
      Drive(c, Plan, world, s),
      DecideAndAct(c, world, s.task, s.remainingSteps, s.decisions, s.observations, s.infrastructure.value))
    decreases s.remainingSteps, 0
  {
    var planned := PlanNode(c, world, s);
    DriveUnfolds(c, Plan, world, s);
    if planned.result.Ok? {
      var after := planned.result.value;
      if after.pendingDecision.value.FinishDecision? {
        EndingConcludes(c, planned.world, after);
      } else {
        var executed := ExecuteNode(c, planned.world, after);
        DriveUnfolds(c, Execute, planned.world, after);
        if executed.result.Ok? {
          DriveIsLoop(c, executed.world, executed.result.value);
        }
      }
    }
  }

  /**
   However a run ends, the graph's nodes and edges come to what the plain loop comes to: every collaborator
   is asked in the same order, with the same arguments, in the world the one before it left.
   */
  lemma GraphIsLoop<W(!new)>(
    c: Collaborators<W>, world: W, runId: string, task: TaskContract, budget: nat, initialTransfers: seq<Transfer>)
    ensures var run := RunGraph(c, world, runId, task, budget, initialTransfers);
            var (end, ended) := Loop(c, world, task, budget, [], []);
            && run.world == end
            && match ended
               case Err(failure) => run.result == Err(failure)
               case Ok(reached) =>
                 && run.result.Ok?
                 && run.result.value.decisions == reached.decisions
                 && run.result.value.observations == reached.observations
                 && run.result.value.finalAnswer == reached.answer
                 && run.result.value.evaluation == reached.evaluation
                 && run.result.value.initialTransfers == initialTransfers
  {
    DriveIsLoop(c, world, InitialState(runId, task, budget, initialTransfers));
  }

  // ---------- What each collaborator was asked ----------

  /** Decision `i` answers the planner's question after `i` decisions and observations. */
  ghost predicate DecidedAt<W(!new)>(c: Collaborators<W>, task: TaskContract, budget: nat, r: Reached, i: nat)
    requires i < |r.decisions| && i <= |r.observations| && i <= budget
  {
    var context := BlindPlannerContext(task, r.decisions[..i], Logical(r.observations[..i]), budget - i);
    exists w :: c.decide(w, context).1 == Ok(r.decisions[i])
  }

  /** Observation `i` is what executing decision `i` on a snapshot that was observed returned. */
  ghost predicate ExecutedAt<W(!new)>(c: Collaborators<W>, r: Reached, i: nat)
    requires i < |r.decisions| && i < |r.observations|
  {
    exists v, w, snapshot ::
      c.observe(v).1 == Ok(snapshot) && c.execute(w, r.decisions[i], snapshot).1 == Ok(r.observations[i])
  }

  ghost predicate FinalizedFrom<W(!new)>(c: Collaborators<W>, task: TaskContract, r: Reached) {
    exists w :: c.finalize(w, task, r.decisions, r.observations).1 == Ok(r.answer)
  }

  ghost predicate EvaluatedAs<W(!new)>(c: Collaborators<W>, task: TaskContract, r: Reached) {
    exists w :: c.evaluate(w, task, r.answer).1 == Ok(r.evaluation)
  }

  lemma ConclusionAsked<W(!new)>(
    c: Collaborators<W>, world: W, task: TaskContract, decisions: seq<JointDecision>,
    observations: seq<ExecutionResult>)
    requires Conclusion(c, world, task, decisions, observations).1.Ok?
    ensures var r := Conclusion(c, world, task, decisions, observations).1.value;
            && r.decisions == decisions && r.observations == observations
            && FinalizedFrom(c, task, r) && EvaluatedAs(c, task, r)
  {
    var r := Conclusion(c, world, task, decisions, observations).1.value;
    var (written, answer) := c.finalize(world, task, decisions, observations);
    assert c.finalize(world, task, r.decisions, r.observations).1 == Ok(r.answer);
    assert c.evaluate(written, task, r.answer).1 == Ok(r.evaluation);
  }

  /** From decision `n` on, everything in `r` was asked for as it should be. */
  ghost predicate AskedFrom<W(!new)>(c: Collaborators<W>, task: TaskContract, budget: nat, r: Reached, n: nat) {
    && |r.observations| <= |r.decisions| <= |r.observations| + 1 && |r.decisions| <= budget
    && (forall i: nat :: n <= i < |r.decisions| ==> DecidedAt(c, task, budget, r, i))
    && (forall i: nat :: n <= i < |r.observations| ==> ExecutedAt(c, r, i))
    && FinalizedFrom(c, task, r) && EvaluatedAs(c, task, r)
  }

  lemma {:induction false} LoopAsked<W(!new)>(
    c: Collaborators<W>, world: W, task: TaskContract, budget: nat, left: nat, decisions: seq<JointDecision>,
    observations: seq<ExecutionResult>)
    requires |decisions| == |observations| && |decisions| + left == budget
    requires Loop(c, world, task, left, decisions, observations).1.Ok?
    ensures var r := Loop(c, world, task, left, decisions, observations).1.value;
            decisions <= r.decisions && observations <= r.observations && AskedFrom(c, task, budget, r, |decisions|)
    decreases left
  {
    var r, n := Loop(c, world, task, left, decisions, observations).1.value, |decisions|;
    var (seen, snapshot) := c.observe(world);
    if left == 0 {
      ConclusionAsked(c, seen, task, decisions, observations);
    } else {
      var (thought, decided) := c.decide(seen, BlindPlannerContext(task, decisions, Logical(observations), left));
      var all := decisions + [decided.value];
      if decided.value.FinishDecision? {
        ConclusionAsked(c, thought, task, all, observations);
      } else {
        var (acted, done) := c.execute(thought, decided.value, snapshot.value);
        LoopAsked(c, acted, task, budget, left - 1, all, observations + [done.value]);
        assert r.observations[n] == done.value;
        assert c.execute(thought, r.decisions[n], snapshot.value).1 == Ok(done.value);
        assert ExecutedAt(c, r, n);
      }
      FirstDecided(c, seen, task, budget, r, decisions, observations, decided.value);
    }
  }

  lemma FirstDecided<W(!new)>(
    c: Collaborators<W>, world: W, task: TaskContract, budget: nat, r: Reached,
    decisions: seq<JointDecision>, observations: seq<ExecutionResult>, decision: JointDecision)
    requires |decisions| == |observations| < budget
    requires decisions + [decision] <= r.decisions && observations <= r.observations
    requires var context := BlindPlannerContext(task, decisions, Logical(observations), budget - |decisions|);
             c.decide(world, context).1 == Ok(decision)
    ensures DecidedAt(c, task, budget, r, |decisions|)
  {
    var n := |decisions|;
    assert r.decisions[..n] == decisions && r.observations[..n] == observations && r.decisions[n] == decision;
  }

  /**
   In a completed run the planner was asked each time with all that had been decided and observed before, and
   with the budget left; each action was executed on an observed snapshot; the finalizer was given every
   decision and every observation; and its answer is what was evaluated.
   */
  lemma CompletedRunAsked<W(!new)>(
    c: Collaborators<W>, world: W, runId: string, task: TaskContract, budget: nat, initialTransfers: seq<Transfer>)
    requires RunGraph(c, world, runId, task, budget, initialTransfers).result.Ok?
    ensures var r := RunGraph(c, world, runId, task, budget, initialTransfers).result.value;
            AskedFrom(c, task, budget, Reached(r.decisions, r.observations, r.finalAnswer, r.evaluation), 0)
  {
    GraphIsLoop(c, world, runId, task, budget, initialTransfers);
    LoopAsked(c, world, task, budget, budget, [], []);
  }
}
