/** The live observer: probe every declared agent, then fold the answers into one snapshot. */
module Observer {
  import opened Basics
  import opened Sorting
  import opened CoreState
  import opened ArtifactStore
  import opened WorkerServer
  import opened Protocol

  /** The part of the reports folded so far. */
  type Seen = map<Id, Contents>

  ghost predicate HeldIn(seen: Seen, agentId: Id, id: Id) {
    agentId in seen && id in seen[agentId]
  }

  ghost predicate Folded(seen: Seen, locations: map<Id, seq<Id>>, facts: map<Id, Facts>) {
    && facts.Keys == locations.Keys
    && (forall id :: id in locations ==> NoDuplicates(locations[id]) && locations[id] != [])
    && (forall id, a :: id in locations && a in locations[id] ==> HeldIn(seen, a, id))
    && (forall a, id :: HeldIn(seen, a, id) ==>
      id in locations && a in locations[id] && facts[id] == FactsOf(seen[a][id]))
  }

  lemma FoldOne(seen: Seen, locations: map<Id, seq<Id>>, facts: map<Id, Facts>, agentId: Id, artifact: StoredArtifact)
    requires Folded(seen, locations, facts) && agentId in seen
    requires artifact.artifactId !in seen[agentId]
    requires artifact.artifactId in facts ==> facts[artifact.artifactId] == FactsOf(artifact)
    ensures var id := artifact.artifactId;
            var known := if id in locations then locations[id] else [];
            Folded(seen[agentId := seen[agentId][id := artifact]],
                   locations[id := known + [agentId]], facts[id := FactsOf(artifact)])
  {
    var id := artifact.artifactId;
    assert !HeldIn(seen, agentId, id);
    var seen' := seen[agentId := seen[agentId][id := artifact]];
    forall a, other ensures HeldIn(seen', a, other) <==> HeldIn(seen, a, other) || (a == agentId && other == id) {
    }
  }

  lemma FoldNothing(seen: Seen, locations: map<Id, seq<Id>>, facts: map<Id, Facts>, agentId: Id)
    requires Folded(seen, locations, facts) && agentId !in seen
    ensures Folded(seen[agentId := map[]], locations, facts)
  {
    assert forall a, id :: HeldIn(seen[agentId := map[]], a, id) <==> HeldIn(seen, a, id);
  }

  ghost predicate Conflicting(seen: Seen, artifacts: Contents) {
    exists other, id :: HeldIn(seen, other, id) && id in artifacts && FactsOf(seen[other][id]) != FactsOf(artifacts[id])
  }

  lemma ConflictFound(
    seen: Seen, part: Contents, agentId: Id, artifacts: Contents, id: Id,
    locations: map<Id, seq<Id>>, facts: map<Id, Facts>)
    requires agentId !in seen && Folded(seen[agentId := part], locations, facts)
    requires id in artifacts && id !in part && id in facts && facts[id] != FactsOf(artifacts[id])
    ensures Conflicting(seen, artifacts)
  {
    var other := locations[id][0];
    assert HeldIn(seen[agentId := part], other, id);
    assert HeldIn(seen, other, id);
  }

  lemma FoldNext(
    seen: Seen, part: Contents, agentId: Id, locations: map<Id, seq<Id>>, facts: map<Id, Facts>,
    artifact: StoredArtifact)
    requires Folded(seen[agentId := part], locations, facts) && artifact.artifactId !in part
    requires artifact.artifactId in facts ==> facts[artifact.artifactId] == FactsOf(artifact)
    ensures var id := artifact.artifactId;
            var known := if id in locations then locations[id] else [];
            Folded(seen[agentId := part[id := artifact]],
                   locations[id := known + [agentId]], facts[id := FactsOf(artifact)])
  {
    var id := artifact.artifactId;
    FoldOne(seen[agentId := part], locations, facts, agentId, artifact);
    assert seen[agentId := part][agentId := part[id := artifact]] == seen[agentId := part[id := artifact]];
  }

  /** The part of a worker's report already folded, when `remaining` IDs are still to come. */
  ghost function Done(artifacts: Contents, remaining: set<Id>): Contents {
    map id | id in artifacts && id !in remaining :: artifacts[id]
  }

  lemma DoneNext(artifacts: Contents, remaining: set<Id>, id: Id)
    requires id in artifacts && id in remaining
    ensures Done(artifacts, remaining - {id}) == Done(artifacts, remaining)[id := artifacts[id]]
  {
  }

  /** One worker's artifacts, in ascending order of their IDs. */
  method FoldReport(
    ghost seen: Seen, agentId: Id, artifacts: Contents, known: map<Id, seq<Id>>, described: map<Id, Facts>)
    returns (r: Result<(map<Id, seq<Id>>, map<Id, Facts>), ProtocolError>)
    requires Folded(seen, known, described) && agentId !in seen && ValidContents(artifacts)
    ensures r.Ok? ==> Folded(seen[agentId := artifacts], r.value.0, r.value.1)
    ensures r.Err? ==> r.error == InconsistentMetadata && Conflicting(seen, artifacts)
  {
    var locations, facts := known, described;
    var remaining := artifacts.Keys;
    FoldNothing(seen, locations, facts, agentId);
    assert Done(artifacts, remaining) == map[];
    while remaining != {}
      invariant remaining <= artifacts.Keys
      invariant Folded(seen[agentId := Done(artifacts, remaining)], locations, facts)
      decreases |remaining|
    {
      var id := Least(remaining);
      var artifact := artifacts[id];
      var reported := FactsOf(artifact);
      if id in facts && facts[id] != reported {
        ConflictFound(seen, Done(artifacts, remaining), agentId, artifacts, id, locations, facts);
        return Err(InconsistentMetadata);
      }
      FoldNext(seen, Done(artifacts, remaining), agentId, locations, facts, artifact);
      DoneNext(artifacts, remaining, id);
      facts := facts[id := reported];
      locations := locations[id := (if id in locations then locations[id] else []) + [agentId]];
      remaining := remaining - {id};
    }
    assert Done(artifacts, {}) == artifacts;
    return Ok((locations, facts));
  }

  lemma ConflictInconsistent(reports: Reports, seen: Seen, agentId: Id)
    requires forall a :: a in seen ==> a in reports && seen[a] == reports[a].artifacts
    requires agentId in reports && Conflicting(seen, reports[agentId].artifacts)
    ensures !Consistent(reports)
  {
    var other, id :| HeldIn(seen, other, id) && id in reports[agentId].artifacts
                     && FactsOf(seen[other][id]) != FactsOf(reports[agentId].artifacts[id]);
    assert other in reports && id in reports[other].artifacts;
  }

  method FoldReports(
      reports: Reports, order: seq<Id>) returns (r: Result<(map<Id, seq<Id>>, map<Id, Facts>), ProtocolError>)
    requires NoDuplicates(order) && forall a :: a in order <==> a in reports
    requires forall a :: a in reports ==> ValidContents(reports[a].artifacts)
    ensures r.Ok? <==> Consistent(reports)
    ensures r.Err? ==> r.error == InconsistentMetadata
    ensures r.Ok? ==> Folded(map a | a in reports :: reports[a].artifacts, r.value.0, r.value.1)
  {
    var locations: map<Id, seq<Id>> := map[];
    var facts: map<Id, Facts> := map[];
    ghost var seen: Seen := map[];
    for i := 0 to |order|
      invariant forall a :: a in seen <==> a in order[..i]
      invariant forall a :: a in seen ==> a in reports && seen[a] == reports[a].artifacts
      invariant Folded(seen, locations, facts)
    {
      var agentId := order[i];
      assert agentId in order && agentId !in order[..i];
      assert order[..i + 1] == order[..i] + [agentId];
      var folded := FoldReport(seen, agentId, reports[agentId].artifacts, locations, facts);
      if folded.Err? {
        ConflictInconsistent(reports, seen, agentId);
        return Err(folded.error);
      }
      locations, facts := folded.value.0, folded.value.1;
      seen := seen[agentId := reports[agentId].artifacts];
    }
    assert order[..|order|] == order;
    assert seen == map a | a in reports :: reports[a].artifacts;
    FoldedConsistent(reports, seen, locations, facts);
    return Ok((locations, facts));
  }

  lemma FoldedConsistent(reports: Reports, seen: Seen, locations: map<Id, seq<Id>>, facts: map<Id, Facts>)
    requires seen == map a | a in reports :: reports[a].artifacts
    requires Folded(seen, locations, facts)
    ensures Consistent(reports)
  {
    forall a, b, id | a in reports && b in reports && id in reports[a].artifacts && id in reports[b].artifacts
      ensures FactsOf(reports[a].artifacts[id]) == FactsOf(reports[b].artifacts[id])
    {
      assert HeldIn(seen, a, id) && HeldIn(seen, b, id);
    }
  }

  lemma FoldedIsSnapshot(reports: Reports, locations: map<Id, seq<Id>>, facts: map<Id, Facts>, id: Id)
    requires Folded(map a | a in reports :: reports[a].artifacts, locations, facts)
    ensures id in locations <==> id in ReportedIds(reports)
    ensures id in locations ==> DescribeFolded(locations, facts, id) == DescribeArtifact(reports, id)
  {
    var seen: Seen := map a | a in reports :: reports[a].artifacts;
    forall a ensures a in Holders(reports, id) <==> HeldIn(seen, a, id) {
    }
    if id in locations {
      assert HeldIn(seen, locations[id][0], id);
      assert locations[id][0] in Holders(reports, id);
      SortOfDistinctIds(locations[id]);
      assert (set a | a in locations[id]) == Holders(reports, id);
      assert HeldIn(seen, Least(Holders(reports, id)), id);
    } else if id in ReportedIds(reports) {
      var a :| a in reports && id in reports[a].artifacts;
      assert HeldIn(seen, a, id);
    }
  }

  function DescribeFolded(locations: map<Id, seq<Id>>, facts: map<Id, Facts>, id: Id): ArtifactRuntimeState {
    if id in locations && id in facts then
      ArtifactRuntimeState(
        id, SortIds(locations[id]),
        Some(facts[id].mediaType), Some(facts[id].sizeBytes), Some(facts[id].sha256Hex))
    else ArtifactRuntimeState(id, [], None, None, None)
  }

  function DescribeAll(locations: map<Id, seq<Id>>, facts: map<Id, Facts>): seq<ArtifactRuntimeState> {
    Map(id => DescribeFolded(locations, facts, id), Enumerate(locations.Keys))
  }

  lemma DescribeAllIsSnapshot(reports: Reports, locations: map<Id, seq<Id>>, facts: map<Id, Facts>)
    requires Folded(map a | a in reports :: reports[a].artifacts, locations, facts)
    ensures DescribeAll(locations, facts) == Map(id => DescribeArtifact(reports, id), Enumerate(ReportedIds(reports)))
  {
    forall id ensures id in locations.Keys <==> id in ReportedIds(reports) {
      FoldedIsSnapshot(reports, locations, facts, id);
    }
    assert locations.Keys == ReportedIds(reports);
    var ids := Enumerate(locations.Keys);
    forall i | 0 <= i < |ids| ensures DescribeFolded(locations, facts, ids[i]) == DescribeArtifact(reports, ids[i]) {
      assert ids[i] in locations;
      FoldedIsSnapshot(reports, locations, facts, ids[i]);
    }
  }

  function Answered(reports: Reports): Id -> bool {
    a => a in reports
  }

  function AnsweringAgents(reports: Reports, agentIds: seq<Id>): seq<Id> {
    Filter(Answered(reports), agentIds)
  }

  lemma AnsweringOrder(reports: Reports, agentIds: seq<Id>)
    requires NoDuplicates(agentIds) && forall a :: a in reports ==> a in agentIds
    ensures NoDuplicates(AnsweringAgents(reports, agentIds))
    ensures forall a :: a in AnsweringAgents(reports, agentIds) <==> a in reports
  {
    FilterNoDuplicates(Answered(reports), agentIds);
    FilterMembers(Answered(reports), agentIds);
  }

  class LiveWorkerObserver {
    const environment: EnvironmentSpec
    const workers: map<Id, Worker>

    constructor (environment: EnvironmentSpec, workers: map<Id, Worker>)
      ensures this.environment == environment && this.workers == workers
    {
      this.environment := environment;
      this.workers := workers;
    }

    /** The declared agents that have a client, answered, and answered under their own ID. */
    function Answers(reachable: set<Id>): Reports
      reads set a | a in workers :: workers[a]
      reads set a | a in workers :: workers[a].store
    {
      map a | a in reachable && a in workers && a in Map(AgentKey, environment.agents) && workers[a].agentId == a ::
        WorkerReport(workers[a].inFlight, workers[a].surface.deployments.Keys, workers[a].store.artifacts)
    }

    method Observe(reachable: set<Id>) returns (r: Result<InfrastructureState, ProtocolError>)
      requires environment.Valid()
      requires forall a :: a in workers ==> workers[a].Valid()
      ensures r == Observation(environment, Answers(reachable))
    {
      var reports := Answers(reachable);
      r := FoldSnapshot(environment, reports);
    }
  }

  method FoldSnapshot(
      environment: EnvironmentSpec, reports: Reports) returns (r: Result<InfrastructureState, ProtocolError>)
    requires environment.Valid()
    requires forall a :: a in reports ==> a in Map(AgentKey, environment.agents) && ValidContents(reports[a].artifacts)
    ensures r == Observation(environment, reports)
  {
    var order := AnsweringAgents(reports, Map(AgentKey, environment.agents));
    AnsweringOrder(reports, Map(AgentKey, environment.agents));
    var folded := FoldReports(reports, order);
    if folded.Err? {
      return Err(folded.error);
    }
    var artifacts := DescribeAll(folded.value.0, folded.value.1);
    DescribeAllIsSnapshot(reports, folded.value.0, folded.value.1);
    return Ok(SnapshotOf(environment, reports, artifacts));
  }

  // ---------- What an observation says of the workers ----------

  /** The worker declared as `a` answers, and under its own name. */
  predicate Hears(observer: LiveWorkerObserver, reachable: set<Id>, a: Id)
  {
    && a in reachable && a in observer.workers && observer.workers[a].agentId == a
    && exists spec :: spec in observer.environment.agents && spec.agentId == a
  }

  lemma AnswersAreHeard(observer: LiveWorkerObserver, reachable: set<Id>, a: Id)
    ensures a in observer.Answers(reachable) <==> Hears(observer, reachable, a)
    ensures a in observer.Answers(reachable) ==>
      && observer.Answers(reachable)[a].inFlight == observer.workers[a].inFlight
      && observer.Answers(reachable)[a].deployments == observer.workers[a].surface.deployments.Keys
      && observer.Answers(reachable)[a].artifacts == observer.workers[a].store.artifacts
  {
    if exists spec :: spec in observer.environment.agents && spec.agentId == a {
      var spec :| spec in observer.environment.agents && spec.agentId == a;
      var i :| 0 <= i < |observer.environment.agents| && observer.environment.agents[i] == spec;
      assert Map(AgentKey, observer.environment.agents)[i] == a;
    }
  }

  /**
   Declared agents and deployments stand in the snapshot in their order. An agent is available iff its worker
   answers, with the load it reports; a deployment iff its agent's worker answers and has it.
   */
  lemma ObservedAvailability(observer: LiveWorkerObserver, reachable: set<Id>)
    requires Observation(observer.environment, observer.Answers(reachable)).Ok?
    ensures var s := Observation(observer.environment, observer.Answers(reachable)).value;
            var agents, deployments := observer.environment.agents, observer.environment.deployments;
            && |s.agents| == |agents| && |s.deployments| == |deployments|
            && (forall i :: 0 <= i < |agents| ==>
              && s.agents[i].agentId == agents[i].agentId
              && (s.agents[i].available <==> Hears(observer, reachable, agents[i].agentId))
              && s.agents[i].inFlight ==
                 if s.agents[i].available then observer.workers[agents[i].agentId].inFlight else 0)
            && (forall i :: 0 <= i < |deployments| ==>
              && s.deployments[i].deploymentId == deployments[i].deploymentId
              && (s.deployments[i].available <==>
                && Hears(observer, reachable, deployments[i].agentId)
                && deployments[i].deploymentId in observer.workers[deployments[i].agentId].surface.deployments))
  {
    forall a ensures a in observer.Answers(reachable) <==> Hears(observer, reachable, a) {
      AnswersAreHeard(observer, reachable, a);
    }
  }

  /** An observation succeeds iff any two answers describe an artifact they share alike. */
  lemma ObservedIffAlike(environment: EnvironmentSpec, reports: Reports)
    ensures Observation(environment, reports).Ok? <==>
            forall a, b, id |
              a in reports && b in reports && id in reports[a].artifacts && id in reports[b].artifacts ::
              var x, y := reports[a].artifacts[id], reports[b].artifacts[id];
              x.mediaType == y.mediaType && |x.content| == |y.content| && x.sha256Hex == y.sha256Hex
    ensures Observation(environment, reports).Ok? ==>
      Observation(environment, reports).value == Snapshot(environment, reports)
  {
    if Consistent(reports) {
      forall a, b, id | a in reports && b in reports && id in reports[a].artifacts && id in reports[b].artifacts
        ensures FactsOf(reports[a].artifacts[id]) == FactsOf(reports[b].artifacts[id])
      {
      }
    }
  }

  lemma DescribedOnce(reports: Reports, id: Id)
    requires Consistent(reports) && id in ReportedIds(reports)
    ensures var known := DescribeArtifact(reports, id);
            && known.artifactId == id
            && Sorted(LexLeq, known.locations) && NoDuplicates(known.locations) && known.locations != []
            && (forall a :: a in known.locations <==> a in reports && id in reports[a].artifacts)
            && (forall a :: a in known.locations ==>
              var artifact := reports[a].artifacts[id];
              && known.mediaType == Some(artifact.mediaType)
              && known.sizeBytes == Some(|artifact.content|)
              && known.sha256Hex == Some(artifact.sha256Hex))
  {
    var a :| a in reports && id in reports[a].artifacts;
    assert a in Holders(reports, id);
    forall b | b in Holders(reports, id)
      ensures FactsOf(reports[b].artifacts[id]) == FactsOf(reports[Least(Holders(reports, id))].artifacts[id])
    {
    }
  }

  /**
   The artifacts of a snapshot are those some answer has, in ID order, each with its holders in order and
   with the media type, size and checksum that every one of them reports.
   */
  lemma ObservedArtifacts(environment: EnvironmentSpec, reports: Reports)
    requires Consistent(reports)
    ensures var artifacts := Snapshot(environment, reports).artifacts;
            && Sorted(LexLeq, Map(ArtifactKey, artifacts)) && NoDuplicates(Map(ArtifactKey, artifacts))
            && (forall a, id :: a in reports && id in reports[a].artifacts ==> id in Map(ArtifactKey, artifacts))
            && (forall i :: 0 <= i < |artifacts| ==>
              var known := artifacts[i];
              && Sorted(LexLeq, known.locations) && NoDuplicates(known.locations) && known.locations != []
              && (forall a :: a in known.locations <==> a in reports && known.artifactId in reports[a].artifacts)
              && (forall a :: a in known.locations ==>
                var artifact := reports[a].artifacts[known.artifactId];
                && known.mediaType == Some(artifact.mediaType)
                && known.sizeBytes == Some(|artifact.content|)
                && known.sha256Hex == Some(artifact.sha256Hex)))
  {
    var ids, artifacts := Enumerate(ReportedIds(reports)), Snapshot(environment, reports).artifacts;
    assert Map(ArtifactKey, artifacts) == ids;
    forall i | 0 <= i < |artifacts| ensures artifacts[i] == DescribeArtifact(reports, ids[i]) {
    }
    forall i | 0 <= i < |ids| ensures ids[i] in ReportedIds(reports) {
      assert ids[i] in ids;
    }
    forall id | id in ReportedIds(reports) ensures id in ids {
    }
    forall i | 0 <= i < |artifacts| {
      DescribedOnce(reports, ids[i]);
    }
  }
}
