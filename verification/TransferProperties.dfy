/** On an exact snapshot, the pulls the executor makes are the transfers the resolver ranked by. */
module TransferProperties {
  import opened Basics
  import opened Sorting
  import opened CoreState
  import opened ArtifactStore
  import opened ModelBackend
  import opened WorkerServer
  import opened Resolver
  import opened ResolverProperties
  import opened Protocol

  /** The reports are what the workers that answered actually hold. */
  ghost predicate Exact(cluster: Cluster, reports: Reports) {
    forall a :: a in reports ==> a in cluster && reports[a].artifacts == cluster[a]
  }

  function SnapshotIndex(environment: EnvironmentSpec, reports: Reports): ArtifactIndex {
    IndexArtifacts(Snapshot(environment, reports))
  }

  lemma SnapshotIndexed(environment: EnvironmentSpec, reports: Reports, id: Id)
    ensures id in SnapshotIndex(environment, reports) <==> id in ReportedIds(reports)
    ensures id in ReportedIds(reports) ==> SnapshotIndex(environment, reports)[id] == DescribeArtifact(reports, id)
  {
    var ids := Enumerate(ReportedIds(reports));
    var artifacts := Snapshot(environment, reports).artifacts;
    assert Map(ArtifactKey, artifacts) == ids;
    if id in ReportedIds(reports) {
      var i :| 0 <= i < |ids| && ids[i] == id;
      assert artifacts[i] == DescribeArtifact(reports, id);
      UniquelyIndexed(ArtifactKey, artifacts, artifacts[i]);
    }
    IndexedIsItem(ArtifactKey, artifacts, id);
    if id in SnapshotIndex(environment, reports) {
      var artifact := SnapshotIndex(environment, reports)[id];
      var i :| 0 <= i < |artifacts| && artifacts[i] == artifact;
      assert ids[i] == id;
    }
  }

  predicate KnownAs(known: ArtifactRuntimeState, facts: Facts) {
    && known.mediaType == Some(facts.mediaType)
    && known.sizeBytes == Some(facts.sizeBytes)
    && known.sha256Hex == Some(facts.sha256Hex)
  }

  /** Every known artifact has a reporting holder, and each holder has exactly what the index says. */
  ghost predicate Describes(index: ArtifactIndex, reports: Reports) {
    forall id :: id in index ==>
      && Holders(reports, id) != {}
      && (forall h :: h in index[id].locations <==> h in Holders(reports, id))
      && (forall h :: h in Holders(reports, id) ==> KnownAs(index[id], FactsOf(reports[h].artifacts[id])))
  }

  lemma SnapshotDescribes(environment: EnvironmentSpec, reports: Reports)
    requires Consistent(reports)
    ensures Describes(SnapshotIndex(environment, reports), reports)
  {
    var index := SnapshotIndex(environment, reports);
    forall id | id in index
      ensures Holders(reports, id) != {}
      ensures forall h :: h in index[id].locations <==> h in Holders(reports, id)
      ensures forall h :: h in Holders(reports, id) ==> KnownAs(index[id], FactsOf(reports[h].artifacts[id]))
    {
      SnapshotIndexed(environment, reports, id);
      var a :| a in reports && id in reports[a].artifacts;
      assert a in Holders(reports, id);
    }
  }

  lemma PullCopies(source: Contents, id: Id)
    requires ValidContents(source) && PlainContents(source) && id in source
    ensures Pulled(source, id, Some(source[id].sha256Hex)) == Ok(source[id])
  {
    TransportIdentity(source[id].mediaType);
  }

  function KnownSize(index: ArtifactIndex, id: Id): nat
    requires id in index
  {
    if index[id].sizeBytes.Some? then index[id].sizeBytes.value else 0
  }

  function SourceOf(cluster: Cluster, index: ArtifactIndex, id: Id): Id
    requires id in index && Sources(index, id, cluster.Keys) != {}
  {
    Least(Sources(index, id, cluster.Keys))
  }

  /** Only the target changed, and only by receiving copies from the sources the executor picks. */
  ghost predicate Pulling(before: Cluster, now: Cluster, target: Id, index: ArtifactIndex) {
    && now.Keys == before.Keys && target in before
    && (forall a :: a in before && a != target ==> now[a] == before[a])
    && Extends(before[target], now[target])
    && (forall id :: id in now[target] && id !in before[target] ==>
      && id in index && Sources(index, id, before.Keys) != {}
      && id in before[SourceOf(before, index, id)]
      && now[target][id] == before[SourceOf(before, index, id)][id])
  }

  lemma SourceHolds(index: ArtifactIndex, reports: Reports, cluster: Cluster, id: Id)
    requires Exact(cluster, reports) && Describes(index, reports) && id in index
    ensures Sources(index, id, cluster.Keys) == Holders(reports, id) != {}
    ensures var source := SourceOf(cluster, index, id);
            source in reports && id in cluster[source] && KnownAs(index[id], FactsOf(cluster[source][id]))
            && source in index[id].locations
  {
    forall a ensures a in Sources(index, id, cluster.Keys) <==> a in Holders(reports, id) {
    }
    assert SourceOf(cluster, index, id) in Holders(reports, id);
  }

  function AfterPull(before: Cluster, now: Cluster, target: Id, id: Id, index: ArtifactIndex): Cluster
    requires target in now && id in index && Sources(index, id, before.Keys) != {}
    requires SourceOf(before, index, id) in before && id in before[SourceOf(before, index, id)]
  {
    now[target := now[target][id := before[SourceOf(before, index, id)][id]]]
  }

  lemma PullResult(target: Contents, source: Contents, id: Id)
    requires ValidContents(source) && PlainContents(source) && id in source
    requires id in target ==> target[id] == source[id]
    ensures Pull(target, source, id, Some(source[id].sha256Hex)) == Ok(target[id := source[id]])
  {
    PullCopies(source, id);
    if id in target {
      assert target[id := source[id]] == target;
    }
  }

  lemma PullOneResult(index: ArtifactIndex, reports: Reports, before: Cluster, now: Cluster, target: Id, id: Id)
    requires ValidCluster(before) && Exact(before, reports) && Describes(index, reports)
    requires target in reports && id in index && target !in index[id].locations
    requires Pulling(before, now, target, index)
    ensures id !in before[target] && Sources(index, id, before.Keys) != {}
    ensures SourceOf(before, index, id) in before && id in before[SourceOf(before, index, id)]
    ensures PullOne(now, target, id, index) ==
            (AfterPull(before, now, target, id, index),
             Ok(Transfer(id, SourceOf(before, index, id), target, KnownSize(index, id))))
  {
    SourceHolds(index, reports, before, id);
    var source := SourceOf(before, index, id);
    assert target !in Holders(reports, id);
    assert source != target;
    PullResult(now[target], before[source], id);
    assert Sources(index, id, now.Keys) == Sources(index, id, before.Keys);
    assert now[source] == before[source];
    assert Pull(now[target], now[source], id, index[id].sha256Hex) == Ok(now[target][id := before[source][id]]);
  }

  lemma PullingPreserved(index: ArtifactIndex, before: Cluster, now: Cluster, target: Id, id: Id)
    requires Pulling(before, now, target, index) && id in index && id !in before[target]
    requires Sources(index, id, before.Keys) != {} && id in before[SourceOf(before, index, id)]
    ensures Pulling(before, AfterPull(before, now, target, id, index), target, index)
    ensures Extends(now[target], AfterPull(before, now, target, id, index)[target])
  {
  }

  /** A move of `id` to `target` from the least of its locations. */
  predicate MovesTo(t: Transfer, id: Id, target: Id, index: ArtifactIndex)
    requires id in index
  {
    && t.artifactId == id && t.target == target && t.bytes == KnownSize(index, id)
    && IsLeast(t.source, set a | a in index[id].locations)
  }

  function MovedId(t: Transfer): Id {
    t.artifactId
  }

  function LackedBy(target: Id, index: ArtifactIndex): Id -> bool {
    id => !(id in index && target in index[id].locations)
  }

  /** The inputs, repetitions included, that the target lacks according to the index. */
  function Lacking(target: Id, inputs: seq<Id>, index: ArtifactIndex): seq<Id> {
    Filter(LackedBy(target, index), inputs)
  }

  /** What localizing `inputs` at `target` achieves, and the pulls it takes. */
  ghost predicate Localized(
    before: Cluster, after: Cluster, target: Id, inputs: seq<Id>, index: ArtifactIndex, transfers: seq<Transfer>)
    requires InputsKnown(inputs, index)
  {
    && Pulling(before, after, target, index)
    && (forall id :: id in inputs ==> id in after[target] && KnownAs(index[id], FactsOf(after[target][id])))
    && Map(MovedId, transfers) == Lacking(target, inputs, index)
    && |transfers| == TransferCost(target, inputs, index)
    && (forall t :: t in transfers ==> t.artifactId in inputs && MovesTo(t, t.artifactId, target, index))
  }

  lemma PresentAtTarget(index: ArtifactIndex, reports: Reports, before: Cluster, now: Cluster, target: Id, id: Id)
    requires Exact(before, reports) && Describes(index, reports)
    requires target in reports && id in index
    requires Pulling(before, now, target, index) && id in now[target]
    ensures KnownAs(index[id], FactsOf(now[target][id]))
  {
    if id in before[target] {
      assert target in Holders(reports, id);
    } else {
      SourceHolds(index, reports, before, id);
    }
  }

  lemma LocalizeUnfold(
    cluster: Cluster, target: Id, inputs: seq<Id>, index: ArtifactIndex,
    now: Cluster, moved: Transfer, final: Cluster, transfers: seq<Transfer>)
    requires target in cluster && InputsKnown(inputs, index) && inputs != []
    requires target !in index[inputs[0]].locations
    requires PullOne(cluster, target, inputs[0], index) == (now, Ok(moved))
    requires target in now && Localize(now, target, inputs[1..], index) == (final, Ok(transfers))
    ensures Localize(cluster, target, inputs, index) == (final, Ok([moved] + transfers))
  {
  }

  lemma LocalizedStep(
    before: Cluster, after: Cluster, target: Id, inputs: seq<Id>, index: ArtifactIndex,
    moved: seq<Transfer>, transfers: seq<Transfer>)
    requires inputs != [] && InputsKnown(inputs, index)
    requires Localized(before, after, target, inputs[1..], index, transfers)
    requires Map(MovedId, moved) == if Holds(target, inputs[0], index) then [] else [inputs[0]]
    requires forall t :: t in moved ==> MovesTo(t, inputs[0], target, index)
    requires inputs[0] in after[target] && KnownAs(index[inputs[0]], FactsOf(after[target][inputs[0]]))
    ensures Localized(before, after, target, inputs, index, moved + transfers)
  {
    LackingCons(target, inputs, index);
    MovedConcat(moved, transfers);
    MovesJoined(target, inputs, index, moved, transfers);
    assert |moved| == |Map(MovedId, moved)|;
    forall id | id in inputs ensures id in after[target] && KnownAs(index[id], FactsOf(after[target][id])) {
      assert id == inputs[0] || id in inputs[1..];
    }
  }

  lemma MovesJoined(
    target: Id, inputs: seq<Id>, index: ArtifactIndex, moved: seq<Transfer>, transfers: seq<Transfer>)
    requires inputs != [] && InputsKnown(inputs, index)
    requires forall t :: t in moved ==> MovesTo(t, inputs[0], target, index)
    requires forall t :: t in transfers ==> t.artifactId in inputs[1..] && MovesTo(t, t.artifactId, target, index)
    ensures forall t :: t in moved + transfers ==> t.artifactId in inputs && MovesTo(t, t.artifactId, target, index)
  {
    forall t | t in moved + transfers ensures t.artifactId in inputs && MovesTo(t, t.artifactId, target, index) {
      if t in moved {
        assert t.artifactId == inputs[0];
      } else {
        assert t in transfers;
      }
    }
  }

  lemma LackingCons(target: Id, inputs: seq<Id>, index: ArtifactIndex)
    requires inputs != []
    ensures Lacking(target, inputs, index) ==
            (if Holds(target, inputs[0], index) then [] else [inputs[0]]) + Lacking(target, inputs[1..], index)
  {
  }

  lemma MovedConcat(a: seq<Transfer>, b: seq<Transfer>)
    ensures Map(MovedId, a + b) == Map(MovedId, a) + Map(MovedId, b)
  {
  }

  lemma {:induction false} LocalizeFrom(
    index: ArtifactIndex, reports: Reports, before: Cluster, now: Cluster, target: Id, inputs: seq<Id>)
    requires ValidCluster(before) && Exact(before, reports) && Describes(index, reports)
    requires target in reports && InputsKnown(inputs, index) && Pulling(before, now, target, index)
    ensures Localize(now, target, inputs, index).1.Ok?
    ensures Extends(now[target], Localize(now, target, inputs, index).0[target])
    ensures Localized(
      before, Localize(now, target, inputs, index).0, target, inputs, index,
      Localize(now, target, inputs, index).1.value)
    decreases |inputs|
  {
    if inputs != [] {
      var id, rest := inputs[0], inputs[1..];
      if target in index[id].locations {
        LocalizeFrom(index, reports, before, now, target, rest);
        var (localized, transfers) := Localize(now, target, rest, index);
        LocalizeSkips(now, target, inputs, index);
        HeldAtTarget(index, reports, before, localized, target, id);
        SkipStep(before, localized, target, inputs, index, transfers.value);
      } else {
        PullOneResult(index, reports, before, now, target, id);
        PullingPreserved(index, before, now, target, id);
        LocalizeFrom(index, reports, before, AfterPull(before, now, target, id, index), target, rest);
        var (after, moved) := PullOne(now, target, id, index);
        var (localized, transfers) := Localize(after, target, rest, index);
        LocalizeUnfold(now, target, inputs, index, after, moved.value, localized, transfers.value);
        PulledArrives(index, reports, before, now, target, id, localized);
        PullStep(before, localized, target, inputs, index, moved.value, transfers.value);
      }
    }
  }

  lemma LocalizeSkips(cluster: Cluster, target: Id, inputs: seq<Id>, index: ArtifactIndex)
    requires target in cluster && InputsKnown(inputs, index) && inputs != [] && target in index[inputs[0]].locations
    ensures Localize(cluster, target, inputs, index) == Localize(cluster, target, inputs[1..], index)
  {
  }

  lemma SkipStep(
    before: Cluster, final: Cluster, target: Id, inputs: seq<Id>, index: ArtifactIndex, transfers: seq<Transfer>)
    requires inputs != [] && InputsKnown(inputs, index) && target in index[inputs[0]].locations
    requires Localized(before, final, target, inputs[1..], index, transfers)
    requires inputs[0] in final[target] && KnownAs(index[inputs[0]], FactsOf(final[target][inputs[0]]))
    ensures Localized(before, final, target, inputs, index, transfers)
  {
    LocalizedStep(before, final, target, inputs, index, [], transfers);
    assert [] + transfers == transfers;
  }

  lemma HeldAtTarget(
    index: ArtifactIndex, reports: Reports, before: Cluster, final: Cluster, target: Id, id: Id)
    requires Exact(before, reports) && Describes(index, reports) && target in reports
    requires id in index && target in index[id].locations && Pulling(before, final, target, index)
    ensures id in final[target] && KnownAs(index[id], FactsOf(final[target][id]))
  {
    assert target in Holders(reports, id);
    PresentAtTarget(index, reports, before, final, target, id);
  }

  lemma SourceIsLeast(index: ArtifactIndex, reports: Reports, before: Cluster, target: Id, id: Id)
    requires Exact(before, reports) && Describes(index, reports) && id in index
    ensures Sources(index, id, before.Keys) != {}
    ensures IsLeast(SourceOf(before, index, id), set a | a in index[id].locations)
  {
    SourceHolds(index, reports, before, id);
    assert (set a | a in index[id].locations) == Holders(reports, id);
  }

  /** The pulled input is at the target to stay, moved from a location the index names. */
  lemma PulledArrives(
    index: ArtifactIndex, reports: Reports, before: Cluster, now: Cluster, target: Id, id: Id, final: Cluster)
    requires ValidCluster(before) && Exact(before, reports) && Describes(index, reports) && target in reports
    requires id in index && target !in index[id].locations
    requires Pulling(before, now, target, index) && Pulling(before, final, target, index)
    requires PullOne(now, target, id, index).1.Ok?
    requires Extends(PullOne(now, target, id, index).0[target], final[target])
    ensures MovesTo(PullOne(now, target, id, index).1.value, id, target, index)
    ensures id in final[target] && KnownAs(index[id], FactsOf(final[target][id]))
    ensures Extends(now[target], final[target])
  {
    PullOneResult(index, reports, before, now, target, id);
    PullingPreserved(index, before, now, target, id);
    SourceHolds(index, reports, before, id);
    assert id in PullOne(now, target, id, index).0[target];
    SourceIsLeast(index, reports, before, target, id);
    PresentAtTarget(index, reports, before, final, target, id);
  }

  lemma PullStep(
    before: Cluster, final: Cluster, target: Id, inputs: seq<Id>, index: ArtifactIndex,
    moved: Transfer, transfers: seq<Transfer>)
    requires inputs != [] && InputsKnown(inputs, index) && target !in index[inputs[0]].locations
    requires MovesTo(moved, inputs[0], target, index)
    requires Localized(before, final, target, inputs[1..], index, transfers)
    requires inputs[0] in final[target] && KnownAs(index[inputs[0]], FactsOf(final[target][inputs[0]]))
    ensures Localized(before, final, target, inputs, index, [moved] + transfers)
  {
    LocalizedStep(before, final, target, inputs, index, [moved], transfers);
  }

  /** The chosen agent answered the observation, so the snapshot is exact for it. */
  lemma PlacedAgentReports(q: Request, reports: Reports, b: Binding)
    requires q.state == Snapshot(q.environment, reports) && q.IsPlacement(b)
    ensures b.agentId in reports
  {
    var a :| a in q.state.agents && a.available && a.agentId == b.agentId;
    var i :| 0 <= i < |q.state.agents| && q.state.agents[i] == a;
    assert a == DescribeAgent(reports, q.environment.agents[i]);
  }

  /**
   End to end, with no network failure: an action placed on an observed snapshot is localized without
   ever lacking a source, by exactly as many pulls as the resolver charged for the placement (repeated
   inputs counted each time), a number no other candidate could beat; afterwards the target holds every
   input with the content observed, and nothing else in the cluster changed.
   */
  lemma TransferOptimality(q: Request, reports: Reports, cluster: Cluster)
    requires q.environment.Valid()
    requires ValidCluster(cluster) && Exact(cluster, reports) && Consistent(reports)
    requires q.state == Snapshot(q.environment, reports)
    requires q.Resolved().Ok?
    ensures var b := q.Resolved().value;
      && InputsKnown(q.action.inputs, q.Index())
      && b.agentId in cluster
      && (var r := Localize(cluster, b.agentId, q.action.inputs, q.Index());
          && r.1.Ok?
          && Localized(cluster, r.0, b.agentId, q.action.inputs, q.Index(), r.1.value)
          && (forall other :: q.IsCandidate(other) ==> |r.1.value| <= q.Cost(other)))
  {
    ResolutionCharacterised(q);
    var b := q.Resolved().value;
    PlacedAgentReports(q, reports, b);
    SnapshotDescribes(q.environment, reports);
    LocalizeFrom(q.Index(), reports, cluster, cluster, b.agentId, q.action.inputs);
    forall other | q.IsCandidate(other)
      ensures |Localize(cluster, b.agentId, q.action.inputs, q.Index()).1.value| <= q.Cost(other)
    {
      assert q.Preferred(b, other);
    }
  }

  function NotHeldAt(store: Contents): Id -> bool {
    id => id !in store
  }

  /** A move from the first worker in ID order that reported `t.artifactId`, of all its bytes. */
  ghost predicate MovedFromFirst(reports: Reports, cluster: Cluster, t: Transfer) {
    && t.source in reports && t.source in cluster && t.artifactId in cluster[t.source]
    && t.bytes == |cluster[t.source][t.artifactId].content|
    && (forall a :: a in reports && t.artifactId in reports[a].artifacts ==> LexLeq(t.source, a))
  }

  lemma LackingIsNotHeld(index: ArtifactIndex, reports: Reports, cluster: Cluster, target: Id, inputs: seq<Id>)
    requires Exact(cluster, reports) && Describes(index, reports) && target in reports && InputsKnown(inputs, index)
    ensures Lacking(target, inputs, index) == Filter(NotHeldAt(cluster[target]), inputs)
  {
    forall id | id in inputs ensures LackedBy(target, index)(id) == NotHeldAt(cluster[target])(id) {
      assert target in index[id].locations <==> target in Holders(reports, id);
    }
    FilterCongruent(LackedBy(target, index), NotHeldAt(cluster[target]), inputs);
  }

  lemma MoveIsFromFirst(index: ArtifactIndex, reports: Reports, cluster: Cluster, t: Transfer, target: Id)
    requires Exact(cluster, reports) && Describes(index, reports) && t.artifactId in index
    requires MovesTo(t, t.artifactId, target, index)
    ensures t.target == target && MovedFromFirst(reports, cluster, t)
  {
    forall a | a in reports && t.artifactId in reports[a].artifacts ensures LexLeq(t.source, a) {
      assert a in Holders(reports, t.artifactId);
      assert a in set l | l in index[t.artifactId].locations;
    }
    assert t.source in Holders(reports, t.artifactId);
    assert KnownAs(index[t.artifactId], FactsOf(reports[t.source].artifacts[t.artifactId]));
  }

  /**
   The result of an action placed on an observed snapshot names its operator, agent and deployment, and lists
   exactly the pulls that were made: in input order and with repetitions, one for every input its worker did
   not have, from the first worker that had it, with all its bytes.
   */
  lemma ResultListsPulls(setup: Deployed, reports: Reports, cluster: Cluster, action: JointDecision)
    requires setup.environment.Valid()
    requires ValidCluster(cluster) && Exact(cluster, reports) && Consistent(reports)
    requires action.JointAction?
    requires ExecuteAction(setup, cluster, action, Snapshot(setup.environment, reports)).1.Ok?
    ensures var o := ExecuteAction(setup, cluster, action, Snapshot(setup.environment, reports)).1.value;
            && action.semantic.operator in setup.registry && o.operator == action.semantic.operator
            && Resolution(
                 action.physical, action.semantic, setup.registry[action.semantic.operator], setup.environment,
                 Snapshot(setup.environment, reports)) == Ok(Binding(o.agentId, o.deploymentId))
            && o.agentId in cluster
            && Map(MovedId, o.transfers) == Filter(NotHeldAt(cluster[o.agentId]), action.semantic.inputs)
            && (forall t :: t in o.transfers ==> t.target == o.agentId && MovedFromFirst(reports, cluster, t))
  {
    var state := Snapshot(setup.environment, reports);
    var q := Request(
      action.physical, action.semantic, setup.registry[action.semantic.operator], setup.environment, state);
    TransferOptimality(q, reports, cluster);
    SnapshotDescribes(setup.environment, reports);
    var b := q.Resolved().value;
    PlacementReports(q, reports, b);
    LackingIsNotHeld(q.Index(), reports, cluster, b.agentId, action.semantic.inputs);
    var transfers := Localize(cluster, b.agentId, action.semantic.inputs, q.Index()).1.value;
    forall t | t in transfers ensures t.target == b.agentId && MovedFromFirst(reports, cluster, t) {
      MoveIsFromFirst(q.Index(), reports, cluster, t, b.agentId);
    }
  }

  /** What an action that succeeded left: nothing changed elsewhere, and what is new at its worker has a reason. */
  lemma NewAtWorker(setup: Deployed, reports: Reports, cluster: Cluster, action: JointDecision, id: Id)
    requires setup.environment.Valid()
    requires ValidCluster(cluster) && Exact(cluster, reports) && Consistent(reports)
    requires action.JointAction?
    requires ExecuteAction(setup, cluster, action, Snapshot(setup.environment, reports)).1.Ok?
    ensures var (left, done) := ExecuteAction(setup, cluster, action, Snapshot(setup.environment, reports));
            var target := done.value.agentId;
            && left.Keys == cluster.Keys && target in cluster
            && (forall a :: a in cluster && a != target ==> left[a] == cluster[a])
            && Extends(cluster[target], left[target])
            && (id in left[target] && id !in cluster[target] ==>
              || id in Map(MovedId, done.value.transfers)
              || (action.semantic.operator != "invoke_model"
                  && exists inputs :: left[target][id] in setup.semantics.operate(action.semantic, inputs).produced))
  {
    var state := Snapshot(setup.environment, reports);
    var q := Request(
      action.physical, action.semantic, setup.registry[action.semantic.operator], setup.environment, state);
    TransferOptimality(q, reports, cluster);
    var b := q.Resolved().value;
    var (localized, pulled) := Localize(cluster, b.agentId, action.semantic.inputs, q.Index());
    ExecuteKeeps(
      localized[b.agentId], action.semantic, b.deploymentId, SurfaceAt(setup, b.agentId), setup.semantics, id);
    if id in localized[b.agentId] && id !in cluster[b.agentId] {
      LocalizedOnlyMoves(cluster, b.agentId, action.semantic.inputs, q.Index(), id);
    }
  }

  lemma ExecuteKeeps(
    store: Contents, action: SemanticAction, deploymentId: Option<Id>, surface: Surface, semantics: Semantics, id: Id)
    requires ExecuteOn(store, action, deploymentId, surface, semantics).1.Ok?
    ensures var after := ExecuteOn(store, action, deploymentId, surface, semantics).0;
            && Extends(store, after)
            && (id in after && id !in store ==>
              && action.operator != "invoke_model"
              && exists inputs :: after[id] in semantics.operate(action, inputs).produced)
  {
    if action.operator != "invoke_model" {
      var inputs := Load(store, action.inputs).value;
      PutUntilRefusedAll(store, semantics.operate(action, inputs).produced);
      PutAllExtends(store, semantics.operate(action, inputs).produced);
    }
  }

  /** Whatever localization brings to the target is an input it moved. */
  lemma {:induction false} LocalizedOnlyMoves(
    cluster: Cluster, target: Id, inputs: seq<Id>, index: ArtifactIndex, id: Id)
    requires target in cluster && InputsKnown(inputs, index) && Localize(cluster, target, inputs, index).1.Ok?
    ensures target in Localize(cluster, target, inputs, index).0
    ensures id in Localize(cluster, target, inputs, index).0[target] ==>
      id in cluster[target] || id in Map(MovedId, Localize(cluster, target, inputs, index).1.value)
    decreases |inputs|
  {
    if inputs != [] {
      if target in index[inputs[0]].locations {
        LocalizedOnlyMoves(cluster, target, inputs[1..], index, id);
      } else {
        var (after, moved) := PullOne(cluster, target, inputs[0], index);
        var (final, rest) := Localize(after, target, inputs[1..], index);
        LocalizedOnlyMoves(after, target, inputs[1..], index, id);
        MovedConcat([moved.value], rest.value);
        assert Map(MovedId, [moved.value]) == [inputs[0]];
      }
    }
  }

  lemma PlacementReports(q: Request, reports: Reports, b: Binding)
    requires q.environment.Valid() && q.state == Snapshot(q.environment, reports) && q.Resolved() == Ok(b)
    ensures b.agentId in reports
  {
    ResolutionCharacterised(q);
    PlacedAgentReports(q, reports, b);
  }

  /** When DATA_LOCAL can place an action, AUTO runs it in the same place and moves nothing. */
  lemma AutoMovesNothingWhenLocal(local: Request, auto: Request, reports: Reports, cluster: Cluster)
    requires local.environment.Valid()
    requires ValidCluster(cluster) && Exact(cluster, reports) && Consistent(reports)
    requires local.state == Snapshot(local.environment, reports)
    requires local.decision == DATA_LOCAL && auto == local.(decision := AUTO)
    requires local.Resolved().Ok?
    ensures auto.Resolved() == local.Resolved()
    ensures InputsKnown(auto.action.inputs, auto.Index()) && auto.Resolved().value.agentId in cluster
    ensures Localize(cluster, auto.Resolved().value.agentId, auto.action.inputs, auto.Index()) == (cluster, Ok([]))
  {
    AutoExtendsDataLocal(local, auto);
    TransferOptimality(auto, reports, cluster);
    var target := auto.Resolved().value.agentId;
    FreeIffLocal(target, auto.action.inputs, auto.Index());
    LocalNeedsNoPull(cluster, target, auto.action.inputs, auto.Index());
  }

  lemma {:induction false} LocalNeedsNoPull(cluster: Cluster, target: Id, inputs: seq<Id>, index: ArtifactIndex)
    requires target in cluster && HoldsAll(target, inputs, index)
    decreases |inputs|
    ensures InputsKnown(inputs, index)
    ensures Localize(cluster, target, inputs, index) == (cluster, Ok([]))
  {
    if inputs != [] {
      assert inputs[0] in inputs && Holds(target, inputs[0], index);
      LocalNeedsNoPull(cluster, target, inputs[1..], index);
    }
  }

  // ---------- Admission, end to end ----------

  lemma {:induction false} LoadedDescribed(store: Contents, inputs: seq<Id>, index: ArtifactIndex)
    requires forall id :: id in inputs ==> id in index && id in store && KnownAs(index[id], FactsOf(store[id]))
    ensures Load(store, inputs).Ok?
    ensures Described(inputs, index, Map(AsModelArtifact, Load(store, inputs).value))
  {
    if inputs != [] {
      LoadedDescribed(store, inputs[1..], index);
      var rest := Load(store, inputs[1..]).value;
      assert Load(store, inputs).value == [store[inputs[0]]] + rest;
    }
  }

  /**
   A model request the controller admitted, on workers whose contracts were validated, is admitted by the
   worker it was placed on once its inputs are there, with the controller's own estimate, unless one of
   those inputs is declared text but is not valid UTF-8.
   */
  lemma AdmittedRequestAdmittedAtWorker(
    q: Request, reports: Reports, cluster: Cluster, deployments: map<Id, WorkerDeployment>)
    requires q.environment.Valid()
    requires ValidCluster(cluster) && Exact(cluster, reports) && Consistent(reports)
    requires q.state == Snapshot(q.environment, reports)
    requires IsModelOperator(q.operator) && q.Resolved().Ok?
    requires forall d :: d in q.environment.deployments && d.agentId == q.Resolved().value.agentId ==>
      d.deploymentId in deployments && SameContract(d, deployments[d.deploymentId])
    ensures var b := q.Resolved().value;
      && InputsKnown(q.action.inputs, q.Index()) && b.agentId in cluster
      && Localize(cluster, b.agentId, q.action.inputs, q.Index()).1.Ok?
      && b.deploymentId.Some? && b.deploymentId.value in deployments
      && (var loaded := Load(Localize(cluster, b.agentId, q.action.inputs, q.Index()).0[b.agentId], q.action.inputs);
          && loaded.Ok?
          && (var artifacts := Map(AsModelArtifact, loaded.value);
              var admitted := Preflight(PromptText(q.action), artifacts, deployments[b.deploymentId.value]);
              && (admitted.Ok? <==> AllTextDecodes(artifacts))
              && (admitted.Ok? ==>
                exists d :: q.Serves(d, b) && EstimateRequest(d, q.action, q.Index()) == Ok(admitted.value))))
  {
    TransferOptimality(q, reports, cluster);
    ResolutionCharacterised(q);
    var b := q.Resolved().value;
    var d :| q.Serves(d, b) && EstimateRequest(d, q.action, q.Index()).Ok?;
    var store := Localize(cluster, b.agentId, q.action.inputs, q.Index()).0[b.agentId];
    LoadedDescribed(store, q.action.inputs, q.Index());
    var artifacts := Map(AsModelArtifact, Load(store, q.action.inputs).value);
    PreflightAgreement(d, deployments[d.deploymentId], q.action, q.Index(), artifacts);
  }
}
