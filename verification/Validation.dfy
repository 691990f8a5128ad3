/** Startup surface validation: every worker offers exactly the operators and deployments declared for it. */
module Validation {
  import opened Basics
  import opened Sorting
  import opened CoreState
  import opened ModelBackend
  import opened WorkerServer
  import opened Protocol
  import opened Observer

  /** The part of a worker's `/state` that validation reads. */
  datatype WorkerState = WorkerState(agentId: Id, operators: set<string>, deployments: seq<WorkerDeployment>)

  /** The values of a dictionary in the order of its sorted keys. */
  function Listed<T>(m: map<Id, T>): (values: seq<T>)
    ensures |values| == |m.Keys|
  {
    var keys := Enumerate(m.Keys);
    seq(|keys|, i requires 0 <= i < |keys| => assert keys[i] in keys; m[keys[i]])
  }

  /** The same values, each under the key it carries itself. */
  function Rekey<T>(key: T -> Id, m: map<Id, T>): map<Id, T> {
    IndexBy(key, Listed(m))
  }

  function StateOf(worker: Worker): WorkerState {
    WorkerState(worker.agentId, worker.surface.operators, Listed(worker.surface.deployments))
  }

  datatype SurfaceError = SurfaceMismatch

  function StateKey(state: WorkerState): Id {
    state.agentId
  }

  function WorkerDeploymentKey(deployment: WorkerDeployment): Id {
    deployment.deploymentId
  }

  type Surfaces = map<Id, WorkerState>

  /** Answers re-keyed by the ID each of them carries. */
  function ByAgent(states: Surfaces): Surfaces {
    Rekey(StateKey, states)
  }

  function OwnedBy(agentId: Id): DeploymentSpec -> bool {
    (d: DeploymentSpec) => d.agentId == agentId
  }

  function DeploymentsOf(agentId: Id, deployments: seq<DeploymentSpec>): map<Id, DeploymentSpec> {
    IndexBy(DeploymentKey, Filter(OwnedBy(agentId), deployments))
  }

  function ExpectedOperators(capabilities: set<string>, registry: map<string, OperatorSpec>): set<string> {
    set operator | operator in registry.Keys && registry[operator].capabilityRequirements <= capabilities
  }

  predicate DeploymentsMatch(expected: map<Id, DeploymentSpec>, actual: map<Id, WorkerDeployment>) {
    actual.Keys == expected.Keys && forall id :: id in actual ==> SameContract(expected[id], actual[id])
  }

  predicate SurfaceMatches(
      spec: AgentSpec, environment: EnvironmentSpec, registry: map<string, OperatorSpec>, state: WorkerState) {
    && state.operators == ExpectedOperators(spec.capabilities, registry)
    && DeploymentsMatch(DeploymentsOf(spec.agentId, environment.deployments),
         IndexBy(WorkerDeploymentKey, state.deployments))
  }

  predicate SurfacesMatch(environment: EnvironmentSpec, registry: map<string, OperatorSpec>, states: Surfaces) {
    var specs := IndexBy(AgentKey, environment.agents);
    && states.Keys == specs.Keys
    && ByAgent(states).Keys == specs.Keys
    && forall id :: id in specs ==> SurfaceMatches(specs[id], environment, registry, ByAgent(states)[id])
  }

  // ---------- The validation as it runs ----------

  method GroupDeployments(agentIds: set<Id>, deployments: seq<DeploymentSpec>)
    returns (grouped: map<Id, map<Id, DeploymentSpec>>)
    requires forall d :: d in deployments ==> d.agentId in agentIds
    ensures grouped.Keys == agentIds
    ensures forall id :: id in agentIds ==> grouped[id] == DeploymentsOf(id, deployments)
  {
    grouped := map id | id in agentIds :: map[];
    for i := 0 to |deployments|
      invariant grouped.Keys == agentIds
      invariant forall id :: id in agentIds ==> grouped[id] == DeploymentsOf(id, deployments[..i])
    {
      var d := deployments[i];
      assert deployments[..i + 1] == deployments[..i] + [d];
      forall id ensures DeploymentsOf(id, deployments[..i + 1]) ==
        if d.agentId == id then DeploymentsOf(id, deployments[..i])[d.deploymentId := d]
        else DeploymentsOf(id, deployments[..i])
      {
        DeploymentsOfSnoc(id, deployments[..i], d);
      }
      grouped := grouped[d.agentId := grouped[d.agentId][d.deploymentId := d]];
    }
    assert deployments[..|deployments|] == deployments;
  }

  lemma DeploymentsOfSnoc(id: Id, deployments: seq<DeploymentSpec>, d: DeploymentSpec)
    ensures DeploymentsOf(id, deployments + [d]) ==
            if d.agentId == id then DeploymentsOf(id, deployments)[d.deploymentId := d]
            else DeploymentsOf(id, deployments)
  {
    var mine := OwnedBy(id);
    FilterSnoc(mine, deployments, d);
    var kept := Filter(mine, deployments);
    assert (kept + [d])[..|kept|] == kept;
  }

  method CompareDeployments(expected: map<Id, DeploymentSpec>, actual: map<Id, WorkerDeployment>) returns (same: bool)
    ensures same == DeploymentsMatch(expected, actual)
  {
    if actual.Keys != expected.Keys {
      return false;
    }
    var remaining := actual.Keys;
    while remaining != {}
      invariant remaining <= actual.Keys
      invariant forall id :: id in actual && id !in remaining ==> SameContract(expected[id], actual[id])
      decreases |remaining|
    {
      var id := Least(remaining);
      if !SameContract(expected[id], actual[id]) {
        return false;
      }
      remaining := remaining - {id};
    }
    return true;
  }

  method CompareSurface(
    spec: AgentSpec, environment: EnvironmentSpec, registry: map<string, OperatorSpec>, state: WorkerState,
    declared: map<Id, DeploymentSpec>)
    returns (same: bool)
    requires declared == DeploymentsOf(spec.agentId, environment.deployments)
    ensures same == SurfaceMatches(spec, environment, registry, state)
  {
    if state.operators != ExpectedOperators(spec.capabilities, registry) {
      return false;
    }
    same := CompareDeployments(declared, IndexBy(WorkerDeploymentKey, state.deployments));
  }

  method ValidateWorkerSurfaces(environment: EnvironmentSpec, registry: map<string, OperatorSpec>, states: Surfaces)
    returns (r: Result<Surfaces, SurfaceError>)
    requires environment.Valid()
    ensures r == if SurfacesMatch(environment, registry, states) then Ok(ByAgent(states)) else Err(SurfaceMismatch)
  {
    var specs := IndexBy(AgentKey, environment.agents);
    if states.Keys != specs.Keys {
      return Err(SurfaceMismatch);
    }
    var byAgent := ByAgent(states);
    if byAgent.Keys != specs.Keys {
      return Err(SurfaceMismatch);
    }
    forall d | d in environment.deployments ensures d.agentId in specs {
      var a :| a in environment.agents && a.agentId == d.agentId;
      ItemIsIndexed(AgentKey, environment.agents, a);
    }
    var grouped := GroupDeployments(specs.Keys, environment.deployments);
    var remaining := specs.Keys;
    while remaining != {}
      invariant remaining <= specs.Keys
      invariant forall id :: id in specs && id !in remaining ==>
        SurfaceMatches(specs[id], environment, registry, byAgent[id])
      decreases |remaining|
    {
      var id := Least(remaining);
      IndexedIsItem(AgentKey, environment.agents, id);
      var same := CompareSurface(specs[id], environment, registry, byAgent[id], grouped[id]);
      if !same {
        return Err(SurfaceMismatch);
      }
      remaining := remaining - {id};
    }
    return Ok(byAgent);
  }

  // ---------- What an accepted surface guarantees ----------

  lemma {:induction false} IndexSize<T>(key: T -> Id, items: seq<T>)
    ensures |IndexBy(key, items).Keys| <= |items|
  {
    if items != [] {
      IndexSize(key, items[..|items| - 1]);
    }
  }

  lemma IndexKeysSnoc<T>(key: T -> Id, items: seq<T>, last: T)
    ensures IndexBy(key, items + [last]).Keys == IndexBy(key, items).Keys + {key(last)}
  {
    assert (items + [last])[..|items|] == items;
  }

  lemma FreshKeySnoc<T>(key: T -> Id, items: seq<T>, last: T)
    requires NoDuplicates(Map(key, items)) && key(last) !in IndexBy(key, items)
    ensures NoDuplicates(Map(key, items + [last]))
  {
    forall i | 0 <= i < |items| ensures key(items[i]) != key(last) {
      ItemIsIndexed(key, items, items[i]);
    }
    assert Map(key, items + [last]) == Map(key, items) + [key(last)];
  }

  lemma {:induction false} FullIndex<T>(key: T -> Id, items: seq<T>)
    requires |IndexBy(key, items).Keys| == |items|
    ensures NoDuplicates(Map(key, items))
  {
    if items != [] {
      var earlier, last := items[..|items| - 1], items[|items| - 1];
      assert items == earlier + [last];
      IndexSize(key, earlier);
      IndexKeysSnoc(key, earlier, last);
      FullIndex(key, earlier);
      FreshKeySnoc(key, earlier, last);
    }
  }

  lemma ValueListed<T>(m: map<Id, T>, id: Id)
    requires id in m
    ensures m[id] in Listed(m)
  {
    var keys := Enumerate(m.Keys);
    assert id in keys;
    var i :| 0 <= i < |keys| && keys[i] == id;
    assert Listed(m)[i] == m[id];
  }

  lemma ListedValue<T>(m: map<Id, T>, value: T)
    requires value in Listed(m)
    ensures exists id :: id in m && m[id] == value
  {
    var keys := Enumerate(m.Keys);
    var i :| 0 <= i < |keys| && Listed(m)[i] == value;
    assert keys[i] in keys;
  }

  /** When re-keying keeps the keys it loses no value: each is found under the key it carries. */
  lemma ValueRekeyed<T>(key: T -> Id, m: map<Id, T>, id: Id)
    requires Rekey(key, m).Keys == m.Keys && id in m
    ensures key(m[id]) in m && Rekey(key, m)[key(m[id])] == m[id]
  {
    FullIndex(key, Listed(m));
    ValueListed(m, id);
    UniquelyIndexed(key, Listed(m), m[id]);
  }

  lemma RekeyedValue<T>(key: T -> Id, m: map<Id, T>, id: Id)
    requires id in Rekey(key, m)
    ensures key(Rekey(key, m)[id]) == id
    ensures exists k :: k in m && m[k] == Rekey(key, m)[id]
  {
    IndexedIsItem(key, Listed(m), id);
    ListedValue(m, Rekey(key, m)[id]);
  }

  lemma OwnKeyKept<T>(key: T -> Id, m: map<Id, T>, id: Id)
    requires forall k :: k in m ==> key(m[k]) == k
    ensures id in Rekey(key, m) <==> id in m
    ensures id in m ==> Rekey(key, m)[id] == m[id]
  {
    if id in m {
      ValueListed(m, id);
      ItemIsIndexed(key, Listed(m), m[id]);
    }
    if id in Rekey(key, m) {
      RekeyedValue(key, m, id);
    }
  }

  /** Re-keying changes nothing exactly when every value stood under its own key. */
  lemma RekeyExact<T>(key: T -> Id, m: map<Id, T>)
    ensures Rekey(key, m) == m <==> forall id :: id in m ==> key(m[id]) == id
  {
    if forall id :: id in m ==> key(m[id]) == id {
      forall id ensures (id in Rekey(key, m) <==> id in m) && (id in m ==> Rekey(key, m)[id] == m[id]) {
        OwnKeyKept(key, m, id);
      }
    } else if Rekey(key, m) == m {
      forall id | id in m ensures key(m[id]) == id {
        RekeyedValue(key, m, id);
      }
    }
  }

  /** Validation compares each client's own answer exactly when every client answers under its own name. */
  lemma OwnAnswersCompared(states: Surfaces)
    ensures ByAgent(states) == states <==> forall id :: id in states ==> states[id].agentId == id
  {
    RekeyExact(StateKey, states);
  }

  /** After validation every declared deployment of an honest worker has exactly the declared contract. */
  lemma ValidatedContracts(
      environment: EnvironmentSpec, registry: map<string, OperatorSpec>, states: Surfaces, d: DeploymentSpec)
    requires environment.Valid() && SurfacesMatch(environment, registry, states)
    requires d in environment.deployments
    requires d.agentId in states && states[d.agentId].agentId == d.agentId
    ensures var actual := IndexBy(WorkerDeploymentKey, states[d.agentId].deployments);
            d.deploymentId in actual && SameContract(d, actual[d.deploymentId])
  {
    ValueRekeyed(StateKey, states, d.agentId);
    DeclaredIsListed(environment, d);
    DeclaredAgent(environment, d.agentId);
  }

  /** And every honest worker has exactly the operators its capabilities call for. */
  lemma ValidatedOperators(
      environment: EnvironmentSpec, registry: map<string, OperatorSpec>, states: Surfaces, spec: AgentSpec)
    requires environment.Valid() && SurfacesMatch(environment, registry, states) && spec in environment.agents
    ensures spec.agentId in states
    ensures states[spec.agentId].agentId == spec.agentId ==>
      states[spec.agentId].operators == ExpectedOperators(spec.capabilities, registry)
  {
    UniquelyIndexed(AgentKey, environment.agents, spec);
    if states[spec.agentId].agentId == spec.agentId {
      ValueRekeyed(StateKey, states, spec.agentId);
    }
  }

  lemma DeclaredAgent(environment: EnvironmentSpec, agentId: Id)
    requires exists a :: a in environment.agents && a.agentId == agentId
    ensures agentId in IndexBy(AgentKey, environment.agents)
    ensures IndexBy(AgentKey, environment.agents)[agentId].agentId == agentId
  {
    var a :| a in environment.agents && a.agentId == agentId;
    ItemIsIndexed(AgentKey, environment.agents, a);
    IndexedIsItem(AgentKey, environment.agents, agentId);
  }

  lemma DeclaredIsListed(environment: EnvironmentSpec, d: DeploymentSpec)
    requires environment.Valid() && d in environment.deployments
    ensures d.deploymentId in DeploymentsOf(d.agentId, environment.deployments)
    ensures DeploymentsOf(d.agentId, environment.deployments)[d.deploymentId] == d
  {
    var mine := Filter(OwnedBy(d.agentId), environment.deployments);
    assert DeploymentsOf(d.agentId, environment.deployments) == IndexBy(DeploymentKey, mine);
    FilterMembers(OwnedBy(d.agentId), environment.deployments);
    ItemIsIndexed(DeploymentKey, mine, d);
    IndexedIsItem(DeploymentKey, mine, d.deploymentId);
    var found := IndexBy(DeploymentKey, mine)[d.deploymentId];
    UniquelyIndexed(DeploymentKey, environment.deployments, d);
    UniquelyIndexed(DeploymentKey, environment.deployments, found);
  }

  // ---------- Acceptance, spelled out ----------

  ghost predicate Declares(environment: EnvironmentSpec, agentId: Id, id: Id) {
    exists d :: d in environment.deployments && d.agentId == agentId && d.deploymentId == id
  }

  /**
   The operators whose requirements the agent's capabilities meet, no more and no fewer, and the deployments
   declared for it, field by field.
   */
  ghost predicate OffersDeclared(
    spec: AgentSpec, environment: EnvironmentSpec, registry: map<string, OperatorSpec>, state: WorkerState)
  {
    var listed := IndexBy(WorkerDeploymentKey, state.deployments);
    && (forall o :: o in state.operators <==> o in registry && registry[o].capabilityRequirements <= spec.capabilities)
    && (forall id :: id in listed <==> Declares(environment, spec.agentId, id))
    && (forall d :: d in environment.deployments && d.agentId == spec.agentId && d.deploymentId in listed ==>
      && listed[d.deploymentId].modelId == d.modelId
      && listed[d.deploymentId].modalities == d.modalities
      && listed[d.deploymentId].contextWindow == d.contextWindow
      && listed[d.deploymentId].reservedOutputTokens == d.reservedOutputTokens
      && listed[d.deploymentId].imageTokenCost == d.imageTokenCost)
  }

  lemma DeploymentsDeclared(environment: EnvironmentSpec, agentId: Id, id: Id)
    requires environment.Valid()
    ensures id in DeploymentsOf(agentId, environment.deployments) <==> Declares(environment, agentId, id)
    ensures forall d :: d in environment.deployments && d.agentId == agentId && d.deploymentId == id ==>
      id in DeploymentsOf(agentId, environment.deployments) && DeploymentsOf(agentId, environment.deployments)[id] == d
  {
    if id in DeploymentsOf(agentId, environment.deployments) {
      FoundIsDeclared(environment, agentId, id);
    }
    forall d | d in environment.deployments && d.agentId == agentId && d.deploymentId == id
      ensures id in DeploymentsOf(agentId, environment.deployments)
      ensures DeploymentsOf(agentId, environment.deployments)[id] == d
    {
      DeclaredIsListed(environment, d);
    }
  }

  lemma DeploymentsMatchMeans(
    environment: EnvironmentSpec, agentId: Id, actual: map<Id, WorkerDeployment>)
    requires environment.Valid() && forall id :: id in actual ==> actual[id].deploymentId == id
    ensures DeploymentsMatch(DeploymentsOf(agentId, environment.deployments), actual) <==>
      && (forall id :: id in actual <==> Declares(environment, agentId, id))
      && (forall d :: d in environment.deployments && d.agentId == agentId && d.deploymentId in actual ==>
        && actual[d.deploymentId].modelId == d.modelId
        && actual[d.deploymentId].modalities == d.modalities
        && actual[d.deploymentId].contextWindow == d.contextWindow
        && actual[d.deploymentId].reservedOutputTokens == d.reservedOutputTokens
        && actual[d.deploymentId].imageTokenCost == d.imageTokenCost)
  {
    var expected := DeploymentsOf(agentId, environment.deployments);
    forall id ensures id in expected <==> Declares(environment, agentId, id) {
      DeploymentsDeclared(environment, agentId, id);
    }
    forall d | d in environment.deployments && d.agentId == agentId
      ensures d.deploymentId in expected && expected[d.deploymentId] == d
    {
      DeploymentsDeclared(environment, agentId, d.deploymentId);
    }
    forall id | id in expected
      ensures expected[id] in environment.deployments && expected[id].agentId == agentId
      ensures expected[id].deploymentId == id
    {
      FoundIsDeclared(environment, agentId, id);
    }
  }

  lemma SurfaceMatchMeans(
    spec: AgentSpec, environment: EnvironmentSpec, registry: map<string, OperatorSpec>, state: WorkerState)
    requires environment.Valid()
    ensures SurfaceMatches(spec, environment, registry, state) <==>
            OffersDeclared(spec, environment, registry, state)
  {
    var listed := IndexBy(WorkerDeploymentKey, state.deployments);
    forall id | id in listed ensures listed[id].deploymentId == id {
      IndexedIsItem(WorkerDeploymentKey, state.deployments, id);
    }
    DeploymentsMatchMeans(environment, spec.agentId, listed);
  }

  lemma DeclaredSpec(environment: EnvironmentSpec, id: Id)
    requires environment.Valid()
    ensures var specs := IndexBy(AgentKey, environment.agents);
            && (id in specs <==> exists spec :: spec in environment.agents && spec.agentId == id)
            && (forall spec :: spec in environment.agents && spec.agentId == id ==> id in specs && specs[id] == spec)
  {
    IndexedIsItem(AgentKey, environment.agents, id);
    forall spec | spec in environment.agents && spec.agentId == id
      ensures id in IndexBy(AgentKey, environment.agents) && IndexBy(AgentKey, environment.agents)[id] == spec
    {
      UniquelyIndexed(AgentKey, environment.agents, spec);
    }
  }

  ghost predicate Declared(environment: EnvironmentSpec, id: Id) {
    exists spec :: spec in environment.agents && spec.agentId == id
  }

  lemma AcceptedOffers(
      environment: EnvironmentSpec, registry: map<string, OperatorSpec>, states: Surfaces, spec: AgentSpec)
    requires environment.Valid() && (forall id :: id in states ==> states[id].agentId == id)
    requires SurfacesMatch(environment, registry, states) && spec in environment.agents
    ensures spec.agentId in states && OffersDeclared(spec, environment, registry, states[spec.agentId])
  {
    OwnAnswersCompared(states);
    DeclaredSpec(environment, spec.agentId);
    SurfaceMatchMeans(spec, environment, registry, states[spec.agentId]);
  }

  lemma SpecKeys(environment: EnvironmentSpec)
    requires environment.Valid()
    ensures forall id :: id in IndexBy(AgentKey, environment.agents) <==> Declared(environment, id)
  {
    forall id ensures id in IndexBy(AgentKey, environment.agents) <==> Declared(environment, id) {
      DeclaredSpec(environment, id);
    }
  }

  lemma OfferedAccepted(environment: EnvironmentSpec, registry: map<string, OperatorSpec>, states: Surfaces)
    requires environment.Valid() && (forall id :: id in states ==> states[id].agentId == id)
    requires forall id :: id in states <==> Declared(environment, id)
    requires forall spec :: spec in environment.agents && spec.agentId in states ==>
      OffersDeclared(spec, environment, registry, states[spec.agentId])
    ensures SurfacesMatch(environment, registry, states)
  {
    OwnAnswersCompared(states);
    SpecKeys(environment);
    var specs := IndexBy(AgentKey, environment.agents);
    assert states.Keys == specs.Keys;
    forall id | id in specs ensures SurfaceMatches(specs[id], environment, registry, states[id]) {
      IndexedIsItem(AgentKey, environment.agents, id);
      SurfaceMatchMeans(specs[id], environment, registry, states[id]);
    }
  }

  ghost predicate AllAsDeclared(environment: EnvironmentSpec, registry: map<string, OperatorSpec>, states: Surfaces) {
    && (forall id :: id in states <==> Declared(environment, id))
    && (forall spec :: spec in environment.agents && spec.agentId in states ==>
      OffersDeclared(spec, environment, registry, states[spec.agentId]))
  }

  lemma AcceptedAsDeclared(environment: EnvironmentSpec, registry: map<string, OperatorSpec>, states: Surfaces)
    requires environment.Valid() && (forall id :: id in states ==> states[id].agentId == id)
    requires SurfacesMatch(environment, registry, states)
    ensures AllAsDeclared(environment, registry, states)
  {
    SpecKeys(environment);
    assert states.Keys == IndexBy(AgentKey, environment.agents).Keys;
    forall spec | spec in environment.agents && spec.agentId in states
      ensures OffersDeclared(spec, environment, registry, states[spec.agentId])
    {
      AcceptedOffers(environment, registry, states, spec);
    }
  }

  /** Workers under their own names are accepted iff each declared agent has one, offering what is declared. */
  lemma AcceptedIffDeclared(environment: EnvironmentSpec, registry: map<string, OperatorSpec>, states: Surfaces)
    requires environment.Valid() && (forall id :: id in states ==> states[id].agentId == id)
    ensures SurfacesMatch(environment, registry, states) <==> AllAsDeclared(environment, registry, states)
  {
    if AllAsDeclared(environment, registry, states) {
      OfferedAccepted(environment, registry, states);
    }
    if SurfacesMatch(environment, registry, states) {
      AcceptedAsDeclared(environment, registry, states);
    }
  }

  // ---------- Workers with swapped identities ----------

  /** The same workers behind exchanged clients. */
  function Swap(states: Surfaces, x: Id, y: Id): Surfaces
    requires x in states && y in states
  {
    states[x := states[y]][y := states[x]]
  }

  lemma SwapElements<T>(s: seq<T>, i: nat, j: nat)
    requires i < |s| && j < |s|
    ensures multiset(s[i := s[j]][j := s[i]]) == multiset(s)
  {
  }

  lemma ListedAt<T>(m: map<Id, T>, k: nat)
    requires k < |m.Keys|
    ensures Enumerate(m.Keys)[k] in m && Listed(m)[k] == m[Enumerate(m.Keys)[k]]
  {
    assert Enumerate(m.Keys)[k] in Enumerate(m.Keys);
  }

  lemma SwapListedAt(states: Surfaces, x: Id, y: Id, i: nat, j: nat, k: nat)
    requires x in states && y in states && Swap(states, x, y).Keys == states.Keys
    requires i < |states.Keys| && j < |states.Keys| && k < |states.Keys|
    requires Enumerate(states.Keys)[i] == x && Enumerate(states.Keys)[j] == y
    ensures Listed(Swap(states, x, y))[k] == Listed(states)[i := Listed(states)[j]][j := Listed(states)[i]][k]
  {
    ListedAt(states, i);
    ListedAt(states, j);
    ListedAt(states, k);
    ListedAt(Swap(states, x, y), k);
    SwappedAt(states, x, y, Enumerate(states.Keys)[k]);
  }

  lemma SwapListed(states: Surfaces, x: Id, y: Id)
    requires x in states && y in states
    ensures Swap(states, x, y).Keys == states.Keys
    ensures multiset(Listed(Swap(states, x, y))) == multiset(Listed(states))
  {
    var keys, listed, swapped := Enumerate(states.Keys), Listed(states), Listed(Swap(states, x, y));
    assert Swap(states, x, y).Keys == states.Keys;
    assert x in keys && y in keys;
    var i: nat :| i < |keys| && keys[i] == x;
    var j: nat :| j < |keys| && keys[j] == y;
    var exchanged := listed[i := listed[j]][j := listed[i]];
    forall k: nat | k < |keys| ensures swapped[k] == exchanged[k] {
      SwapListedAt(states, x, y, i, j, k);
    }
    assert swapped == exchanged;
    SwapElements(listed, i, j);
  }

  lemma SwappedAt(states: Surfaces, x: Id, y: Id, id: Id)
    requires x in states && y in states && id in states
    ensures Swap(states, x, y)[id] == if id == y then states[x] else if id == x then states[y] else states[id]
  {
  }

  /** Validation cannot tell which client reached which worker. */
  lemma SwapPasses(
      environment: EnvironmentSpec, registry: map<string, OperatorSpec>, states: Surfaces, x: Id, y: Id)
    requires SurfacesMatch(environment, registry, states) && x in states && y in states
    ensures SurfacesMatch(environment, registry, Swap(states, x, y))
    ensures ByAgent(Swap(states, x, y)) == ByAgent(states)
  {
    FullIndex(StateKey, Listed(states));
    SwapListed(states, x, y);
    IndexOfPermutation(StateKey, Listed(states), Listed(Swap(states, x, y)));
  }

  /** What a worker lists is what it has under those IDs, permuted at most. */
  lemma ListedHere(surface: Surface, id: Id)
    requires surface.Valid() && id in surface.deployments
    ensures id in Rekey(WorkerDeploymentKey, surface.deployments)
  {
    var d :| d in surface.deployments.Values && d.deploymentId == id;
    var k :| k in surface.deployments && surface.deployments[k] == d;
    ValueListed(surface.deployments, k);
    ItemIsIndexed(WorkerDeploymentKey, Listed(surface.deployments), d);
  }

  lemma FoundIsDeclared(environment: EnvironmentSpec, agentId: Id, id: Id)
    requires id in DeploymentsOf(agentId, environment.deployments)
    ensures var d := DeploymentsOf(agentId, environment.deployments)[id];
            d in environment.deployments && d.agentId == agentId && d.deploymentId == id
  {
    IndexedIsItem(DeploymentKey, Filter(OwnedBy(agentId), environment.deployments), id);
    FilterMembers(OwnedBy(agentId), environment.deployments);
  }

  /** An honest worker that passed validation serves nothing but what is declared on it. */
  lemma ServedIsDeclared(environment: EnvironmentSpec, registry: map<string, OperatorSpec>, states: Surfaces,
                         agentId: Id, surface: Surface, id: Id) returns (d: DeploymentSpec)
    requires SurfacesMatch(environment, registry, states) && agentId in states && states[agentId].agentId == agentId
    requires surface.Valid() && states[agentId].deployments == Listed(surface.deployments) && id in surface.deployments
    ensures d in environment.deployments && d.agentId == agentId && d.deploymentId == id
  {
    ValueRekeyed(StateKey, states, agentId);
    IndexedIsItem(AgentKey, environment.agents, agentId);
    ListedHere(surface, id);
    FoundIsDeclared(environment, agentId, id);
    d := DeploymentsOf(agentId, environment.deployments)[id];
  }

  /** So it does not serve a deployment declared on another. */
  lemma NotServed(environment: EnvironmentSpec, registry: map<string, OperatorSpec>, states: Surfaces,
                  d: DeploymentSpec, y: Id, surface: Surface)
    requires environment.Valid() && SurfacesMatch(environment, registry, states) && d in environment.deployments
    requires y in states && states[y].agentId == y && d.agentId != y
    requires surface.Valid() && states[y].deployments == Listed(surface.deployments)
    ensures d.deploymentId !in surface.deployments
  {
    if d.deploymentId in surface.deployments {
      var found := ServedIsDeclared(environment, registry, states, y, surface, d.deploymentId);
      UniquelyIndexed(DeploymentKey, environment.deployments, d);
      UniquelyIndexed(DeploymentKey, environment.deployments, found);
    }
  }

  /**
   Two workers that pass validation pass it behind exchanged clients too. The client of one then serves
   none of its declared deployments, and the observer, which insists on own names, hears neither worker.
   */
  lemma SwappedIdentitiesPass(
    environment: EnvironmentSpec, registry: map<string, OperatorSpec>, states: Surfaces, x: Id,
    d: DeploymentSpec, y: Id, observer: LiveWorkerObserver, reachable: set<Id>)
    requires environment.Valid() && SurfacesMatch(environment, registry, states)
    requires forall id :: id in states ==> states[id].agentId == id
    requires d in environment.deployments && d.agentId == x && x in states && y in states && x != y
    requires observer.environment == environment && observer.workers.Keys == states.Keys
    requires forall id :: id in states ==>
      StateOf(observer.workers[id]) == Swap(states, x, y)[id] && observer.workers[id].surface.Valid()
    ensures SurfacesMatch(environment, registry, Swap(states, x, y))
    ensures d.deploymentId !in observer.workers[x].surface.deployments
    ensures x !in observer.Answers(reachable) && y !in observer.Answers(reachable)
    ensures !DescribeDeployment(observer.Answers(reachable), d).available
  {
    SwapPasses(environment, registry, states, x, y);
    SwappedAt(states, x, y, x);
    SwappedAt(states, x, y, y);
    assert StateOf(observer.workers[x]) == states[y] && StateOf(observer.workers[y]) == states[x];
    NotServed(environment, registry, states, d, y, observer.workers[x].surface);
  }

  const TWO_AGENTS := EnvironmentSpec(
    [AgentSpec("a", {}), AgentSpec("b", {})], [DeploymentSpec("d", "a", "m", {"text"}, 2, 1, 1)], [])

  const OWN_NAMES: Surfaces := map[
    "a" := WorkerState("a", {}, [WorkerDeployment("d", "m", {"text"}, 2, 1, 1)]),
    "b" := WorkerState("b", {}, [])]

  lemma IndexOne<T>(key: T -> Id, item: T)
    ensures IndexBy(key, [item]) == map[key(item) := item]
  {
    assert [item][..0] == [];
  }

  lemma IndexTwo<T>(key: T -> Id, first: T, second: T)
    ensures IndexBy(key, [first, second]) == map[key(first) := first][key(second) := second]
  {
    assert [first, second][..1] == [first];
    IndexOne(key, first);
  }

  lemma DeploymentsOfOne(d: DeploymentSpec, agentId: Id)
    ensures DeploymentsOf(agentId, [d]) == if d.agentId == agentId then map[d.deploymentId := d] else map[]
  {
    assert [d][1..] == [];
    IndexOne(DeploymentKey, d);
  }

  lemma OwnSurfacesMatch()
    ensures SurfaceMatches(TWO_AGENTS.agents[0], TWO_AGENTS, map[], OWN_NAMES["a"])
    ensures SurfaceMatches(TWO_AGENTS.agents[1], TWO_AGENTS, map[], OWN_NAMES["b"])
  {
    var d, here := TWO_AGENTS.deployments[0], OWN_NAMES["a"].deployments[0];
    DeploymentsOfOne(d, "a");
    DeploymentsOfOne(d, "b");
    assert OWN_NAMES["a"].deployments == [here] && OWN_NAMES["b"].deployments == [];
    IndexOne(WorkerDeploymentKey, here);
  }

  lemma TwoAgentsIndexed()
    ensures IndexBy(AgentKey, TWO_AGENTS.agents) == map["a" := TWO_AGENTS.agents[0], "b" := TWO_AGENTS.agents[1]]
  {
    IndexTwo(AgentKey, TWO_AGENTS.agents[0], TWO_AGENTS.agents[1]);
  }

  lemma TwoAgentsValid()
    ensures TWO_AGENTS.Valid()
  {
    assert TWO_AGENTS.agents[0].agentId == "a";
  }

  lemma OwnNamesMatchAt(id: Id)
    requires id in IndexBy(AgentKey, TWO_AGENTS.agents)
    ensures id in OWN_NAMES && OWN_NAMES[id].agentId == id
    ensures SurfaceMatches(IndexBy(AgentKey, TWO_AGENTS.agents)[id], TWO_AGENTS, map[], OWN_NAMES[id])
  {
    TwoAgentsIndexed();
    OwnSurfacesMatch();
  }

  lemma MatchEach(environment: EnvironmentSpec, registry: map<string, OperatorSpec>, states: Surfaces)
    requires IndexBy(AgentKey, environment.agents).Keys == states.Keys
    requires forall id :: id in states ==>
      && states[id].agentId == id
      && SurfaceMatches(IndexBy(AgentKey, environment.agents)[id], environment, registry, states[id])
    ensures SurfacesMatch(environment, registry, states)
  {
    OwnAnswersCompared(states);
  }

  /** Such workers exist. */
  lemma OwnNamesMatch()
    ensures SurfacesMatch(TWO_AGENTS, map[], OWN_NAMES)
  {
    TwoAgentsIndexed();
    forall id | id in OWN_NAMES
      ensures OWN_NAMES[id].agentId == id
      ensures SurfaceMatches(IndexBy(AgentKey, TWO_AGENTS.agents)[id], TWO_AGENTS, map[], OWN_NAMES[id])
    {
      OwnNamesMatchAt(id);
    }
    MatchEach(TWO_AGENTS, map[], OWN_NAMES);
  }

  /** Concretely: "d" is declared on "a", client "a" reaches a worker without any deployment, and validation passes. */
  lemma SwappedExample()
    ensures TWO_AGENTS.Valid() && TWO_AGENTS.deployments[0].agentId == "a"
    ensures var swapped := Swap(OWN_NAMES, "a", "b");
            swapped["a"].deployments == [] && swapped["a"].agentId == "b" && swapped["b"].agentId == "a"
    ensures SurfacesMatch(TWO_AGENTS, map[], Swap(OWN_NAMES, "a", "b"))
    ensures ByAgent(Swap(OWN_NAMES, "a", "b")) != Swap(OWN_NAMES, "a", "b")
  {
    TwoAgentsValid();
    OwnNamesMatch();
    SwapPasses(TWO_AGENTS, map[], OWN_NAMES, "a", "b");
    OwnAnswersCompared(Swap(OWN_NAMES, "a", "b"));
  }

  // ---------- Deployments under exchanged keys ----------

  lemma ExchangedAt<T>(key: T -> Id, m: map<Id, T>, x: Id, y: Id)
    requires m.Keys == {x, y} && x != y && key(m[x]) == y && key(m[y]) == x
    ensures x in Rekey(key, m) && Rekey(key, m)[x] == m[y]
  {
    ValueListed(m, y);
    ItemIsIndexed(key, Listed(m), m[y]);
    RekeyedValue(key, m, x);
    var k :| k in m && m[k] == Rekey(key, m)[x];
    assert k in {x, y};
  }

  lemma ExchangedOnly<T>(key: T -> Id, m: map<Id, T>, x: Id, y: Id, id: Id)
    requires m.Keys == {x, y} && key(m[x]) == y && key(m[y]) == x && id in Rekey(key, m)
    ensures id == x || id == y
  {
    RekeyedValue(key, m, id);
    var k :| k in m && m[k] == Rekey(key, m)[id];
    assert k in {x, y};
  }

  lemma ExchangedValid(surface: Surface, x: Id, y: Id)
    requires surface.deployments.Keys == {x, y}
    requires surface.deployments[x].deploymentId == y && surface.deployments[y].deploymentId == x
    ensures surface.Valid()
  {
    var served := surface.deployments;
    assert served[x] in served.Values && served[y] in served.Values;
    forall d | d in served.Values ensures d.deploymentId in {x, y} {
      var k :| k in served && served[k] == d;
      assert k in {x, y};
    }
  }

  lemma ExchangedMatches(declared: map<Id, DeploymentSpec>, served: map<Id, WorkerDeployment>, x: Id, y: Id)
    requires served.Keys == declared.Keys == {x, y} && x != y
    requires SameContract(declared[x], served[y]) && SameContract(declared[y], served[x])
    requires declared[x].deploymentId == x && declared[y].deploymentId == y
    ensures DeploymentsMatch(declared, Rekey(WorkerDeploymentKey, served))
  {
    var listed := Rekey(WorkerDeploymentKey, served);
    ExchangedAt(WorkerDeploymentKey, served, x, y);
    ExchangedAt(WorkerDeploymentKey, served, y, x);
    forall id | id in listed ensures id in declared && SameContract(declared[id], listed[id]) {
      ExchangedOnly(WorkerDeploymentKey, served, x, y, id);
    }
    forall id | id in declared ensures id in listed {
      assert id in {x, y};
    }
  }

  lemma OtherContract(d: DeploymentSpec, served: WorkerDeployment)
    requires served.deploymentId != d.deploymentId
    ensures !SameContract(d, served)
  {
  }

  lemma ExchangedDiffers(
      declared: map<Id, DeploymentSpec>, served: map<Id, WorkerDeployment>, x: Id, y: Id)
    requires served.Keys == declared.Keys == {x, y} && x != y
    requires declared[x].deploymentId == x && declared[y].deploymentId == y
    requires SameContract(declared[x], served[y]) && SameContract(declared[y], served[x])
    ensures served[x].deploymentId == y && served[y].deploymentId == x
    ensures forall id :: id in declared ==> !SameContract(declared[id], served[id])
  {
    forall id | id in declared ensures !SameContract(declared[id], served[id]) {
      assert id in {x, y};
      OtherContract(declared[id], served[id]);
    }
  }

  /**
   A worker may start with two deployments under each other's ID, and validation accepts what it lists,
   but what it serves under either ID is not what was declared.
   */
  lemma ExchangedKeysPass(declared: map<Id, DeploymentSpec>, surface: Surface, x: Id, y: Id)
    requires surface.deployments.Keys == declared.Keys == {x, y} && x != y
    requires declared[x].deploymentId == x && declared[y].deploymentId == y
    requires SameContract(declared[x], surface.deployments[y]) && SameContract(declared[y], surface.deployments[x])
    ensures surface.Valid()
    ensures DeploymentsMatch(declared, IndexBy(WorkerDeploymentKey, Listed(surface.deployments)))
    ensures forall id :: id in declared ==> !SameContract(declared[id], surface.deployments[id])
  {
    ExchangedDiffers(declared, surface.deployments, x, y);
    ExchangedMatches(declared, surface.deployments, x, y);
    ExchangedValid(surface, x, y);
  }
}
