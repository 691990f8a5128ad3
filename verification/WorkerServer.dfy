/** One worker: its store, its model deployments, and the effect of each of its endpoints. */
module WorkerServer {
  import opened Basics
  import opened JsonValues
  import opened CoreState
  import opened ArtifactStore
  import opened ModelBackend

  datatype WorkerError =
    | UnregisteredOperator
    | MissingArtifact(id: Id)
    | DeploymentRequired
    | ContextLimitAtWorker
    | UnsupportedModalityAtWorker
    | ModelServiceError
    | ValidationFailed
    | OperatorFailed
    | FetchFailed
    | ChecksumMismatch
    | StoreRefused

  /** The artifacts a handler puts, in order, and what it returns or raises once all of them are accepted. */
  datatype OperatorEffect =
    OperatorEffect(produced: seq<StoredArtifact>, outcome: Result<map<string, Json>, WorkerError>)

  /** What a worker offers: the operators it registered, and its model deployments. */
  datatype Surface = Surface(operators: set<string>, deployments: map<Id, WorkerDeployment>) {
    /** The keys are the deployments' IDs, if not necessarily each its own. */
    predicate Valid() {
      deployments.Keys == set d | d in deployments.Values :: d.deploymentId
    }
  }

  /** The operators' schemas, their handlers and the model backends, as deterministic functions of what they read. */
  datatype Semantics = Semantics(
    admits: SemanticAction -> bool,
    operate: (SemanticAction, seq<StoredArtifact>) -> OperatorEffect,
    complete: (WorkerDeployment, string, seq<StoredArtifact>) -> Result<string, WorkerError>)
  {
    ghost predicate Valid() {
      forall action, inputs ::
        forall a :: a in operate(action, inputs).produced ==> a.Valid() && PlainMediaType(a.mediaType)
    }

    /** Every deployment would complete the same request with the same text. */
    ghost predicate DeploymentIndependent() {
      forall d, d', prompt, inputs :: complete(d, prompt, inputs) == complete(d', prompt, inputs)
    }
  }

  // ---------- Media types over HTTP (section 8.3.1 of RFC 9110) ----------

  predicate PlainMediaType(mediaType: string) {
    ';' !in mediaType
  }

  /** Does a content type already name a charset, in any letter case? */
  const MentionsCharset: string -> bool

  function AppendCharset(mediaType: string): string {
    if "text/" <= mediaType && !MentionsCharset(mediaType) then mediaType + "; charset=utf-8" else mediaType
  }

  function StripParameters(contentType: string): (mediaType: string)
    ensures PlainMediaType(mediaType)
  {
    if contentType == "" || contentType[0] == ';' then ""
    else [contentType[0]] + StripParameters(contentType[1..])
  }

  function Transport(mediaType: string): string {
    StripParameters(AppendCharset(mediaType))
  }

  lemma {:induction false} StripAfterPlain(plain: string, suffix: string)
    requires PlainMediaType(plain)
    ensures StripParameters(plain + suffix) == plain + StripParameters(suffix)
  {
    if plain == "" {
      assert plain + suffix == suffix;
    } else {
      assert (plain + suffix)[1..] == plain[1..] + suffix;
      StripAfterPlain(plain[1..], suffix);
    }
  }

  /** A media type survives a transfer unchanged exactly when it carries no parameter of its own. */
  lemma TransportIdentity(mediaType: string)
    ensures Transport(mediaType) == mediaType <==> PlainMediaType(mediaType)
  {
    if PlainMediaType(mediaType) {
      StripAfterPlain(mediaType, "");
      assert mediaType + "" == mediaType;
      StripAfterPlain(mediaType, "; charset=utf-8");
    }
  }

  // ---------- Effects of the endpoints on a store ----------

  /** The content type is cut at its first parameter before the artifact is stored. */
  function Deliver(store: Contents, id: Id, contentType: string, content: Bytes, expected: Option<string>):
    Result<Contents, WorkerError>
  {
    match CreateArtifact(id, StripParameters(contentType), content)
    case Err(_) => Err(ValidationFailed)
    case Ok(artifact) =>
      if expected.Some? && artifact.sha256Hex != expected.value then Err(ChecksumMismatch)
      else match Put(store, artifact)
        case Err(_) => Err(StoreRefused)
        case Ok(after) => Ok(after)
  }

  function Pulled(source: Contents, id: Id, expected: Option<string>): Result<StoredArtifact, WorkerError> {
    match Get(source, id)
    case Err(_) => Err(FetchFailed)
    case Ok(fetched) =>
      match CreateArtifact(id, Transport(fetched.mediaType), fetched.content)
      case Err(_) => Err(ValidationFailed)
      case Ok(artifact) =>
        var wanted := if expected.Some? then expected.value else fetched.sha256Hex;
        if artifact.sha256Hex != wanted then Err(ChecksumMismatch) else Ok(artifact)
  }

  function Pull(target: Contents, source: Contents, id: Id, expected: Option<string>): Result<Contents, WorkerError> {
    var artifact :- Pulled(source, id, expected);
    match Put(target, artifact)
    case Err(_) => Err(StoreRefused)
    case Ok(after) => Ok(after)
  }

  function Load(store: Contents, inputs: seq<Id>): Result<seq<StoredArtifact>, WorkerError> {
    if inputs == [] then Ok([])
    else if inputs[0] !in store then Err(MissingArtifact(inputs[0]))
    else
      var rest :- Load(store, inputs[1..]);
      Ok([store[inputs[0]]] + rest)
  }

  function AsModelArtifact(artifact: StoredArtifact): ModelArtifact {
    ModelArtifact(artifact.mediaType, artifact.content)
  }

  function RequestedPrompt(action: SemanticAction): Result<string, WorkerError> {
    if "prompt" in action.arguments && action.arguments["prompt"].String? && action.arguments["prompt"].text != "" then
      Ok(action.arguments["prompt"].text)
    else Err(ValidationFailed)
  }

  function InvokeModel(
    store: Contents, action: SemanticAction, deploymentId: Option<Id>,
    deployments: map<Id, WorkerDeployment>, semantics: Semantics): Result<map<string, Json>, WorkerError>
  {
    if deploymentId.None? || deploymentId.value !in deployments then Err(DeploymentRequired)
    else
      var deployment := deployments[deploymentId.value];
      var prompt :- RequestedPrompt(action);
      var inputs :- Load(store, action.inputs);
      match Preflight(prompt, Map(AsModelArtifact, inputs), deployment)
      case Err(ModelInputLimit) => Err(ContextLimitAtWorker)
      case Err(UnsupportedModelArtifact) => Err(UnsupportedModalityAtWorker)
      case Ok(_) =>
        var text :- semantics.complete(deployment, prompt, inputs);
        Ok(map["text" := String(text)])
  }

  /** The handler of an operator reads its inputs, then puts what it produced; what it put stays when it fails. */
  function Handle(store: Contents, action: SemanticAction, semantics: Semantics):
    (Contents, Result<map<string, Json>, WorkerError>)
  {
    match Load(store, action.inputs)
    case Err(error) => (store, Err(error))
    case Ok(inputs) =>
      var effect := semantics.operate(action, inputs);
      (PutUntilRefused(store, effect.produced),
       if PutAll(store, effect.produced).Ok? then effect.outcome else Err(ValidationFailed))
  }

  /** The store an operator leaves, whether or not it succeeds, and its output. */
  function ExecuteOn(
    store: Contents, action: SemanticAction, deploymentId: Option<Id>, surface: Surface, semantics: Semantics):
    (Contents, Result<map<string, Json>, WorkerError>)
  {
    if action.operator !in surface.operators then (store, Err(UnregisteredOperator))
    else if !semantics.admits(action) then (store, Err(ValidationFailed))
    else if action.operator == "invoke_model" then
      (store, InvokeModel(store, action, deploymentId, surface.deployments, semantics))
    else if deploymentId.Some? then (store, Err(ValidationFailed))
    else Handle(store, action, semantics)
  }

  lemma {:induction false} LoadExtends(a: Contents, b: Contents, inputs: seq<Id>)
    requires forall id :: id in inputs ==> id in a && id in b && a[id] == b[id]
    ensures Load(a, inputs).Ok? && Load(a, inputs) == Load(b, inputs)
  {
    if inputs != [] {
      LoadExtends(a, b, inputs[1..]);
    }
  }

  lemma {:induction false} PutUntilRefusedSplit(m: Contents, artifacts: seq<StoredArtifact>, i: nat, now: Contents)
    requires i < |artifacts| && PutAll(m, artifacts[..i]) == Ok(now)
    ensures var put := Put(now, artifacts[i]);
            if put.Ok? then PutAll(m, artifacts[..i + 1]) == Ok(put.value)
            else PutAll(m, artifacts).Err? && PutUntilRefused(m, artifacts) == now
    decreases i
  {
    if i == 0 {
      assert artifacts[..1][1..] == [];
    } else {
      assert artifacts[..i][1..] == artifacts[1..][..i - 1] && artifacts[..i + 1][1..] == artifacts[1..][..i];
      PutUntilRefusedSplit(Put(m, artifacts[0]).value, artifacts[1..], i - 1, now);
    }
  }

  lemma {:induction false} PutUntilRefusedAll(m: Contents, artifacts: seq<StoredArtifact>)
    requires PutAll(m, artifacts).Ok?
    ensures PutUntilRefused(m, artifacts) == PutAll(m, artifacts).value
    decreases |artifacts|
  {
    if artifacts != [] {
      PutUntilRefusedAll(Put(m, artifacts[0]).value, artifacts[1..]);
    }
  }

  // ---------- The endpoints, spelled out ----------

  /** Parameters are everything from the first semicolon on. */
  lemma {:induction false} StripMeans(contentType: string)
    ensures var kept := StripParameters(contentType);
            && kept <= contentType && ';' !in kept && (kept == contentType || contentType[|kept|] == ';')
  {
    if contentType != "" && contentType[0] != ';' {
      StripMeans(contentType[1..]);
      var rest := StripParameters(contentType[1..]);
      assert contentType == [contentType[0]] + contentType[1..];
      assert [contentType[0]] + rest <= contentType;
    }
  }

  lemma {:induction false} StripIgnoresLater(mediaType: string, suffix: string)
    requires ';' in mediaType
    ensures StripParameters(mediaType + suffix) == StripParameters(mediaType)
  {
    if mediaType[0] != ';' {
      assert ';' in mediaType[1..] && (mediaType + suffix)[1..] == mediaType[1..] + suffix;
      StripIgnoresLater(mediaType[1..], suffix);
    }
  }

  /** Over HTTP a media type loses its parameters, and nothing else. */
  lemma TransportStrips(mediaType: string)
    ensures Transport(mediaType) == StripParameters(mediaType)
  {
    if ';' in mediaType {
      StripIgnoresLater(mediaType, "; charset=utf-8");
    } else {
      StripAfterPlain(mediaType, "");
      assert mediaType + "" == mediaType;
      TransportIdentity(mediaType);
    }
  }

  /** An upload is accepted iff ID and media type are there, the checksum is right and nothing else has the ID. */
  lemma DeliverMeans(store: Contents, id: Id, contentType: string, content: Bytes, expected: Option<string>)
    ensures var delivered := Deliver(store, id, contentType, content, expected);
            var artifact := StoredArtifact(id, StripParameters(contentType), content, Sha256(content));
            delivered ==
            if id == "" || StripParameters(contentType) == "" then Err(ValidationFailed)
            else if expected.Some? && expected.value != Sha256(content) then Err(ChecksumMismatch)
            else if id in store && store[id] != artifact then Err(StoreRefused)
            else Ok(store[id := artifact])
  {
    if id in store {
      assert store[id := store[id]] == store;
    }
  }

  /** A pull brings exactly what the source has under the ID, if its checksum is the one wanted. */
  lemma PullMeans(target: Contents, source: Contents, id: Id, expected: Option<string>)
    ensures Pull(target, source, id, expected) ==
            if id !in source then Err(FetchFailed)
            else
              var content, mediaType := source[id].content, StripParameters(source[id].mediaType);
              var artifact := StoredArtifact(id, mediaType, content, Sha256(content));
              if id == "" || mediaType == "" then Err(ValidationFailed)
              else if Sha256(content) != (if expected.Some? then expected.value else source[id].sha256Hex) then
                Err(ChecksumMismatch)
              else if id in target && target[id] != artifact then Err(StoreRefused)
              else Ok(target[id := artifact])
  {
    if id in source {
      TransportStrips(source[id].mediaType);
    }
    if id in target {
      assert target[id := target[id]] == target;
    }
  }

  /** Inputs are loaded in order, and the first one that is missing is the error. */
  lemma {:induction false} LoadMeans(store: Contents, inputs: seq<Id>)
    ensures Load(store, inputs).Ok? <==> forall id :: id in inputs ==> id in store
    ensures Load(store, inputs).Ok? ==>
      && |Load(store, inputs).value| == |inputs|
      && forall i :: 0 <= i < |inputs| ==> Load(store, inputs).value[i] == store[inputs[i]]
    ensures Load(store, inputs).Err? ==>
      exists i :: 0 <= i < |inputs| && inputs[i] !in store && (forall k :: 0 <= k < i ==> inputs[k] in store)
                  && Load(store, inputs).error == MissingArtifact(inputs[i])
  {
    if inputs != [] {
      LoadMeans(store, inputs[1..]);
      assert inputs == [inputs[0]] + inputs[1..];
      if inputs[0] in store && Load(store, inputs[1..]).Err? {
        var i :| 0 <= i < |inputs[1..]| && inputs[1..][i] !in store
                 && (forall k :: 0 <= k < i ==> inputs[1..][k] in store)
                 && Load(store, inputs[1..]).error == MissingArtifact(inputs[1..][i]);
        assert inputs[i + 1] == inputs[1..][i];
        assert forall k :: 0 < k <= i ==> inputs[k] == inputs[1..][k - 1];
      }
    }
  }

  /**
   A model request is answered iff it names a deployment of the worker and has a prompt that is a nonempty
   string, its inputs are there, the preflight test passes, and the backend completes exactly this request.
   */
  lemma InvokeMeans(
    store: Contents, action: SemanticAction, deploymentId: Option<Id>, deployments: map<Id, WorkerDeployment>,
    semantics: Semantics, output: map<string, Json>)
    ensures InvokeModel(store, action, deploymentId, deployments, semantics) == Ok(output) <==>
      && deploymentId.Some? && deploymentId.value in deployments
      && "prompt" in action.arguments && action.arguments["prompt"].String? && action.arguments["prompt"].text != ""
      && (forall id :: id in action.inputs ==> id in store)
      && (var deployment, prompt := deployments[deploymentId.value], action.arguments["prompt"].text;
          var inputs := seq(|action.inputs|, i requires 0 <= i < |action.inputs| => store[action.inputs[i]]);
          && Preflight(prompt, Map(AsModelArtifact, inputs), deployment).Ok?
          && semantics.complete(deployment, prompt, inputs).Ok?
          && output == map["text" := String(semantics.complete(deployment, prompt, inputs).value)])
  {
    LoadMeans(store, action.inputs);
    if forall id :: id in action.inputs ==> id in store {
      assert forall i :: 0 <= i < |action.inputs| ==> action.inputs[i] in action.inputs;
      assert Load(store, action.inputs).value ==
             seq(|action.inputs|, i requires 0 <= i < |action.inputs| => store[action.inputs[i]]);
    }
  }

  /**
   Why a model request is not tried: no such deployment, then no prompt, then the first input that is missing,
   then what the preflight test found, a window too small apart from a modality the deployment lacks.
   */
  lemma InvokeRefuses(
    store: Contents, action: SemanticAction, deploymentId: Option<Id>, deployments: map<Id, WorkerDeployment>,
    semantics: Semantics)
    ensures var invoked := InvokeModel(store, action, deploymentId, deployments, semantics);
            var deployed := deploymentId.Some? && deploymentId.value in deployments;
            var prompted := "prompt" in action.arguments && action.arguments["prompt"].String?
                            && action.arguments["prompt"].text != "";
            && (!deployed ==> invoked == Err(DeploymentRequired))
            && (deployed && !prompted ==> invoked == Err(ValidationFailed))
            && (deployed && prompted && Load(store, action.inputs).Err? ==>
              invoked == Err(Load(store, action.inputs).error))
            && (deployed && prompted && Load(store, action.inputs).Ok? ==>
              match Preflight(
                action.arguments["prompt"].text, Map(AsModelArtifact, Load(store, action.inputs).value),
                deployments[deploymentId.value])
              case Ok(_) => true
              case Err(error) =>
                invoked == Err(if error.ModelInputLimit? then ContextLimitAtWorker else UnsupportedModalityAtWorker))
  {
  }

  /** What a handler is given: the artifacts under its inputs, in input order. */
  function InputsAt(store: Contents, inputs: seq<Id>): seq<StoredArtifact>
    requires forall id :: id in inputs ==> id in store
  {
    seq(|inputs|, i requires 0 <= i < |inputs| => assert inputs[i] in inputs; store[inputs[i]])
  }

  ghost predicate NoClash(store: Contents, produced: seq<StoredArtifact>) {
    && (forall a :: a in produced && a.artifactId in store ==> store[a.artifactId] == a)
    && (forall a, b :: a in produced && b in produced && a.artifactId == b.artifactId ==> a == b)
  }

  /**
   An operator other than `invoke_model` runs on the artifacts its inputs name. What it produced is stored, beside
   what was there, and its outcome is returned, unless an ID it produced would have two contents.
   */
  lemma HandleMeans(store: Contents, action: SemanticAction, semantics: Semantics)
    requires forall id :: id in action.inputs ==> id in store
    ensures var effect := semantics.operate(action, InputsAt(store, action.inputs));
            var (after, output) := Handle(store, action, semantics);
            && Extends(store, after)
            && (NoClash(store, effect.produced) ==>
              && output == effect.outcome
              && (forall a :: a in effect.produced ==> a.artifactId in after && after[a.artifactId] == a)
              && (forall id :: id in after && id !in store ==> after[id] in effect.produced))
            && (!NoClash(store, effect.produced) ==> output == Err(ValidationFailed))
  {
    LoadMeans(store, action.inputs);
    var inputs := InputsAt(store, action.inputs);
    assert Load(store, action.inputs).value == inputs;
    var produced := semantics.operate(action, inputs).produced;
    PutAllAccepts(store, produced);
    var n := PutUntilRefusedIsPrefix(store, produced);
    assert produced[..|produced|] == produced;
    PutAllExtends(store, produced[..n]);
  }

  /**
   A worker carries an action out iff it offers the operator, the schema admits it, its inputs are there, and then:
   a model request is answered; any other operator comes without a deployment, claims no ID twice and succeeds.
   */
  lemma ExecuteMeans(
    store: Contents, action: SemanticAction, deploymentId: Option<Id>, surface: Surface, semantics: Semantics,
    output: map<string, Json>)
    ensures ExecuteOn(store, action, deploymentId, surface, semantics).1 == Ok(output) <==>
      && action.operator in surface.operators && semantics.admits(action)
      && (forall id :: id in action.inputs ==> id in store)
      && (if action.operator == "invoke_model" then
            InvokeModel(store, action, deploymentId, surface.deployments, semantics) == Ok(output)
          else
            var effect := semantics.operate(action, InputsAt(store, action.inputs));
            deploymentId.None? && NoClash(store, effect.produced) && effect.outcome == Ok(output))
  {
    LoadMeans(store, action.inputs);
    if action.operator == "invoke_model" {
      InvokeMeans(store, action, deploymentId, surface.deployments, semantics, output);
    } else if forall id :: id in action.inputs ==> id in store {
      HandleMeans(store, action, semantics);
    }
  }

  /** What is refused before anything runs, with the first reason there is; a model request stores nothing. */
  lemma ExecuteRefuses(
    store: Contents, action: SemanticAction, deploymentId: Option<Id>, surface: Surface, semantics: Semantics)
    ensures var (after, output) := ExecuteOn(store, action, deploymentId, surface, semantics);
            && (action.operator !in surface.operators ==> after == store && output == Err(UnregisteredOperator))
            && (action.operator in surface.operators && !semantics.admits(action) ==>
              after == store && output == Err(ValidationFailed))
            && (action.operator == "invoke_model" ==> after == store)
            && (action.operator in surface.operators && semantics.admits(action) && action.operator == "invoke_model"
                && (deploymentId.None? || deploymentId.value !in surface.deployments) ==>
              output == Err(DeploymentRequired))
            && (action.operator in surface.operators && semantics.admits(action) && action.operator != "invoke_model"
                && deploymentId.Some? ==>
              after == store && output == Err(ValidationFailed))
  {
  }

  // ---------- The worker ----------

  class Worker {
    const agentId: Id
    const surface: Surface
    const semantics: Semantics
    const store: InMemoryArtifactStore
    var inFlight: nat

    ghost predicate Valid()
      reads this, store
    {
      store.Valid() && semantics.Valid() && surface.Valid()
    }

    constructor (
        agentId: Id, surface: Surface, semantics: Semantics, store: InMemoryArtifactStore)
      requires surface.Valid() && semantics.Valid() && store.Valid()
      ensures Valid() && inFlight == 0
      ensures this.agentId == agentId && this.surface == surface
      ensures this.semantics == semantics && this.store == store
    {
      this.agentId := agentId;
      this.surface := surface;
      this.semantics := semantics;
      this.store := store;
      inFlight := 0;
    }

    method PutArtifact(id: Id, contentType: string, content: Bytes, expected: Option<string>)
      returns (r: Result<nat, WorkerError>)
      requires Valid()
      modifies store
      ensures Valid()
      ensures match Deliver(old(store.artifacts), id, contentType, content, expected)
              case Ok(after) => r == Ok(|content|) && store.artifacts == after
              case Err(error) => r == Err(error) && store.artifacts == old(store.artifacts)
    {
      var created := CreateArtifact(id, StripParameters(contentType), content);
      if created.Err? {
        return Err(ValidationFailed);
      }
      var artifact := created.value;
      if expected.Some? && artifact.sha256Hex != expected.value {
        return Err(ChecksumMismatch);
      }
      var stored := store.PutArtifact(artifact);
      if stored.Err? {
        return Err(StoreRefused);
      }
      return Ok(|content|);
    }

    method PullArtifact(id: Id, source: Worker, expected: Option<string>) returns (r: Result<nat, WorkerError>)
      requires Valid() && source.Valid()
      modifies store
      ensures Valid()
      ensures match Pull(old(store.artifacts), old(source.store.artifacts), id, expected)
              case Ok(after) => store.artifacts == after && id in after && r == Ok(|after[id].content|)
              case Err(error) => r == Err(error) && store.artifacts == old(store.artifacts)
    {
      var fetched := source.store.GetArtifact(id);
      if fetched.Err? {
        return Err(FetchFailed);
      }
      var created := CreateArtifact(id, Transport(fetched.value.mediaType), fetched.value.content);
      if created.Err? {
        return Err(ValidationFailed);
      }
      var artifact := created.value;
      var wanted := if expected.Some? then expected.value else fetched.value.sha256Hex;
      if artifact.sha256Hex != wanted {
        return Err(ChecksumMismatch);
      }
      var stored := store.PutArtifact(artifact);
      if stored.Err? {
        return Err(StoreRefused);
      }
      return Ok(|artifact.content|);
    }

    /** In-flight work is counted up on entry and down on every way out. */
    method ExecuteOperator(
        action: SemanticAction, deploymentId: Option<Id>) returns (r: Result<map<string, Json>, WorkerError>)
      requires Valid()
      modifies this`inFlight, store
      ensures Valid() && inFlight == old(inFlight)
      ensures (store.artifacts, r) == ExecuteOn(old(store.artifacts), action, deploymentId, surface, semantics)
    {
      if action.operator !in surface.operators {
        return Err(UnregisteredOperator);
      }
      inFlight := inFlight + 1;
      if !semantics.admits(action) {
        r := Err(ValidationFailed);
      } else if action.operator == "invoke_model" {
        r := InvokeModel(store.artifacts, action, deploymentId, surface.deployments, semantics);
      } else if deploymentId.Some? {
        r := Err(ValidationFailed);
      } else {
        r := RunHandler(action);
      }
      inFlight := inFlight - 1;
    }

    method RunHandler(action: SemanticAction) returns (r: Result<map<string, Json>, WorkerError>)
      requires Valid()
      modifies store
      ensures Valid()
      ensures (store.artifacts, r) == Handle(old(store.artifacts), action, semantics)
    {
      var inputs := Load(store.artifacts, action.inputs);
      if inputs.Err? {
        return Err(inputs.error);
      }
      var effect := semantics.operate(action, inputs.value);
      var stored := StoreAll(effect.produced);
      return if stored.Ok? then effect.outcome else Err(ValidationFailed);
    }

    /** Puts in order; those before a refused one stay. */
    method StoreAll(produced: seq<StoredArtifact>) returns (r: Result<(), StoreError>)
      requires Valid() && forall a :: a in produced ==> a.Valid()
      modifies store
      ensures Valid()
      ensures store.artifacts == PutUntilRefused(old(store.artifacts), produced)
      ensures r.Ok? <==> PutAll(old(store.artifacts), produced).Ok?
    {
      for i := 0 to |produced|
        invariant Valid()
        invariant PutAll(old(store.artifacts), produced[..i]) == Ok(store.artifacts)
      {
        PutUntilRefusedSplit(old(store.artifacts), produced, i, store.artifacts);
        var stored := store.PutArtifact(produced[i]);
        if stored.Err? {
          return stored;
        }
      }
      assert produced[..|produced|] == produced;
      PutUntilRefusedAll(old(store.artifacts), produced);
      return Ok(());
    }
  }
}
