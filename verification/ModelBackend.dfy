/** The worker's own admission test for a model request, and its agreement with the controller's. */
module ModelBackend {
  import opened Basics
  import opened CoreState
  import opened Resolver
  import Utf8

  datatype PreflightError = UnsupportedModelArtifact | ModelInputLimit

  datatype ModelArtifact = ModelArtifact(mediaType: string, content: Bytes)

  /** What a worker knows about one of its deployments. */
  datatype WorkerDeployment = WorkerDeployment(
    deploymentId: Id,
    modelId: Id,
    modalities: set<string>,
    contextWindow: nat,
    reservedOutputTokens: nat,
    imageTokenCost: nat)

  function ArtifactModality(mediaType: string): Result<string, PreflightError> {
    if IsTextMediaType(mediaType) then Ok("text")
    else if IsImageMediaType(mediaType) then Ok("image")
    else Err(UnsupportedModelArtifact)
  }

  /** Re-encoding what was decoded, exactly as the worker counts bytes. */
  function TokenUpperBound(artifact: ModelArtifact, imageTokenCost: nat): Result<nat, PreflightError> {
    var modality :- ArtifactModality(artifact.mediaType);
    if modality == "image" then Ok(imageTokenCost)
    else match Utf8.Decode(artifact.content)
      case None => Err(UnsupportedModelArtifact)
      case Some(text) => Ok(|Utf8.Encode(text)|)
  }

  function TotalUpperBound(artifacts: seq<ModelArtifact>, imageTokenCost: nat): Result<nat, PreflightError> {
    if artifacts == [] then Ok(0)
    else
      var first :- TokenUpperBound(artifacts[0], imageTokenCost);
      var rest :- TotalUpperBound(artifacts[1..], imageTokenCost);
      Ok(first + rest)
  }

  predicate ModalitySupported(artifact: ModelArtifact, modalities: set<string>) {
    ArtifactModality(artifact.mediaType).Ok? && ArtifactModality(artifact.mediaType).value in modalities
  }

  function Preflight(
      prompt: string, artifacts: seq<ModelArtifact>, deployment: WorkerDeployment): Result<nat, PreflightError> {
    if "text" !in deployment.modalities then Err(UnsupportedModelArtifact)
    else if exists a :: a in artifacts && !ModalitySupported(a, deployment.modalities)
      then Err(UnsupportedModelArtifact)
    else
      var bound :- TotalUpperBound(artifacts, deployment.imageTokenCost);
      var estimated := |Utf8.Encode(prompt)| + bound;
      if estimated + deployment.reservedOutputTokens > deployment.contextWindow then Err(ModelInputLimit)
      else Ok(estimated)
  }

  // ---------- Agreement with the controller ----------

  /** The deployment contract that surface validation compares field by field. */
  predicate SameContract(spec: DeploymentSpec, actual: WorkerDeployment) {
    && actual.deploymentId == spec.deploymentId
    && actual.modelId == spec.modelId
    && actual.modalities == spec.modalities
    && actual.contextWindow == spec.contextWindow
    && actual.reservedOutputTokens == spec.reservedOutputTokens
    && actual.imageTokenCost == spec.imageTokenCost
  }

  /** The snapshot describes, in order, the artifacts the worker will load. */
  predicate Described(inputs: seq<Id>, index: ArtifactIndex, artifacts: seq<ModelArtifact>) {
    && |inputs| == |artifacts|
    && forall i :: 0 <= i < |inputs| ==>
      && inputs[i] in index
      && index[inputs[i]].mediaType == Some(artifacts[i].mediaType)
      && index[inputs[i]].sizeBytes == Some(|artifacts[i].content|)
  }

  predicate TextDecodes(artifact: ModelArtifact) {
    IsTextMediaType(artifact.mediaType) ==> Utf8.Decode(artifact.content).Some?
  }

  predicate AllTextDecodes(artifacts: seq<ModelArtifact>) {
    forall a :: a in artifacts ==> TextDecodes(a)
  }

  lemma ChargeAgreesOne(
      spec: DeploymentSpec, actual: WorkerDeployment, known: ArtifactRuntimeState, artifact: ModelArtifact)
    requires SameContract(spec, actual) && spec.Valid()
    requires known.mediaType == Some(artifact.mediaType) && known.sizeBytes == Some(|artifact.content|)
    ensures ArtifactCharge(spec, known) ==
            if ModalitySupported(artifact, actual.modalities)
            then Ok(if IsTextMediaType(artifact.mediaType) then |artifact.content| else actual.imageTokenCost)
            else Err(UnsupportedModality)
    ensures ModalitySupported(artifact, actual.modalities) ==>
            TokenUpperBound(artifact, actual.imageTokenCost) ==
            if TextDecodes(artifact) then Ok(ArtifactCharge(spec, known).value) else Err(UnsupportedModelArtifact)
  {
    if IsTextMediaType(artifact.mediaType) && Utf8.Decode(artifact.content).Some? {
      Utf8.EncodeOfDecode(artifact.content);
    }
    TextIsNoImage(artifact.mediaType);
  }

  lemma TextIsNoImage(mediaType: string)
    ensures IsTextMediaType(mediaType) ==> !IsImageMediaType(mediaType)
  {
    if IsTextMediaType(mediaType) {
      assert mediaType[0] != 'i';
    }
  }

  lemma {:induction false} ChargeAgrees(
    spec: DeploymentSpec, actual: WorkerDeployment, inputs: seq<Id>, index: ArtifactIndex,
    artifacts: seq<ModelArtifact>)
    requires SameContract(spec, actual) && spec.Valid() && Described(inputs, index, artifacts)
    ensures InputsKnown(inputs, index)
    ensures ChargeInputs(spec, inputs, index).Ok? <==>
      forall a :: a in artifacts ==> ModalitySupported(a, actual.modalities)
    ensures ChargeInputs(spec, inputs, index).Err? ==> ChargeInputs(spec, inputs, index).error == UnsupportedModality
    ensures ChargeInputs(spec, inputs, index).Ok? ==>
            TotalUpperBound(artifacts, actual.imageTokenCost) ==
            if AllTextDecodes(artifacts) then Ok(ChargeInputs(spec, inputs, index).value)
            else Err(UnsupportedModelArtifact)
  {
    if inputs != [] {
      ChargeAgreesOne(spec, actual, index[inputs[0]], artifacts[0]);
      ChargeAgrees(spec, actual, inputs[1..], index, artifacts[1..]);
      assert forall a :: a in artifacts <==> a == artifacts[0] || a in artifacts[1..];
      assert AllTextDecodes(artifacts) <==> TextDecodes(artifacts[0]) && AllTextDecodes(artifacts[1..]);
    }
  }

  function SameClass(code: ErrorCode): PreflightError
    requires code == UnsupportedModality || code == ContextLimitExceeded
  {
    if code == UnsupportedModality then UnsupportedModelArtifact else ModelInputLimit
  }

  /**
   The worker admits a localized request iff the controller did and every text input is valid UTF-8,
   with the same estimate; when the text is valid both reject in the same class, modality first.
   */
  lemma PreflightAgreement(
    spec: DeploymentSpec, actual: WorkerDeployment, action: SemanticAction, index: ArtifactIndex,
    artifacts: seq<ModelArtifact>)
    requires SameContract(spec, actual) && spec.Valid()
    requires Described(action.inputs, index, artifacts)
    ensures InputsKnown(action.inputs, index)
    ensures var controller := EstimateRequest(spec, action, index);
            var worker := Preflight(PromptText(action), artifacts, actual);
            && (worker.Ok? <==> controller.Ok? && AllTextDecodes(artifacts))
            && (worker.Ok? ==> worker.value == controller.value)
            && (controller.Err? ==> controller.error == UnsupportedModality || controller.error == ContextLimitExceeded)
            && (controller.Err? && AllTextDecodes(artifacts) ==> worker == Err(SameClass(controller.error)))
  {
    ChargeAgrees(spec, actual, action.inputs, index, artifacts);
  }

  // ---------- Both tests, spelled out ----------

  /** What an input costs: its bytes as text, or the deployment's price of an image. */
  function ChargeOf(deployment: DeploymentSpec, index: ArtifactIndex): Id -> nat {
    id =>
      if id in index && index[id].mediaType.Some? && IsImageMediaType(index[id].mediaType.value) then
        deployment.imageTokenCost
      else if id in index && index[id].sizeBytes.Some? then index[id].sizeBytes.value
      else 0
  }

  predicate Chargeable(deployment: DeploymentSpec, known: ArtifactRuntimeState) {
    && known.mediaType.Some? && known.sizeBytes.Some?
    && (if IsImageMediaType(known.mediaType.value) then "image" in deployment.modalities
        else IsTextMediaType(known.mediaType.value))
  }

  predicate AllChargeable(deployment: DeploymentSpec, inputs: seq<Id>, index: ArtifactIndex)
    requires InputsKnown(inputs, index)
  {
    forall id :: id in inputs ==> Chargeable(deployment, index[id])
  }

  lemma ChargeIs(deployment: DeploymentSpec, index: ArtifactIndex, id: Id)
    requires id in index
    ensures ArtifactCharge(deployment, index[id]).Ok? <==> Chargeable(deployment, index[id])
    ensures ArtifactCharge(deployment, index[id]).Ok? ==>
      ArtifactCharge(deployment, index[id]).value == ChargeOf(deployment, index)(id)
  {
  }

  lemma FirstCharge(deployment: DeploymentSpec, inputs: seq<Id>, index: ArtifactIndex)
    requires inputs != [] && InputsKnown(inputs, index)
    ensures AllChargeable(deployment, inputs, index) <==>
      Chargeable(deployment, index[inputs[0]]) && AllChargeable(deployment, inputs[1..], index)
    ensures Total(Map(ChargeOf(deployment, index), inputs)) ==
            ChargeOf(deployment, index)(inputs[0]) + Total(Map(ChargeOf(deployment, index), inputs[1..]))
  {
    assert inputs == [inputs[0]] + inputs[1..];
    assert Map(ChargeOf(deployment, index), inputs)[1..] == Map(ChargeOf(deployment, index), inputs[1..]);
  }

  lemma {:induction false} ChargesAddUp(deployment: DeploymentSpec, inputs: seq<Id>, index: ArtifactIndex)
    requires InputsKnown(inputs, index)
    ensures ChargeInputs(deployment, inputs, index).Ok? <==> AllChargeable(deployment, inputs, index)
    ensures ChargeInputs(deployment, inputs, index).Ok? ==>
      ChargeInputs(deployment, inputs, index).value == Total(Map(ChargeOf(deployment, index), inputs))
  {
    if inputs != [] {
      ChargeIs(deployment, index, inputs[0]);
      FirstCharge(deployment, inputs, index);
      ChargesAddUp(deployment, inputs[1..], index);
    }
  }

  lemma EstimateOfCharge(
      deployment: DeploymentSpec, action: SemanticAction, index: ArtifactIndex, chargeable: bool, charge: nat)
    requires InputsKnown(action.inputs, index)
    requires var charged := ChargeInputs(deployment, action.inputs, index);
             if chargeable then charged == Ok(charge) else charged.Err?
    ensures var estimated := EstimateRequest(deployment, action, index);
            var n := |Utf8.Encode(PromptText(action))| + charge;
            if !chargeable then estimated.Err?
            else if n + deployment.reservedOutputTokens > deployment.contextWindow then
              estimated == Err(ContextLimitExceeded)
            else estimated == Ok(n)
  {
  }

  /**
   The controller admits a request iff every input is a text or an image the deployment takes, and the prompt's
   bytes, the inputs' charges and the reserved output fit the context window together.
   */
  lemma EstimateMeans(deployment: DeploymentSpec, action: SemanticAction, index: ArtifactIndex)
    requires InputsKnown(action.inputs, index)
    ensures var estimated := EstimateRequest(deployment, action, index);
            var n := |Utf8.Encode(PromptText(action))| + Total(Map(ChargeOf(deployment, index), action.inputs));
            if !AllChargeable(deployment, action.inputs, index) then estimated.Err?
            else if n + deployment.reservedOutputTokens > deployment.contextWindow then
              estimated == Err(ContextLimitExceeded)
            else estimated == Ok(n)
  {
    ChargesAddUp(deployment, action.inputs, index);
    EstimateOfCharge(
      deployment, action, index, AllChargeable(deployment, action.inputs, index),
      Total(Map(ChargeOf(deployment, index), action.inputs)));
  }

  /** The first input that cannot be charged decides the error; without one it is the context window. */
  lemma {:induction false} FirstUnchargeable(deployment: DeploymentSpec, inputs: seq<Id>, index: ArtifactIndex, i: nat)
    requires InputsKnown(inputs, index) && i < |inputs| && !Chargeable(deployment, index[inputs[i]])
    requires forall k :: 0 <= k < i ==> Chargeable(deployment, index[inputs[k]])
    ensures ChargeInputs(deployment, inputs, index) ==
            Err(if index[inputs[i]].mediaType.None? || index[inputs[i]].sizeBytes.None? then InfeasibleBinding
                else UnsupportedModality)
    decreases i
  {
    if i > 0 {
      assert inputs[1..][i - 1] == inputs[i];
      assert forall k :: 0 <= k < i - 1 ==> inputs[1..][k] == inputs[k + 1];
      FirstUnchargeable(deployment, inputs[1..], index, i - 1);
    }
  }

  predicate Takes(deployment: WorkerDeployment, artifact: ModelArtifact) {
    if IsTextMediaType(artifact.mediaType) then
      "text" in deployment.modalities && Utf8.Decode(artifact.content).Some?
    else IsImageMediaType(artifact.mediaType) && "image" in deployment.modalities
  }

  function PriceOf(deployment: WorkerDeployment): ModelArtifact -> nat {
    (artifact: ModelArtifact) =>
      if IsTextMediaType(artifact.mediaType) then |artifact.content| else deployment.imageTokenCost
  }

  lemma PriceMeans(deployment: WorkerDeployment, artifact: ModelArtifact)
    ensures Takes(deployment, artifact) <==>
      ModalitySupported(artifact, deployment.modalities)
      && TokenUpperBound(artifact, deployment.imageTokenCost).Ok?
    ensures Takes(deployment, artifact) ==>
      TokenUpperBound(artifact, deployment.imageTokenCost) == Ok(PriceOf(deployment)(artifact))
    ensures TokenUpperBound(artifact, deployment.imageTokenCost).Err? ==>
      TokenUpperBound(artifact, deployment.imageTokenCost).error == UnsupportedModelArtifact
  {
    if Utf8.Decode(artifact.content).Some? {
      Utf8.EncodeOfDecode(artifact.content);
    }
  }

  predicate TakesAll(deployment: WorkerDeployment, artifacts: seq<ModelArtifact>) {
    forall a :: a in artifacts ==> Takes(deployment, a)
  }

  predicate AllSupported(deployment: WorkerDeployment, artifacts: seq<ModelArtifact>) {
    forall a :: a in artifacts ==> ModalitySupported(a, deployment.modalities)
  }

  lemma FirstAndRest(deployment: WorkerDeployment, artifacts: seq<ModelArtifact>)
    requires artifacts != []
    ensures TakesAll(deployment, artifacts) <==> Takes(deployment, artifacts[0]) && TakesAll(deployment, artifacts[1..])
    ensures AllSupported(deployment, artifacts) <==>
      ModalitySupported(artifacts[0], deployment.modalities) && AllSupported(deployment, artifacts[1..])
    ensures Total(Map(PriceOf(deployment), artifacts)) ==
            PriceOf(deployment)(artifacts[0]) + Total(Map(PriceOf(deployment), artifacts[1..]))
  {
    assert forall a :: a in artifacts <==> a == artifacts[0] || a in artifacts[1..];
    assert Map(PriceOf(deployment), artifacts)[1..] == Map(PriceOf(deployment), artifacts[1..]);
  }

  lemma {:induction false} PricesAddUp(deployment: WorkerDeployment, artifacts: seq<ModelArtifact>)
    ensures TakesAll(deployment, artifacts) <==>
      AllSupported(deployment, artifacts) && TotalUpperBound(artifacts, deployment.imageTokenCost).Ok?
    ensures TakesAll(deployment, artifacts) ==>
      TotalUpperBound(artifacts, deployment.imageTokenCost) == Ok(Total(Map(PriceOf(deployment), artifacts)))
    ensures TotalUpperBound(artifacts, deployment.imageTokenCost).Err? ==>
      TotalUpperBound(artifacts, deployment.imageTokenCost).error == UnsupportedModelArtifact
  {
    if artifacts != [] {
      PriceMeans(deployment, artifacts[0]);
      PricesAddUp(deployment, artifacts[1..]);
      FirstAndRest(deployment, artifacts);
    }
  }

  /**
   The worker admits a request iff its deployment takes text and every input, texts decoding, and the prompt's
   bytes, the inputs' prices and the reserved output fit the context window together.
   */
  lemma PreflightMeans(prompt: string, artifacts: seq<ModelArtifact>, deployment: WorkerDeployment)
    ensures var worker := Preflight(prompt, artifacts, deployment);
            var taken := "text" in deployment.modalities && TakesAll(deployment, artifacts);
            var n := |Utf8.Encode(prompt)| + Total(Map(PriceOf(deployment), artifacts));
            worker ==
            if !taken then Err(UnsupportedModelArtifact)
            else if n + deployment.reservedOutputTokens > deployment.contextWindow then Err(ModelInputLimit)
            else Ok(n)
  {
    PricesAddUp(deployment, artifacts);
  }
}
