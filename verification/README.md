# Verified model of the infrastructure-joint planner

This project models the distributed execution core of `infra_joint` in Dafny and proves what its parts
promise each other. A set of workers each own a write-once artifact store. A controller materializes a
task's artifacts, then repeatedly observes the workers, asks a planner for a decision, resolves where to
run it, pulls missing inputs worker to worker and executes, until the budget runs out or the planner
finishes; then it finalizes and evaluates. Around that core stand a crash-tolerant file store, the data
operators the planner calls, and the benchmark adapters that claim to preserve information.

`dafny verify dfyconfig.toml` checks everything.

## How it is laid out

| part | files |
|---|---|
| shared vocabulary, stable sorting, UTF-8 (section 3 of RFC 3629) | `Basics`, `Sorting`, `Utf8` |
| stores | `ArtifactStore`, `FileArtifactStore` |
| placement and transfer | `CoreState`, `Resolver`, `ResolverProperties`, `ModelBackend`, `WorkerServer`, `Protocol`, `Observer`, `Executor`, `TransferProperties`, `Validation` |
| planning | `PlanningGraph`, `PlanningRuntime`, `PlanningLoop`, `PlanningProperties`, `BlindPlanning` |
| headline | `Refinement`, `ExperimentRunner` |
| data operators | `TopK`, `Aggregation`, `AggregateMeaning`, `Reductions`, `RollUp`, `Retrieval` |
| benchmark adapters | `DocumentSplit`, `FixedWidth`, `MultiHop` |

Code that updates objects step by step is a class whose methods are proved equal to a function of the old
state (stores, worker, observer, executor, graph, runner); loops are methods with invariants. The theorems
are lemmas about those functions. SHA-256, JSON text, the logarithm, the tokenizer, white space, the
operators' schemas and handlers and the language models are uninterpreted; what a theorem assumes of one is
an explicit `requires` (`Sha256Injective`, `CanonicalInjective`, `MetadataRoundTrips`, `LogPositive`,
`LogMonotone`, `LineBreaksAreSpace`, and `PlannerTextInjective` and `FinalizerTextInjective` on a set of payloads).
Many theorems are about one function through another; beside them stand lemmas that say what the functions they
rest on mean in terms of raw inputs, so that no step of a run is described only by itself.

## The main results

- **Refinement.** Every run over any number of replicated stores follows a run over one write-once store
  whose model requests go to the deployments that answered them, whatever models and limits those have. A
  completed run has the same decisions, logical outputs, answer and evaluation. A run that ends with new
  conflicts between replicas made them at a step that the single store fails too: there, if the worker itself
  refused part of the output, and otherwise one observation later. On validated workers so does every failure
  of an action that was placed, bar undecodable text. Pulls are stuttering steps.
- **Transfers.** On an observed snapshot, the pulls made are the transfers the resolver ranked by; no other
  candidate needs fewer; afterwards every input is at the target with the observed content. A result lists
  exactly those pulls, in input order, and what else is new at the target the operator produced.
- **The loop.** The graph of nodes is the loop one would write down; in a completed run every decision, answer
  and evaluation was asked of its collaborator with exactly what the run had up to then.
- **Blindness.** Of two runs that differ in everything physical, the one that stops first sends the first
  prompts of the other; two that complete send the same prompts and give the same answer. A prompt says the
  logical task, every decision without its placement, every observation and the steps left: all of it, in order,
  and nothing else.
- **Trace.** Wherever a run stops its trace is one chain; for a completed run the trace determines decisions,
  observations and transfers, and its length is exact.
- **Crash safety.** With a crash between any two file operations, `get` returns a committed artifact or not
  found.
- **Aggregates.** Each row is the count, sum, least, greatest or mean value of the records with its key, one
  row per key; a finer aggregate rolled up is the direct aggregate, with the exact exception.
- **Validation.** Workers that answer under their own names are accepted iff each offers exactly the operators
  its declared capabilities call for and exactly its declared deployments, field by field.

Six of the properties hold with an exception in the code; the model keeps the code and proves exactly when:

- Rolling up aggregates of *no* records to a single row: counts come back null when the finer level grouped
  by some field, and other aggregates are refused when it did not (`RollUp.RollUpLaw`,
  `RollUp.CountOfNothingIsLost`).
- The file store and the in-memory store answer `get` alike for every ID but the empty string, which the
  file store rejects as invalid and the in-memory store as not found (`FileStore.MatchesMemory`).
- Replicas in conflict stop a run at the next observation, unless the step that made them fails: a worker
  keeps what a handler put before the put it refused, and ends the run there (`Refinement.PartialPutsClash`).
  Either way the single store fails that step (`Refinement.ConflictEndsBothRuns`).
- Surface validation re-keys answers by the ID each worker reports, so it compares each client's own answer
  exactly when every worker answers under its client's name (`Validation.OwnAnswersCompared`). Two workers
  behind exchanged clients pass it, although the observer then reports neither of them
  (`Validation.SwappedIdentitiesPass`, `Validation.SwappedExample`).
- A worker only checks that the keys of its deployments and their IDs are the same set, so it may serve one
  under another's ID, which validation does not see: what it accepted is what was declared iff each
  deployment is kept under its own ID (`ExperimentRunner.StartupValidates`, `Validation.ExchangedKeysPass`).
- A fixed-width conversion always declares its information preserved. With text columns it keeps every
  non-blank character iff the header lines above the last one are blank (`FixedWidth.DataPreservedIff`,
  `FixedWidth.TitleIsLost`).

Two facts of the code that a reader may not expect. A media type with a parameter does not survive a pull
(`WorkerServer.TransportIdentity`), so the theorems about several workers take stored media types without one.
And an ID with a slash, like those `sample_frames` gives its outputs, does not match the route
`/artifact/{artifact_id}` once the path is decoded, so its artifact can be neither fetched nor pulled over
HTTP; the model takes each endpoint as its effect, for every ID.

## Model

| member | source | states |
|---|---|---|
| ArtifactStore.InMemoryArtifactStore.PutArtifact | src/infra_joint/worker/artifact_store.py:59-67 | a put is accepted when the ID is new or holds the same artifact, refused otherwise, and a refusal changes nothing |
| ArtifactStore.InMemoryArtifactStore.GetArtifact | src/infra_joint/worker/artifact_store.py:69-73 | a found artifact carries the requested ID and a checksum that matches its content |
| ArtifactStore.PutAllExtends | src/infra_joint/worker/artifact_store.py:59-67 | accepted writes never replace an entry, add only themselves, and are all there afterwards |
| ArtifactStore.PutAllAccepts | src/infra_joint/worker/artifact_store.py:59-67 | a batch is accepted, in any order, iff no ID is claimed by two different artifacts |
| ArtifactStore.PutUntilRefusedIsPrefix | src/infra_joint/operators/media.py:277-284 | puts in a loop leave the longest accepted prefix: all of a batch, or what came before the put that is refused |
| FileStore.FileArtifactStore.PutArtifact | src/infra_joint/worker/artifact_store.py:93-118 | the two temporary writes and two renames, stopped by a crash at any point, torn writes included |
| FileStore.FileArtifactStore.GetArtifact | src/infra_joint/worker/artifact_store.py:120-144 | reading checks presence, metadata, ID, size and checksum in that order; whatever is on disk, what is returned has the requested ID and content matching its checksum |
| FileStore.GetFileMeans | src/infra_joint/worker/artifact_store.py:120-144 | whatever is on disk, an artifact is read iff both files are there and the metadata parses, names the ID and fits the blob in size and checksum; the error tells no ID, a missing file and corruption apart |
| FileStore.FileArtifactStore.Ids | src/infra_joint/worker/artifact_store.py:146-158 | listing reads every metadata file and returns the IDs sorted, or fails on an invalid one |
| FileStore.CrashSafety | src/infra_joint/worker/artifact_store.py:93-158 | after any history of puts and crashes, every `get` is not-found or exactly a committed artifact, `ids` lists exactly the gettable IDs, and a put over an orphan blob is refused and changes nothing |
| FileStore.CommitsAreDurable | src/infra_joint/worker/artifact_store.py:93-144 | once committed, an artifact reads back from the files as committed after any later puts and crashes; an orphan is never adopted |
| FileStore.MatchesMemory | src/infra_joint/worker/artifact_store.py:55-158 | without crashes every put, get and listing agrees with the in-memory store, for `get` exactly when the ID is not empty |
| Utf8.DecodeInvertsEncode | src/infra_joint/worker/model_backend.py:118-138 | bytes decode to a text iff that text encodes to them, for all bytes and texts |
| WorkerServer.TransportIdentity | src/infra_joint/worker/artifact_fetcher.py:38-44 | a media type survives a transfer over HTTP unchanged iff it carries no parameter |
| WorkerServer.Worker.PutArtifact | src/infra_joint/worker/server.py:187-201 | the content type is cut at its first parameter; checksum and conflict errors leave the store unchanged |
| WorkerServer.DeliverMeans | src/infra_joint/worker/server.py:187-201 | an upload is stored iff ID and media type are not empty, the checksum is right and nothing else has the ID, as that ID with those bytes and the media type up to its first semicolon |
| WorkerServer.Worker.PullArtifact | src/infra_joint/worker/server.py:203-224 | the target's store after a pull from another worker, or the error and no change |
| WorkerServer.PullMeans | src/infra_joint/worker/server.py:203-224 | a pull stores what the source has under the ID, its media type without parameters, iff the content has the wanted checksum, by default the source's own, and nothing else has the ID |
| WorkerServer.Worker.StoreAll | src/infra_joint/operators/media.py:277-284 | puts in order until one is refused; what came before it stays |
| WorkerServer.Worker.ExecuteOperator | src/infra_joint/worker/server.py:279-327 | registration, schema check, deployment check and handler compose to the execution function, with the exact store left on every way out; in-flight work is balanced |
| WorkerServer.ExecuteMeans | src/infra_joint/worker/server.py:279-327 | an action is carried out iff its operator is offered, its arguments admitted and its inputs there, and it is a model request that is answered, or it comes without a deployment, claims no ID twice and succeeds |
| WorkerServer.HandleMeans | src/infra_joint/worker/server.py:306-312 | an operator is given the artifacts under its inputs, in order; what it produced is added to the store and its own outcome returned unless an ID would have two contents |
| WorkerServer.InvokeMeans | src/infra_joint/worker/server.py:226-277 | a model request is answered iff it names a deployment of the worker, its prompt is a nonempty string, its inputs are there and pass preflight, and the backend completes exactly this prompt with exactly these inputs |
| CoreState.IndexOfPermutation | src/infra_joint/core/state.py:57-73 | with unique IDs an index does not depend on the order of the items |
| Resolver.ModelRequestError | src/infra_joint/runtime/resolver.py:158-199 | the accumulating loop rejects exactly as the first chargeable failure or the total bound says |
| ModelBackend.EstimateMeans | src/infra_joint/runtime/resolver.py:158-199 | the controller admits a request iff every input is a text, or an image the deployment takes, and prompt bytes, input charges and reserved output fit the window together; the estimate is their sum |
| Resolver.Resolve | src/infra_joint/runtime/resolver.py:31-106 | the imperative resolver computes the resolution function, for every policy and operator |
| Resolver.SelectDeployment | src/infra_joint/runtime/resolver.py:108-156 | candidates, preflight and ranking of model deployments compute the model resolution |
| ResolverProperties.ResolutionCharacterised | src/infra_joint/runtime/resolver.py:31-199 | a binding is returned iff some available, declared, capable, admitted candidate satisfies the policy; it is the cheapest with the least ID; errors follow the fixed priority |
| ResolverProperties.ExplicitTargetHonoured | src/infra_joint/runtime/resolver.py:66-78 | an explicit target is honoured or refused, never replaced |
| ResolverProperties.PermutationInvariant | src/infra_joint/runtime/resolver.py:39-106 | permuting agents, deployments or artifacts with unique IDs changes nothing |
| ResolverProperties.AutoExtendsDataLocal | src/infra_joint/runtime/resolver.py:80-106 | whenever DATA_LOCAL succeeds AUTO returns the identical binding at cost zero, models included |
| ModelBackend.PreflightAgreement | src/infra_joint/worker/model_backend.py:141-167 | controller and worker admit the same requests with the same estimate, and reject in the same class, modality first; the one exception is text that is not UTF-8 |
| ModelBackend.PreflightMeans | src/infra_joint/worker/model_backend.py:124-167 | the worker's test gives the summed estimate, or the modality error before the window error, for all prompts, artifacts and deployments |
| Validation.ValidateWorkerSurfaces | src/infra_joint/infrastructure/validation.py:10-67 | the validation loops accept iff operators and deployment contracts match for every agent |
| Validation.AcceptedIffDeclared | src/infra_joint/infrastructure/validation.py:10-67 | workers answering under their own names are accepted iff each offers an operator exactly when its declared capabilities cover the operator's, and lists exactly its declared deployments with equal model, modalities, window, reserve and image cost |
| Validation.ValidatedContracts | src/infra_joint/infrastructure/validation.py:37-67 | afterwards every declared deployment of a worker that answers under its own name has the declared contract |
| Validation.ValidatedOperators | src/infra_joint/infrastructure/validation.py:36-46 | and such a worker has exactly the operators its capabilities call for |
| Validation.OwnAnswersCompared | src/infra_joint/infrastructure/validation.py:21-29 | re-keying by reported ID changes nothing iff every client's worker answers under the client's name |
| Validation.SwappedIdentitiesPass | src/infra_joint/infrastructure/validation.py:10-67 | workers that pass validation pass it behind exchanged clients too; a deployment declared on one is then absent behind its client, and the observer reports neither worker nor the deployment available |
| Validation.SwappedExample | src/infra_joint/infrastructure/validation.py:21-68 | a concrete exchange that passes, with client "a" serving no deployment though "d" is declared on it |
| Validation.ExchangedKeysPass | src/infra_joint/worker/server.py:109-110 | any worker with two deployments under each other's ID starts and passes validation, and serves under neither ID what was declared |
| Observer.LiveWorkerObserver.Observe | src/infra_joint/infrastructure/observer.py:42-131 | the nested loop builds the snapshot of the answering workers, or fails iff two of them disagree on an artifact |
| Observer.ObservedAvailability | src/infra_joint/infrastructure/observer.py:57-83 | an agent is available iff its worker answers under its name, with the load it reports and zero otherwise; a deployment iff its agent's worker answers and lists it; all in declared order |
| Observer.ObservedIffAlike | src/infra_joint/infrastructure/observer.py:84-100 | an observation succeeds iff any two workers heard that hold an ID hold it with the same media type, size and checksum |
| Observer.ObservedArtifacts | src/infra_joint/infrastructure/observer.py:84-109 | each artifact held by a worker that is heard is described once, in ID order, at exactly its holders and with its facts |
| TransferProperties.SnapshotDescribes | src/infra_joint/infrastructure/observer.py:84-109 | every known artifact is located at exactly the reporting workers that hold it, with their metadata |
| Executor.RuntimeExecutor.LocalizeInputs | src/infra_joint/runtime/executor.py:85-117 | the pull loop leaves exactly the stores, and records exactly the transfers, of the localization function, earlier pulls included when a later one fails |
| Protocol.LocalizedAsKnown | src/infra_joint/runtime/executor.py:94-107 | by any snapshot, a stale one too: after a successful localization each input the target was not known to hold is there with the checksum the snapshot had, nothing at the target is lost or replaced, and no other store changes |
| Executor.RuntimeExecutor.Execute | src/infra_joint/runtime/executor.py:52-83 | registration and schema check, resolution, pulls and execution compose to the action function, with the exact stores left by a failing step; in-flight counts are restored |
| TransferProperties.TransferOptimality | src/infra_joint/runtime/executor.py:85-117 | an action placed on an observed snapshot never lacks a source, makes exactly the pulls it was ranked by, no candidate needs fewer, and afterwards the target holds every input as observed with nothing else changed |
| TransferProperties.ResultListsPulls | src/infra_joint/runtime/executor.py:60-117 | the result of an action on an observed snapshot names its operator and the binding, and lists one transfer for each input its worker lacked, repeats counted, in input order, each from the first holder with all the artifact's bytes |
| TransferProperties.NewAtWorker | src/infra_joint/runtime/executor.py:60-83 | a successful action changes no other store and loses nothing; an ID new at its worker is a listed transfer or was produced by the operator |
| TransferProperties.AutoMovesNothingWhenLocal | src/infra_joint/runtime/executor.py:94-97 | when DATA_LOCAL can place an action, AUTO runs it there with no transfer and no store touched |
| TransferProperties.AdmittedRequestAdmittedAtWorker | src/infra_joint/worker/server.py:245-271 | a model request the controller admitted passes the preflight test of its validated worker after localization, with the controller's estimate, iff its text inputs decode |
| PlanningGraph.RankDecreases | src/infra_joint/planning/graph.py:98-119 | every edge of the graph uses up rank, and the planner runs only with budget left: the graph terminates |
| PlanningRuntime.GraphRunner.Drive | src/infra_joint/planning/graph.py:121-262 | the nodes as they append to the sink and change the world are the functional nodes |
| PlanningRuntime.GraphRunner.Run | src/infra_joint/planning/graph.py:264-369 | the imperative run appends exactly the events, and leaves the world and result, of the run function |
| PlanningLoop.GraphIsLoop | src/infra_joint/planning/graph.py:98-262 | any run of the graph, whatever raises, ends as a plain loop over the collaborators does: observe, stop without budget, decide, stop on finish, execute, and at the end finalize and evaluate |
| PlanningLoop.CompletedRunAsked | src/infra_joint/planning/graph.py:121-262 | each decision of a completed run was the planner's on the task, the decisions and logical observations before it and the steps left; each observation the executor's on that decision; the answer the finalizer's on all decisions and observations; the evaluation the evaluator's on that answer |
| PlanningProperties.TraceLinearUnderAnyFailure | src/infra_joint/planning/graph.py:371-409 | whichever collaborator raises, event i carries index i and its parent is event i-1, all written step IDs differ, and the runner's failure event extends the chain |
| PlanningProperties.RenderInjective | src/infra_joint/planning/graph.py:394 | zero-padded step IDs tell every two indices apart, past six digits too |
| PlanningProperties.DriveBounded | src/infra_joint/planning/graph.py:130-132 | even a failing run asks the planner at most once per step of budget and finalizes and evaluates at most once |
| PlanningProperties.CompletedRunShape | src/infra_joint/planning/graph.py:98-222 | finish occurs at most once and last; observations answer action decisions one to one in order; 3n+3 nodes on exhaustion, 3k+4 after a finish; finalize and evaluate once |
| PlanningProperties.NodeShape | src/infra_joint/planning/graph.py:176-185 | every node keeps decisions made plus steps left; only planning adds a decision, and exactly one |
| PlanningProperties.TraceScript | src/infra_joint/planning/graph.py:121-361 | the payloads of a completed run, event by event: what the observer returned, planner start and end, proposal, operator start, transfers, operator end per round, then the closing; nothing else and in no other order |
| PlanningProperties.TraceOpens | src/infra_joint/planning/graph.py:264-292 | however a run ends, its trace opens with the task's and the benchmark's ID and then one event per initial transfer, in order |
| PlanningProperties.TraceRecoversRun | src/infra_joint/planning/graph.py:287-361 | folding over a completed trace yields decisions, observations, answer and every transfer in order, and the closing event counts exactly their bytes |
| PlanningProperties.BytesAddUp | src/infra_joint/planning/graph.py:287-361 | the byte total counts each initial transfer and each transfer of each action once, by its bytes |
| PlanningProperties.TraceLength | src/infra_joint/planning/graph.py:121-361 | m materializations, k actions and T transfers give m+6k+T+6 events, or m+6k+T+9 after a finish |
| BlindPlanning.PlannerToolsShown | src/infra_joint/planning/planner.py:165-170 | the prompt offers every registered operator but `read_artifact`, each once, in name order |
| BlindPlanning.PlannerPromptIs | src/infra_joint/planning/planner.py:98-181 | the payload of a planner prompt, part by part: the task without source references and evaluator, every tool but `read_artifact` by name, the decisions without placement and the observations in order, and the steps left |
| BlindPlanning.PlannerPromptSays | src/infra_joint/planning/planner.py:165-181 | two contexts give one prompt iff their logical tasks, decisions up to placement, observations and remaining steps are the same, where texts tell payloads apart |
| BlindPlanning.FinalizerPromptIs | src/infra_joint/planning/finalize.py:66-110 | the same for the finalizer, with all decisions and observations and the instruction for the answer's format |
| BlindPlanning.FinalizerPromptSays | src/infra_joint/planning/finalize.py:66-91 | two finalizer prompts are one iff logical task, decisions up to placement and logical observations are the same |
| BlindPlanning.DecisionMeans | src/infra_joint/planning/planner.py:134-163 | the planner decides iff the completion of its prompt is a proposal; an action is the proposed one, registered and admitted, under AUTO without targets |
| Blindness.RunsAreBlind | src/infra_joint/planning/planner.py:98-200 | however two runs over any two worlds end, if their executors agree on logical outputs the one that stops first sent the first prompts of the other; two that complete send the same prompts, decide, observe and answer alike |
| Blindness.PromptsOfRun | src/infra_joint/planning/graph.py:121-250 | the prompts a completed run sent are one planner prompt per decision, on what was decided and observed before it, then one finalizer prompt on everything, and nothing else |
| Blindness.RunUnrecorded | src/infra_joint/planning/graph.py:121-262 | recording the prompts changes nothing: the same planner and finalizer unrecorded give the same events, nodes, world and result |
| Blindness.DecisionsAreAuto | src/infra_joint/planning/planner.py:134-163 | whatever the model writes, every action is a registered, schema-valid operator placed by AUTO |
| Refinement.ConflictsAreObserved | src/infra_joint/infrastructure/observer.py:86-100 | observing all workers fails iff two replicas of one ID differ |
| Refinement.ObserverSeesEveryReport | src/infra_joint/infrastructure/observer.py:43-61 | the live observer of declared, reachable workers reports exactly the cluster the refinement speaks of |
| Refinement.PullsStutter | src/infra_joint/runtime/executor.py:94-116 | pulls leave the union of the stores unchanged, and the inputs load at the target as from the union |
| Refinement.PutsAgree | src/infra_joint/worker/artifact_store.py:59-67 | outputs pass the worker's put and the next observation iff the single store accepts them, and then the namespaces grow alike |
| Refinement.StepRefines | src/infra_joint/runtime/executor.py:52-83 | an executed action is the single store's action with the same output, answered by the deployment used if it is a model request; its outputs clash with a replica iff the single store refuses them |
| Refinement.OperatorStepExact | src/infra_joint/runtime/executor.py:52-83 | once placed, an operator passes its worker and the next observation iff the single store would carry it out and the worker has the operator |
| Refinement.PlacedOperatorRegistered | src/infra_joint/runtime/resolver.py:53-58 | on validated workers an action is never placed where its operator is not registered |
| Refinement.FailedStepRefines | src/infra_joint/runtime/executor.py:52-83 | the stores a failed action leaves agree, or the single store fails the action whoever answers it |
| Refinement.PartialPutsClash | src/infra_joint/operators/media.py:277-284 | a handler whose second output clashes at its own worker and whose first clashes elsewhere fails and leaves replicas in conflict |
| Refinement.ModelStepExact | src/infra_joint/worker/server.py:226-277 | once placed on validated workers, a model request succeeds iff the deployment it was placed on would answer over the single store and its text inputs decode |
| Refinement.EveryRunFollowsSingleStore | src/infra_joint/planning/graph.py:98-119 | however a run over any number of agreeing workers ends, the run over one store holding the union, with any schedule of deployments that answers alike, visits the same nodes and ends alike; a clash an observation found it failed one node before; at a failed step it gets as far, and fails there too if the step left a clash or the workers had no reason of their own to fail it |
| Refinement.RunRefinesSingleStore | src/infra_joint/planning/graph.py:98-119 | a completed run has the decisions, logical observations, answer and evaluation of the run over one store whose model requests go to the deployments that answered them, and leaves replicas of that store |
| Refinement.ConflictEndsBothRuns | src/infra_joint/infrastructure/observer.py:86-100 | a run over replicas in conflict fails at its first observation; one that ends with new conflicts failed where the single store fails, or at the observation right after |
| Refinement.PlacedFailureEndsBothRuns | src/infra_joint/runtime/executor.py:52-83 | on validated workers, a run that fails an action it placed, with text inputs that decode, ends at the node where the single store fails it |
| Refinement.RunRefinesAnyDeployment | src/infra_joint/planning/graph.py:98-119 | when deployments do not matter, one and the same deployment may answer every request of the single store |
| Refinement.WorkersAsked | src/infra_joint/planning/graph.py:121-262 | in a completed run of the workers each decision is the mind's own on the run so far, each observation an action carried out on a snapshot of all workers, the answer the finalizer's on all of it and the evaluation that answer's |
| ExperimentRunner.BenchmarkRunner.Materialize | src/infra_joint/experiments/runner.py:169-204 | grouping placements and putting each artifact at each, in order, computes the materialization function, errors included |
| ExperimentRunner.BenchmarkRunner.AppendFailureTrace | src/infra_joint/experiments/runner.py:235-255 | the failure event takes the next index and the last event as parent, or starts the trace |
| ExperimentRunner.BenchmarkRunner.Run | src/infra_joint/experiments/runner.py:73-167 | validation, materialization, graph and failure record compose to the outcome and the trace of the experiment |
| ExperimentRunner.RecordIsChain | src/infra_joint/experiments/runner.py:84-152 | the trace left behind is one chain of distinct IDs that ends in `run.failed` iff the experiment failed, before or inside the graph |
| ExperimentRunner.StartupValidates | src/infra_joint/experiments/runner.py:99-104 | what startup accepted is what was declared, operators and contracts, iff every worker keeps each deployment under that deployment's own ID, of which a worker only checks that keys and IDs are the same set (server.py:109) |
| ExperimentRunner.StartsIff | src/infra_joint/experiments/runner.py:97-111 | an experiment reaches its graph iff each declared agent has a worker offering what is declared of it, no other worker answers, and the task materializes; the graph starts from what that leaves |
| ExperimentRunner.MismatchRecorded | src/infra_joint/experiments/runner.py:97-152 | when the workers are not as declared nothing is put, and the one event on record is the failure at index zero without a parent |
| ExperimentRunner.MaterializedTaskIsOneStore | src/infra_joint/experiments/runner.py:169-204 | on empty workers it leaves agreeing replicas of exactly the task's artifacts, by one transfer per placement |
| ExperimentRunner.MaterializedWherePlaced | src/infra_joint/experiments/runner.py:169-220 | afterwards a worker holds an ID iff a placement says so, with the adapter's bytes or else the file's, of the declared size, as the declared media type without parameters |
| ExperimentRunner.MaterializesIff | src/infra_joint/experiments/runner.py:169-220 | on empty workers it succeeds iff the IDs placed are the task's, every placement names a worker, and every artifact has an ID, a media type and bytes of the declared size and checksum |
| ExperimentRunner.ExperimentRefinesSingleStore | src/infra_joint/experiments/runner.py:73-167 | materialization and run together follow, however they end, a run over one store loaded with the task's artifacts |
| Sorting.SortStable | src/infra_joint/operators/structured.py:288-292 | elements with equal keys keep their order, in both directions of the sort |
| TopKRecords.SelectCharacterised | src/infra_joint/operators/structured.py:277-294 | the first k in rank order; with those passed over it is the whole input, none of which ranks before; ties keep input order |
| TopKRecords.SelectsIff | src/infra_joint/operators/structured.py:277-287 | a selection is refused for a record without the field before a mix of types, and for nothing else; no records at all are fine |
| TopKRecords.SelectionDirection | src/infra_joint/operators/structured.py:288-294 | on numbers and on strings, what is passed over is not greater than what is selected when descending and not less when ascending |
| TopKRecords.SelectNested | src/infra_joint/operators/structured.py:277-294 | top-j of top-k is top-min(j, k) |
| TopKRecords.SelectSharded | src/infra_joint/operators/structured.py:277-303 | top-k of concatenated shards is top-k of their top-k's, ties and type errors included; a shard that cannot be ranked alone cannot be ranked with others |
| AggregateRecords.Run | src/infra_joint/operators/structured.py:254-275 | the one-pass loop computes one row per distinct key over exactly the records with that key, or the first error |
| AggregateRecords.DistinctInOrder | src/infra_joint/operators/structured.py:257-266 | keys stand in the order of their first occurrence |
| AggregateRecords.GroupsPartition | src/infra_joint/operators/structured.py:257-266 | group sizes add up to the number of records: nothing lost, nothing shared |
| AggregateMeaning.AggregateMeans | src/infra_joint/operators/structured.py:254-275 | rows and distinct keys correspond in order of first occurrence; a row holds its key's fields as the first such record has them and each aggregate of exactly the records with that key, a later output field of the same name winning |
| AggregateMeaning.ApplyMeans | src/infra_joint/operators/structured.py:137-154 | COUNT is the number of records, SUM their sum, MIN and MAX a value of one of them that bounds all, AVG times the count the sum, and null without records |
| AggregateMeaning.AggregatesIff | src/infra_joint/operators/structured.py:130-275 | aggregation succeeds iff every record has every key field with a scalar in it and, if there is a row to fill, every aggregate but COUNT names a field that is numeric in every record |
| AggregateMeaning.AggregateOfNothing | src/infra_joint/operators/structured.py:267-275 | no records give no rows when grouped by a field and one row otherwise, with zero counts and nulls |
| Reductions.ReduceByGroups | src/infra_joint/operators/structured.py:137-153 | a commutative, associative reduction by groups and then across groups is the reduction of everything, however groups interleave |
| RollUp.RollUpLaw | src/infra_joint/operators/structured.py:137-275 | aggregating finely and rolling up equals aggregating directly, row order included, iff it is not the one-row-over-nothing case spelled out |
| RollUp.CountOfNothingIsLost | src/infra_joint/operators/structured.py:267-268 | a concrete input on which rolling up a count gives null instead of zero |
| Retrieval.Bm25Scores | src/infra_joint/operators/retrieval.py:30-53 | the counting and scoring loops compute the BM25 sum for every document |
| Retrieval.FrequencyBounded | src/infra_joint/operators/retrieval.py:37-45 | document frequency never exceeds the corpus and is positive iff some document has the token |
| Retrieval.ContributionBounds | src/infra_joint/operators/retrieval.py:42-51 | a query token adds something iff the document has it, and at most idf * (k1 + 1) |
| Retrieval.ScoreBounds | src/infra_joint/operators/retrieval.py:41-52 | a score is positive iff the document contains a query token, zero otherwise, and bounded by the sum of caps |
| Retrieval.ContributionFormula | src/infra_joint/operators/retrieval.py:46-51 | what a token adds, times its denominator, is the logarithm of the inverse document frequency times frequency times k1 + 1 |
| Retrieval.RarerWeighsMore | src/infra_joint/operators/retrieval.py:46-48 | a token found in fewer documents of the corpus weighs more, for a monotone logarithm |
| Retrieval.LongerScoresLess | src/infra_joint/operators/retrieval.py:49-51 | at equal frequency a longer document gets less for a token when b is positive |
| Retrieval.OftenerScoresMore | src/infra_joint/operators/retrieval.py:49-51 | at equal length a document gets more for a token it has more often |
| Retrieval.RankingOrder | src/infra_joint/operators/retrieval.py:90-93 | matching documents precede all others, which keep corpus order; no document appears twice |
| Retrieval.RankingIsTopK | src/infra_joint/operators/retrieval.py:90-94 | the (-score, index) ranking is the descending stable selection on the score field |
| Retrieval.Bm25Retrieve | src/infra_joint/operators/retrieval.py:73-95 | the operator returns that selection over the scored records, or the error for a field that is not text |
| Retrieval.RecordScores | src/infra_joint/operators/retrieval.py:79-89 | a record scores positively iff its text field has a token of the query |
| Retrieval.RetrievedMeans | src/infra_joint/operators/retrieval.py:90-94 | as many different records as asked for, or all, each unchanged but for its own score, and none passed over scores higher |
| DocumentSplit.Split | src/infra_joint/benchmarks/longbench_v2.py:187-201 | the scanning and slicing loops compute the documents between leftmost, non-overlapping occurrences |
| DocumentSplit.SplitCharacterised | src/infra_joint/benchmarks/longbench_v2.py:187-201 | documents are nonempty, concatenate back to the context, and all but the first start with the delimiter |
| DocumentSplit.InformationAlwaysPreserved | src/infra_joint/benchmarks/longbench_v2.py:202-204 | the reconstructed bytes always equal the source bytes |
| DocumentSplit.ArtifactIdsDistinct | src/infra_joint/benchmarks/longbench_v2.py:194-201 | no two documents share an artifact ID, however many there are |
| DocumentSplit.QuietDocument | src/infra_joint/benchmarks/longbench_v2.py:187-201 | no delimiter is left inside a document: past the one it starts with, none occurs |
| DocumentSplit.SplitAgain | src/infra_joint/benchmarks/longbench_v2.py:187-201 | splitting any resulting document again yields just itself, for self-overlapping delimiters too |
| FixedWidth.AdjacentIffPairwise | src/infra_joint/benchmarks/longbench_v2.py:92-106 | the adjacent-pair check in start order accepts iff the columns are pairwise disjoint |
| FixedWidth.AssertColumnsCoverLine | src/infra_joint/benchmarks/longbench_v2.py:289-301 | the marking array accepts a line iff every non-blank character is inside some column |
| FixedWidth.OneColumnEach | src/infra_joint/benchmarks/longbench_v2.py:289-301 | on an accepted line each non-blank character belongs to exactly one column |
| FixedWidth.SlicesHoldLine | src/infra_joint/benchmarks/longbench_v2.py:246-255 | the column slices, left to right, carry exactly the non-blank characters of the line, in order |
| FixedWidth.Convert | src/infra_joint/benchmarks/longbench_v2.py:220-262 | splitting into lines, header check and row loop compute the content of the converted artifact, errors included |
| FixedWidth.ConvertsIff | src/infra_joint/benchmarks/longbench_v2.py:225-255 | a context converts iff it has the header lines, the last of them covered by the columns and naming each of them, and every line with data is covered and readable in every column; a header error comes first |
| FixedWidth.RecordHoldsLine | src/infra_joint/benchmarks/longbench_v2.py:246-255 | a record of text columns holds all the data of its line |
| FixedWidth.RecordsMatchLines | src/infra_joint/benchmarks/longbench_v2.py:238-255 | one record per line with data, in order; the lines skipped had none |
| FixedWidth.ValueMeans | src/infra_joint/benchmarks/longbench_v2.py:303-328 | a column's value is its stripped slice, or for numeric columns null where that is empty and allowed and otherwise the number it spells |
| FixedWidth.LineThenBreak | src/infra_joint/benchmarks/longbench_v2.py:225 | a line ends at its first break, of which a carriage return and line feed are one |
| FixedWidth.DataPreservedIff | src/infra_joint/benchmarks/longbench_v2.py:225-262 | with text columns, names and records carry the non-blank characters of the context in order, except those above the last header line: preserved iff there are none |
| FixedWidth.TitleIsLost | src/infra_joint/benchmarks/longbench_v2.py:225-237 | a context with a title line above its header, any two visible characters: the conversion succeeds and drops the title |
| CorpusSharding.ShardCorpus | src/infra_joint/benchmarks/multihop_rag.py:227-231 | the appending loop computes the shards named by document content |
| CorpusSharding.ShardsPermuteCorpus | src/infra_joint/benchmarks/multihop_rag.py:227-231 | every document is in exactly one shard and the shards together are a permutation of the corpus |
| CorpusSharding.ShardKeepsOrder | src/infra_joint/benchmarks/multihop_rag.py:229-231 | within a shard documents stand in corpus order and none of its own is missing |
| CorpusSharding.DigestIsCanonical | src/infra_joint/benchmarks/multihop_rag.py:318-324 | every rearrangement of a corpus without duplicates has the same sorted records and digest |
| CorpusSharding.DigestTellsApart | src/infra_joint/benchmarks/multihop_rag.py:318-324 | corpora with equal digests hold the same documents, where SHA-256 and canonical JSON are injective |
| CorpusSharding.ShardByContent | src/infra_joint/benchmarks/multihop_rag.py:229-231 | a document is in shard i iff it is in the corpus and its digest, read as a number, leaves remainder i |
| CorpusSharding.PrepareFullCorpus | src/infra_joint/benchmarks/multihop_rag.py:222-264 | the shard artifacts and the audit record that compares source and adapted digest |
| CorpusSharding.ShardArtifactsDistinct | src/infra_joint/benchmarks/multihop_rag.py:233-241 | no two shard artifacts share an ID; each has its padded number from one, logical type and JSON media type, and holds the canonical JSON of its shard at its declared size and checksum |
| CorpusSharding.AlwaysOfficialEquivalent | src/infra_joint/benchmarks/base.py:70-95 | the two digests always agree, so a full-corpus setting is official-equivalent however it is sharded |
| Validity.OfficialIff | src/infra_joint/benchmarks/base.py:70-95 | a setting is derived iff some transformation is lossy or depends on gold answers, or the query or the evaluator differs |

## Left out

- HTTP, FastAPI routing, the CLI, YAML configuration and secrets: each endpoint is its effect on the worker's store; media types travel by appending a charset and cutting parameters.
- The language model and OpenAI request building: a function of the prompt at the planner and finalizer, and of deployment, prompt and artifacts at a worker.
- Prompt wording and JSON rendering: the prompt is an uninterpreted function of the logical payload, so equal payloads give equal prompts.
- JSON Schema and Pydantic validation: the validated types are taken as given; a registry is a set of operators, and its schemas are one predicate on actions, the same at controller and workers.
- What differs between workers in the handlers of one operator: `Semantics.operate` is one function for all of them, while `read_artifact` refuses content over each worker's own `max_read_artifact_bytes` and media operators need FFmpeg.
- LangGraph internals, its recursion limit among them: the declared edges are the graph.
- SHA-256 is uninterpreted; only results that compare contents through checksums require it to be injective, on the contents and on the encoded IDs.
- Floating point and the difference between int and float: numbers are reals, so overflow, rounding, NaN, and COUNT as an integer against SUM as a float are not modelled.
- The code under which a failed observation or action is recorded (core/errors.py and resolver.py have one per kind): in runs over workers it is one failure, though the action itself tells them apart (`Protocol.RefusedUntouched`).
- Clocks, latencies, UUIDs, telemetry other than transfer bytes, and audit dictionaries.
- Worker loss between an observation and the steps that rely on it; with partial reporting the snapshot is exact for the workers that answered (`TransferProperties.SnapshotDescribes`).
- A trace sink that itself fails to append.
- Reordering of renames and fsync below the file system: renames are atomic and operations take effect in program order.
- Text with lone surrogates, which Python strings can hold and UTF-8 cannot encode.
- Stored media types that carry parameters, in the theorems about several workers, because a pull does not preserve them.
- `filter_records`, `select_fields`, `derive_fields`: record-by-record expressions that would add only easy members.
- `aggregate_artifacts` is concatenation of record lists and appears as such in `TopKRecords.SelectSharded`.
- Loading and storing of JSON artifacts around the data operators: operators are functions of record lists.
- Media operators (FFmpeg, PIL, contact sheets), the video adapter, evaluators, fixed-candidate bundles and the identity adapter.
- Numeric parsing of fixed-width values: an uninterpreted partial function per column type; the results on lost data are stated for text columns.
- WorkerServer.Worker.PullArtifact: an unconfigured fetcher and a host that is not on its allow-list are not modelled; every worker can fetch from every other.
- Refinement.EveryRunFollowsSingleStore: when an action fails for a reason of the workers' own (no placement, an operator its worker lacks, text that does not decode), nothing is said of what the single store does from there on.
- ExperimentRunner.BenchmarkRunner.Materialize: the stores that a failed startup leaves are not described; no run follows it.
- ExperimentRunner.BenchmarkRunner.Run: from startup on the graph acts on the cluster as a value; client construction, the persisted result file and the choice of planner backend are not modelled.
- TransferProperties.AdmittedRequestAdmittedAtWorker: the worker's refusal of a prompt that is empty or not a string is outside the preflight test; `Refinement.ModelStepExact` includes it.
- PlanningRuntime.GraphRunner.Run: a budget of zero, which the graph's constructor refuses, is allowed, which only makes the statement wider.
