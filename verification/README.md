# Workflow engine: compiler, executor and the protocols around them

Users draw a workflow in the browser. A Go server compiles the drawing into a runner flow and queues it. A TypeScript
runner takes the message, executes the nodes round by round while mirroring its state into Redis, and streams numbered
events back. This project models that path and proves what it keeps.

The parts, in the order in which they build on each other:

- `Wrappers`, `Strings`: results, JSON values, JavaScript records, and `split` as both languages have it.
- `Graph`: dependency graphs described by their paths, independently of any scheduler; the finite-graph cycle argument.
- `Flow`, `Context`: what the runner receives, the execution context, input resolution, the Redis mirror and its classes.
- `Executor`: the executor as a state machine with one step per await. A state holds the stored context, the Redis
  commands issued but not yet applied, the live context and the phase of every concurrent node. Nodes are a relation
  between inputs and outcomes. The process may crash at any point, lose any suffix of the issued commands, and restart.
- `ExecutorInvariant`, `ExecutorRuns`, `ExecutorTermination`, `ExecutorOutcome`, `ExecutorRecords`, `ExecutorRefinement`,
  `ExecutorDurability`, `ExecutorTrace`: what every reachable state, run, restart and event trace satisfies.
- `WorkflowExecutor`: the executor's loop over the live objects, proved to end as every schedule does.
- `Builder`, `Connections`, `Outputs`, `Compiler`: the Go compiler, with Go's map iteration in an arbitrary order.
- `Project`: workflows, credentials and the cached runner flow.
- `EndToEnd`, `Handles`: both languages together, from the label typed in the browser to the value a node receives.
- `Queue`, `QueueRuns`: the Redis stream consumer group with idle-consumer cleanup and job slots.
- `Lines`: child-process output cut into chunks. `SqlTemplate`: placeholders to numbered SQL parameters.
- `EventLog`: the numbered event log and its replay. `ClientRegistry`: double-checked locking under a read/write lock.

Side conditions are stated as `requires` or proved exact. Input resolution throws unless everything it needs is recorded
(`Context.ResolvesIffNeedsRecorded`); compiled flows never throw (`EndToEnd.CompiledIsValid` with
`ExecutorRuns.ReadyIsResolvable`), and the executor's theorems ask for this as `Valid`. An edge keeps its meaning on its
way through the text "node.field" if and only if the node id and handle name are non-empty and have no dot
(`EndToEnd.ReadAsPromisedIffClean`).

Where the code does less than its surroundings suggest, the code is followed, the exact condition is proved, and a
concrete input shows the failure:

- Replacing the key of a credential does not reset cached runner flows: the cache stays right if and only if no cached
  flow carries that key or the key is unchanged (`Projects.Project.UpdateCredential`).
- A query reads back as the template with its values if and only if no digit follows a placeholder or a literal dollar
  sign (`SqlTemplate.FaithfulIffSafe`).
- A queued message is never handled if and only if its delivery went to a consumer that was dead or lost the reply
  (`QueueRuns.NeverHandledIffLost`); the cleanup acknowledges such messages without handling them.
- The log of a function process is independent of how its output was cut if and only if no unmarked complete line follows
  the first marker line (`Lines.LogsIgnoreChunksIffNothingFollows`).
- The outputs of a node depend on Go's map order if and only if two of its handles share a name or, for a node that
  renames to "response", two of them give different outputs (`NodeOutputs.OrderIsUnobservableIffFree`).
- A streamed output is the one the result node returns if and only if the first well-formed edge of the result handle
  leads to it (`NodeOutputs.StreamedIsFinalIffFirst`).
- An acyclic workflow whose nodes all succeed has a result if and only if it has not exactly one result node, or a node under the
  fixed id "result-node" (`ExecutorRefinement.ExpectedCompletesIff`).
- A label that is empty once sanitised gives an id that the server accepts, the browser rejects and the runner misreads
  (`Handles.RoundTripIffNamed`, `Handles.ServerAgrees`, `Handles.NameSurvivesIffNamed`).

Two more differences between the code and its words:

- The cleanup takes consumers for dead after 3 seconds of idling (redis-queue-consumer.ts:238), although the comment
  above it says 5 minutes; the model lets it take any consumer for dead, so its claims do not depend on the threshold.
- An edge's `Source` is the consumer and its `Target` the producer (workflow.go:594-618), against what the names suggest.

## Model

| member | source | states |
|---|---|---|
| Strings.JoinSplit | backend/internal/application/domain/model/workflow.go:713-715 | splitting loses nothing: the parts joined give the text back, and no part contains the separator |
| Strings.SplitPair | runner/src/services/context/context.interface.ts:182 | two separator-free texts joined by the separator split into exactly those two |
| Strings.SplitAppend | runner/src/nodes/code-executors/common/spawn-async.ts:66-71 | appending to a text extends only its last part, so complete lines are final |
| Graphs.DoomedIffUnbounded | runner/src/services/workflow/workflow.executor.ts:70-86 | dependency paths from a node are bounded exactly when it reaches neither a cycle nor a missing node |
| Graphs.DependencyIsLower | runner/src/services/workflow/workflow.executor.ts:224-257 | a dependency of a node that can complete can complete too, and has a strictly shorter longest path |
| Graphs.StuckMeansDoomed | runner/src/services/workflow/workflow.executor.ts:70-86 | when nothing is ready, the nodes left are exactly those reaching a cycle or a missing node |
| Context.BuildDependencyGraph | runner/src/services/workflow/workflow.executor.ts:224-257 | the two loops build the graph in which each node depends on the nodes its sources name |
| Context.DependenciesAreNamed | runner/src/services/workflow/workflow.executor.ts:239-252 | a node is a dependency exactly when some input's source names it, and is listed once |
| Context.DependenciesAreAddressed | runner/src/services/workflow/workflow.executor.ts:239-252 | in terms of the text: a dependency is a non-empty, dot-free id with which some source begins |
| Context.FindReadyNodes | runner/src/services/context/context.interface.ts:151-160 | the ready nodes are exactly the uncompleted ones whose dependencies are all completed, each once |
| Context.BlockedAreLeftovers | runner/src/services/workflow/workflow.executor.ts:112-138 | the error names exactly the uncompleted nodes, each with exactly its uncompleted dependencies |
| Context.ManagedExecutionContext.Resolve | runner/src/services/context/context.interface.ts:167-229 | the loop with its four cases gives every input the value its text means, and no other; it throws for the first input whose node is not recorded |
| Context.ResolvedMeans | runner/src/services/context/context.interface.ts:179-217 | source "id.field" is that field of the output recorded for the node, or absent; source "id" is the whole output; without source it is the entrypoint's output of that name, else the literal value |
| Context.ErrorIsFirst | runner/src/services/context/context.interface.ts:134-139 | the error names the node of the first input whose node is not recorded, or the entrypoint for one without source |
| Context.ResolvedPointwise | runner/src/services/context/context.interface.ts:179-217 | each input has exactly the value that resolving it alone gives; none is skipped, mixed up or invented |
| Context.ResolvesIffNeedsRecorded | runner/src/services/context/context.interface.ts:134-139 | resolution does not throw exactly when every named node, and the entrypoint if some input has no source, is recorded |
| Context.ResolveReadsNeeds | runner/src/services/context/context.interface.ts:179-217 | resolution depends on the outputs of the needed nodes only |
| Context.ManagedExecutionContext.Sync | runner/src/services/context/context.interface.ts:67-73 | the store then holds the live context, unless there was no stored context to update |
| Context.ManagedExecutionContext.UpdateNode | runner/src/services/context/context.interface.ts:85-88 | one execution is recorded in memory, and the store mirrors it when a context was stored |
| Context.ManagedExecutionContext.MarkNodeCompleted | runner/src/services/context/context.interface.ts:80-83 | the node joins the completed set in memory, and the store mirrors it when a context was stored |
| Context.RedisContextService.GetContext | runner/src/services/context/redis-context-service.ts:85-104 | reading gives back exactly the context that was saved, order of completion included, or reports it missing |
| Context.RedisContextService.SaveContext | runner/src/services/context/redis-context-service.ts:157-165 | what is saved loads as the same context, and no other run's context changes |
| Context.ContextsAreSeparate | runner/src/services/context/redis-context-service.ts:153-155 | two runs have the same key exactly when workflow and trigger are the same |
| Context.RedisContextService.UpdateContext | runner/src/services/context/redis-context-service.ts:117-133 | a full update replaces the stored context if there is one, and fails and changes nothing otherwise |
| Context.RedisContextService.Initialize | runner/src/services/context/redis-context-service.ts:46-67 | a run resumes from the stored context, or starts fresh and stores the fresh context |
| Context.StoreRoundTrip | runner/src/services/context/redis-context-service.ts:167-181 | storing a context and loading it gives the same context, order of completion included |
| Context.ExtractFinalOutput | runner/src/services/workflow/workflow.executor.ts:259-276 | one result node: the output recorded under the fixed id; any other number: an object with exactly the result nodes and their recorded outputs, null where none was put out; it throws exactly when one of these has no record, naming the first |
| Context.FinalOutputIs | runner/src/services/workflow/workflow.executor.ts:263-275 | the same of the specification: when the final output exists, what it is in terms of the records, and which error it is else |
| Context.ResultNodesAre | runner/src/services/context/context.interface.ts:141-149 | the result nodes are exactly the entries of kind "result" |
| ExecutorInvariant.InvKept | runner/src/services/workflow/workflow.executor.ts:59-175 | every step, crash and restart keeps the stored and the live context sound and the commands in order |
| ExecutorRuns.NoLostUpdate | runner/src/services/context/context.interface.ts:67-88 | whenever no update is under way, the store holds the live context, whatever the interleaving so far |
| ExecutorRuns.StoredSnapshotsAreSound | runner/src/services/context/redis-context-service.ts:157-182 | a crash after any prefix of the issued commands leaves a context whose completed nodes all have a successful record |
| ExecutorRuns.ReadyIsResolvable | runner/src/services/context/context.interface.ts:134-217 | resolving the inputs of a ready node never throws |
| ExecutorRuns.ReadyIsIndependent | runner/src/services/workflow/workflow.executor.ts:145-174 | the inputs of a ready node are unaffected by what the other nodes of its round record |
| ExecutorRuns.Progress | runner/src/services/workflow/workflow.executor.ts:59-110 | until the run is over some step is possible, in every reachable state |
| ExecutorTermination.MeasureDrops | runner/src/services/workflow/workflow.executor.ts:64-107 | every step but a crash or restart strictly lowers a measure that never becomes negative |
| ExecutorTermination.EveryLifeEnds | runner/src/services/workflow/workflow.executor.ts:59-110 | a life of the process has at most 12 steps a node plus 4, and can go on until it is over |
| ExecutorOutcome.CompletedInRoundOfRest | runner/src/services/workflow/workflow.executor.ts:64-106 | in any life a node not completed at its start is completed after exactly as many rounds as its longest path of such nodes has |
| ExecutorOutcome.CompletedInRoundOfHeight | runner/src/services/workflow/workflow.executor.ts:64-106 | so from a fresh start after exactly as many rounds as its longest dependency path has nodes |
| ExecutorOutcome.CompletedByRoundOfHeight | runner/src/services/context/redis-context-service.ts:46-61 | a restart never makes a node complete later than a fresh start would |
| ExecutorOutcome.StuckExactlyWhenDoomed | runner/src/services/workflow/workflow.executor.ts:63-138 | unless a node fails, the circular-dependency error is the ending exactly when some node reaches a cycle or a missing node, and names exactly those nodes, each with exactly its dependencies that do |
| ExecutorRecords.RecordsAreExplained | runner/src/services/workflow/workflow.executor.ts:145-222 | for nodes that may fail and answer differently each time: at any time, live or stored, the inputs of every record are what the outputs recorded beside it give, and the rest is one answer of the node to them |
| ExecutorRecords.RecordingGives | runner/src/services/workflow/workflow.executor.ts:161-170 | recording a node that is not completed leaves alone the inputs any other node was given |
| ExecutorRefinement.ReadyInputsAreValues | runner/src/services/workflow/workflow.executor.ts:155-158 | a node starts with the inputs that recursive evaluation would give it |
| ExecutorRefinement.RecordedIsValue | runner/src/services/workflow/workflow.executor.ts:161-170 | at any time a record of a node, live or stored, holds its inputs and its value by recursive evaluation, and no error |
| ExecutorRefinement.EveryScheduleEvaluates | runner/src/services/workflow/workflow.executor.ts:59-175 | over an acyclic workflow of deterministic succeeding nodes every interleaving, with any crashes and restarts, ends with the outputs of recursive evaluation, and the result is the value of the result node, or the values of all result nodes under their ids |
| ExecutorRefinement.ExpectedCompletesIff | runner/src/services/workflow/workflow.executor.ts:259-276 | that evaluation has a result exactly when the number of result nodes is not one or a node has the fixed id; the result is that node's value, or each result node's value under its id, and else the fixed id is reported missing |
| ExecutorRefinement.LoneResultElsewhereThrows | runner/src/services/workflow/workflow.executor.ts:263-267 | the failing definition: a lone result node with another id |
| ExecutorDurability.CompletionIsDurable | runner/src/services/context/redis-context-service.ts:157-182 | along any run, crashes included, the stored list of completed nodes only grows, at its end |
| ExecutorDurability.CompletedIsNeverRestarted | runner/src/services/workflow/workflow.executor.ts:88-106 | a node once stored as completed is never ready nor run again, after any number of crashes |
| ExecutorTrace.EveryTraceIsGrammatical | runner/src/services/workflow/workflow.executor.ts:36-56 | events obey a grammar: start first, nothing after the end, a node starts once after its dependencies completed and ends once after it started |
| ExecutorTrace.NodeEventsAreUnique | runner/src/services/workflow/workflow.executor.ts:177-222 | no node event occurs twice, and no node both completes and fails |
| ExecutorTrace.FinishedTrace | runner/src/services/workflow/workflow.executor.ts:36-56 | a finished life has exactly one terminal event, last, which carries the result; every started node ended; success means every node not completed before ran |
| ExecutorTrace.FailureIsNamed | runner/src/services/workflow/workflow.executor.ts:93-102 | a life ends in the failed-nodes error exactly when a node failed in it, and the error names exactly those nodes |
| SequentialExecutor.WorkflowExecutor.ExecuteNode | runner/src/services/workflow/workflow.executor.ts:145-172 | one ready node is given the inputs its texts mean, run, and recorded with these inputs and its output or error; nothing else changes |
| SequentialExecutor.WorkflowExecutor.ExecuteReadyNodes | runner/src/services/workflow/workflow.executor.ts:140-175 | the ready nodes are run and recorded, progress is otherwise unchanged, and exactly the nodes that failed are returned |
| SequentialExecutor.WorkflowExecutor.ExecuteRound | runner/src/services/workflow/workflow.executor.ts:88-106 | one pass of the loop completes exactly the ready nodes, or none when one failed |
| SequentialExecutor.WorkflowExecutor.MarkAll | runner/src/services/workflow/workflow.executor.ts:104-106 | exactly the nodes of the round are appended to the completed ones, and the store mirrors it |
| SequentialExecutor.WorkflowExecutor.ExecuteWorkflow | runner/src/services/workflow/workflow.executor.ts:59-110 | the loop ends, keeps the context sound and mirrored, and over acyclic deterministic nodes ends with the values of recursive evaluation |
| Connections.BuildNodeInputs | backend/internal/application/domain/model/workflow.go:584-623 | the loop gives each fed name the type and source of the last edge that feeds it, and no other name |
| Connections.LastEdgeWins | backend/internal/application/domain/model/workflow.go:584-623 | an input exists exactly when an edge feeds it, and the last such edge decides: type before "__" in its own handle, source "producer.name" of the other |
| Connections.BuildResultInputs | backend/internal/application/domain/model/workflow.go:554-581 | the nested loops give each label of a wired handle the type of the last such handle and the source of its first well-formed edge |
| Connections.FirstWireIs | backend/internal/application/domain/model/workflow.go:559-576 | an edge is taken for a handle exactly when it is the first well-formed one in the list |
| Connections.ResultInputsAreDrawn | backend/internal/application/domain/model/workflow.go:554-581 | the inputs of the result node in terms of its handles and the edges alone |
| Connections.FirstEdgeIsFirst | backend/internal/application/domain/model/workflow.go:559-576 | the edge taken for a handle is the first well-formed one in the list |
| Connections.FirstEdgePerHandle | backend/internal/application/domain/model/workflow.go:554-581 | a label is an input exactly when a handle so labelled has a well-formed edge; the last such handle and its first edge decide |
| NodeOutputs.BuildNodeOutputs | backend/internal/application/domain/model/workflow.go:626-710 | the result is possible for some iteration order of the Go map, and is as drawn |
| NodeOutputs.OutputsAreDrawn | backend/internal/application/domain/model/workflow.go:626-710 | whatever the map order: the outputs are exactly the names of the well-formed handles edges leave by, with the handle's type and label; a renaming node has one "response" standing for one of them, or plain text without edges |
| NodeOutputs.KeyIs | backend/internal/application/domain/model/workflow.go:663-686 | the label is the name of the first result handle with the id of the first edge from that handle to the result node, and empty without one |
| NodeOutputs.GroupByHandle | backend/internal/application/domain/model/workflow.go:641-646 | the edges are grouped by target handle, in order |
| NodeOutputs.ProcessHandles | backend/internal/application/domain/model/workflow.go:656-696 | each group gives one output, in whatever order the map yields the groups |
| NodeOutputs.FindResultKey | backend/internal/application/domain/model/workflow.go:666-686 | the label of the result handle that the first edge from the result node names |
| NodeOutputs.OutputsComeFromHandles | backend/internal/application/domain/model/workflow.go:657-696 | every well-formed handle gives an output under its name, and nothing else does |
| NodeOutputs.OrderUnobservableIffDistinct | backend/internal/application/domain/model/workflow.go:656-696 | the outputs are independent of Go's map order exactly when no two handles share a name |
| NodeOutputs.OrderIsUnobservableIffFree | backend/internal/application/domain/model/workflow.go:626-710 | all possible results are equal exactly when the well-formed handles have distinct names or, for a node that renames to "response", all give the same output |
| NodeOutputs.RenameCanPickEither | backend/internal/application/domain/model/workflow.go:698-707 | the drawing that shows it: a chat node with a text and an image handle |
| NodeOutputs.FirstEdgeIsRead | backend/internal/application/domain/model/workflow.go:554-581 | whatever streams under a label, the result node reads the first well-formed edge of that handle |
| NodeOutputs.StreamedIsFinalIffFirst | backend/internal/application/domain/model/workflow.go:554-710 | an output that streams under a label is the one the result node reads for it exactly when the first well-formed edge of the handle leads to it |
| NodeOutputs.StreamedIsFinal | backend/internal/application/domain/model/workflow.go:554-710 | so always with one edge a handle; for renamed nodes exactly when the handle is "response" |
| NodeOutputs.TwoProducersDisagree | backend/internal/application/domain/model/workflow.go:666-686 | the drawing that shows it: two producers on one result handle |
| Compiler.GetConnectedTools | backend/internal/application/domain/model/workflow.go:286-326 | the loop collects the attached tools with their keys in edge order, and the first failure ends it |
| Compiler.GetConnectedMemory | backend/internal/application/domain/model/workflow.go:329-344 | the loop finds the first attached memory whose data decodes |
| Compiler.FirstMemoryIsFirst | backend/internal/application/domain/model/workflow.go:330-343 | it is the type and configuration of the node of the first attaching edge in the list, and absent exactly when there is none |
| Builder.NodesByIdAre | backend/internal/application/domain/model/workflow.go:254-257 | an id stands for the last node listed under it |
| Compiler.ToolsAre | backend/internal/application/domain/model/workflow.go:286-326 | the tools are those of all attaching edges, in edge order, each with its node's id, type, name, description and configuration, and the key of its credential |
| Compiler.AgentModelIs | backend/internal/application/domain/model/workflow.go:347-384 | the model of an agent is that of its first "ai-model__" edge to an existing node |
| Compiler.NodeConfigIs | backend/internal/application/domain/model/workflow.go:456-551 | a configuration is compiled exactly when it is this: for an agent its own with provider "openai" or "anthropic" by the model node's type, that node's model and the key of its credential; for a chat node its own with the key; for code the three fields |
| Compiler.EntrypointOutputIs | backend/internal/application/domain/model/workflow.go:405-425 | an output of the entrypoint is a label, with the type of the last handle so labelled |
| Compiler.ConvertibleIff | backend/internal/application/domain/model/workflow.go:286-551 | a node converts exactly when the credentials of its tools are stored and some configuration is described for it |
| Compiler.ErrorIs | backend/internal/application/domain/model/workflow.go:286-551 | the error is that of the first failing tool, else of the model or credential, or of data that does not decode |
| Compiler.TranslationIs | backend/internal/application/domain/model/workflow.go:404-551 | every possible translation has the kind, configuration, tools, memory, inputs and outputs the drawing describes |
| Compiler.ProcessNode | backend/internal/application/domain/model/workflow.go:404-551 | succeeds exactly when the node is describable, with what the drawing describes; the error is the first failure and does not depend on map order |
| Compiler.ConvertBuilderToRunnerFlow | backend/internal/application/domain/model/workflow.go:249-283 | succeeds exactly when every processed node converts; the flow then has exactly the compilable ids, each translated from the last node listed under it; else the error is that of the first node that does not convert |
| Projects.ConversionMonotone | backend/internal/application/domain/model/workflow.go:717-724 | a conversion stays valid when credentials are added |
| Projects.NodeAffected | backend/internal/application/domain/model/workflow.go:286-551 | a node carrying a key translates differently once the key changes |
| Projects.SurvivesRekeyIffUnused | backend/internal/application/domain/model/credential.go:48-67 | a compiled flow survives the change of a key exactly when no node of it carries that key |
| Projects.AnthropicChatGoesStale | backend/internal/application/domain/model/credential.go:48-67 | the flow that shows it: a cached chat node whose key changes |
| Projects.Project.CreateWorkflow | backend/internal/application/domain/model/workflow.go:163-182 | adds the drawn workflow without a cached flow or rejects an undecodable drawing, and keeps the cache coherent |
| Projects.Project.UpdateWorkflowName | backend/internal/application/domain/model/workflow.go:184-192 | renames one workflow and keeps its cached flow |
| Projects.Project.UpdateWorkflowBuilderFlow | backend/internal/application/domain/model/workflow.go:194-206 | a new drawing drops the cached flow; a failure changes nothing |
| Projects.Project.ComputeWorkflow | backend/internal/application/domain/model/workflow.go:208-224 | succeeds exactly when a flow is cached or every processed node converts; returns the cached flow as it is or caches a conversion, and a failure caches nothing |
| Projects.Project.CreateCredential | backend/internal/application/domain/model/credential.go:16-46 | adds the credential after its checks and keeps the cache coherent; an id in use is overwritten, with the exact condition of an update |
| Projects.Project.UpdateCredential | backend/internal/application/domain/model/credential.go:48-67 | replaces name and key; the cache stays coherent exactly when no cached flow carries the key or it is the same key |
| EndToEnd.EveryFlowIsDeliverable | backend/internal/application/domain/model/workflow.go:158-161 | every compiled flow has a definition the runner can decode from it: same nodes, and each input a source without literal value |
| EndToEnd.NodeIsTranslated | backend/internal/application/domain/model/workflow.go:249-283 | the kind, configuration, tools, memory and outputs the runner executes a node with are those its drawing describes |
| EndToEnd.ReadAsPromisedIffClean | runner/src/services/context/context.interface.ts:182-207 | the text of an edge is read as the promised field, for all outputs, exactly when id and name are non-empty and dot-free |
| EndToEnd.CompiledIsSelected | backend/internal/application/domain/model/workflow.go:554-623 | an input is compiled exactly when an edge is selected for it, and carries the text of that edge |
| EndToEnd.CompiledIsValid | backend/internal/application/domain/model/workflow.go:249-283 | compiled definitions meet the side condition of the executor's theorems |
| EndToEnd.DependenciesAreEdges | runner/src/services/workflow/workflow.executor.ts:224-257 | the graph the runner rebuilds has exactly the selected edges of the drawing |
| EndToEnd.ResolvedAsDrawn | runner/src/services/context/context.interface.ts:179-217 | resolving a compiled node gives each input the value at the named field of the producer's output, by its selected edge, and no other input |
| EndToEnd.CompileThenRun | runner/src/services/workflow/workflow.executor.ts:145-158 | whenever the executor starts a node of a compiled drawing, its inputs are what the drawn edges promise |
| EndToEnd.RecordsAreAsDrawn | runner/src/services/workflow/workflow.executor.ts:145-222 | at any time, whatever nodes answer, fail or crash: the record of a node of a compiled drawing is an answer to the inputs its drawn edges promise out of the records beside it |
| EndToEnd.OutcomeIsAsDrawn | runner/src/services/workflow/workflow.executor.ts:59-175 | a run that is over has recorded for every node the inputs its drawn edges promise out of the same records, and what the node computes from them |
| Handles.SanitizeString | frontend/src/lib/utils.ts:15-17 | the sanitised text has exactly the allowed characters of the text |
| Handles.SanitizeKeepsPlaces | frontend/src/lib/utils.ts:15-17 | each character is kept or dropped where it stands, so order and number are those of the text |
| Handles.RoundTripIffNamed | frontend/src/lib/handles.ts:4-17 | parsing a generated id gives type and sanitised label back exactly when that label is not empty |
| Handles.UnderscoreHasNoName | frontend/src/lib/utils.ts:15-21 | the label that shows it: "_" is rejected by the browser and accepted by the server |
| Handles.RejectedIff | frontend/src/lib/handles.ts:9-17 | the browser rejects an id exactly when it has no separator, nothing before the first one, or nothing between it and the next |
| Handles.ServerAgrees | backend/internal/application/domain/model/workflow.go:713-715 | the server's split of a generated id has exactly two parts, the same type and label |
| Handles.GeneratedIdsDiffer | frontend/src/lib/handles.ts:4-7 | two generated ids are equal exactly when type and sanitised label are |
| Handles.ReservedIffAttachment | backend/internal/application/domain/model/workflow.go:589-593 | the server's prefix tests hold exactly for ids of type memory, tools and ai-model |
| Handles.NameSurvivesIffNamed | runner/src/services/context/context.interface.ts:182-207 | the name of a generated handle survives the "node.field" split exactly when the sanitised label is not empty |
| Handles.ServerAcceptsIffNothingDropped | frontend/src/lib/handles.ts:9-17 | an id the browser accepts has two parts for the server exactly when the browser dropped nothing of it |
| Lines.LoggedProcess.OnStdout | runner/src/nodes/code-executors/common/spawn-async.ts:14-25 | logs the complete lines of buffer and chunk and keeps the rest |
| Lines.LoggedProcess.OnStderr | runner/src/nodes/code-executors/common/spawn-async.ts:27-39 | the same for standard error, leaving the other buffer alone |
| Lines.ExitCodeDecides | runner/src/nodes/code-executors/common/spawn-async.ts:45-51 | the exit code alone decides: zero or none resolves, any other rejects with it, and a later close changes nothing |
| Lines.NothingIsLost | runner/src/nodes/code-executors/common/spawn-async.ts:14-39 | the logged lines and the rest in the buffer join to the whole stream |
| Lines.LoggedIsComplete | runner/src/nodes/code-executors/common/spawn-async.ts:14-39 | for any chunks of both streams, the lines logged of a stream are the complete lines of the whole stream, in order |
| Lines.FunctionProcess.OnStdout | runner/src/nodes/code-executors/common/spawn-async.ts:66-79 | logs up to the first marker line of the chunk, settles there with its trimmed rest, and drops the rest of the chunk |
| Lines.FunctionProcess.OnStderr | runner/src/nodes/code-executors/common/spawn-async.ts:81-91 | logs the complete lines of standard error |
| Lines.FunctionProcess.OnClose | runner/src/nodes/code-executors/common/spawn-async.ts:95-102 | settles with the trimmed rest of an unterminated marker line or rejects, unless settled already |
| Lines.TrimOnlyTrims | runner/src/nodes/code-executors/common/spawn-async.ts:75 | trimming takes all white space off both ends and nothing else |
| Lines.ResultIsRest | runner/src/nodes/code-executors/common/spawn-async.ts:74-75 | the result of a marker line is what follows the marker, trimmed |
| Lines.OutcomeIsRest | runner/src/nodes/code-executors/common/spawn-async.ts:63-102 | however the output is cut, the promise takes the trimmed rest of the first marker line, else of an unterminated last one, and is rejected when there is none |
| Lines.OutcomeIgnoresChunks | runner/src/nodes/code-executors/common/spawn-async.ts:63-102 | the promise settles to a function of the whole output, however it was cut |
| Lines.LoggedBeforeSettling | runner/src/nodes/code-executors/common/spawn-async.ts:73-78 | the lines logged when the promise settles are exactly those before the first marker line |
| Lines.AllLoggedIffUnmarked | runner/src/nodes/code-executors/common/spawn-async.ts:73-78 | all complete lines are logged exactly when none of them has the marker |
| Lines.ErrorsAreLogged | runner/src/nodes/code-executors/common/spawn-async.ts:81-91 | standard error is logged whole whatever standard output does |
| Lines.LogsIgnoreChunksIffNothingFollows | runner/src/nodes/code-executors/common/spawn-async.ts:66-79 | all cuts of an output log the same lines exactly when no unmarked complete line follows the first marker line |
| Lines.LoggedIsBeforeMarker | runner/src/nodes/code-executors/common/spawn-async.ts:73-78 | and then exactly the lines before the marker are logged |
| Lines.LaterLogsDependOnChunks | runner/src/nodes/code-executors/common/spawn-async.ts:73-78 | the output that shows it, cut in two ways |
| SqlTemplate.MatchIsPlaceholder | runner/src/tools/postgres-query-tool.ts:22 | what the pattern matches is a placeholder: braces, white space, a word, white space, braces |
| SqlTemplate.PlaceholderMatches | runner/src/tools/postgres-query-tool.ts:22 | any text starting with a placeholder matches it, whole |
| SqlTemplate.TokensSpell | runner/src/tools/postgres-query-tool.ts:22-29 | the tokens spell the template: text outside placeholders is kept |
| SqlTemplate.LiteralIffNoPlaceholder | runner/src/tools/postgres-query-tool.ts:22-29 | a character is literal exactly where no placeholder starts |
| SqlTemplate.Replace | runner/src/tools/postgres-query-tool.ts:18-29 | the replacing loop renders every placeholder with its final number and lists the names |
| SqlTemplate.ReadValues | runner/src/tools/postgres-query-tool.ts:32-40 | the values in order of the names, or the first name without one |
| SqlTemplate.ToSafePgQuery | runner/src/tools/postgres-query-tool.ts:11-43 | query and values of the template, or the first variable without a value |
| SqlTemplate.Order | runner/src/tools/postgres-query-tool.ts:23-26 | the names are distinct and are exactly the variables used |
| SqlTemplate.IndexOf | runner/src/tools/postgres-query-tool.ts:27 | the position of the name's first occurrence, so equal names share one index in range |
| SqlTemplate.ParametersInOrder | runner/src/tools/postgres-query-tool.ts:18-29 | an earlier parameter is used before any use of a later one |
| SqlTemplate.FaithfulIffSafe | runner/src/tools/postgres-query-tool.ts:11-43 | the query reads back as direct substitution for all values exactly when no digit follows a placeholder or literal dollar sign |
| SqlTemplate.DigitAfterPlaceholder | runner/src/tools/postgres-query-tool.ts:22-29 | a digit right after any placeholder makes a template unsafe |
| EventLog.RedisEventStore.StoreEvent | backend/internal/adapters/events/redis.go:29-59 | takes the next number, writes it into the message and stores the event; each failure leaves exactly the stated effects, and the log moves by the steps of one concurrent call |
| EventLog.RedisEventStore.ReadWorkflowEvents | backend/internal/adapters/events/redis.go:61-96 | decodes the range in order; a missing key is empty, an undecodable member fails the read |
| EventLog.NeverOverwrites | backend/internal/adapters/events/redis.go:33-58 | under any interleaving of calls, with lost replies, no stored event changes or vanishes and no two share a number |
| EventLog.EveryReplayIsExact | backend/internal/adapters/events/redis.go:61-96 | a replay from k returns exactly the stored events numbered k or more, strictly ascending |
| EventLog.ReplayIsUnique | backend/internal/adapters/events/redis.go:75-78 | that determines the replay |
| EventLog.Gapless | backend/internal/adapters/events/redis.go:33-58 | when every call has succeeded the log is numbered 1 to n, one number a call |
| EventLog.CallIsItsSteps | backend/internal/adapters/events/redis.go:29-59 | what those steps come to: counter, events and success of a call on its own |
| EventLog.LogsAreSeparate | backend/internal/adapters/events/redis.go:30-31 | different triggers use different counters and different logs, and no counter is a log |
| ClientRegistry.Registry.NewClient | backend/internal/pkg/redis/redis.go:36-76 | returns the registered client or registers the one dialled; a failed ping registers nothing |
| ClientRegistry.Registry.Dial | backend/internal/pkg/redis/redis.go:44-75 | the second look and the dial under the write lock |
| ClientRegistry.Registry.CloseAll | backend/internal/pkg/redis/redis.go:78-88 | closes exactly the registered clients and empties the registry |
| ClientRegistry.MutualExclusion | backend/internal/pkg/redis/redis.go:37-45 | no call reads or writes the registry beside a writer |
| ClientRegistry.OneRegistrationPerEpoch | backend/internal/pkg/redis/redis.go:47-74 | between two CloseAll calls at most one client is registered for a database, and no client twice |
| ClientRegistry.CallersShareTheClient | backend/internal/pkg/redis/redis.go:36-76 | two successful callers have the same client exactly when they asked for the same database in the same interval |
| ClientRegistry.CurrentClientIsOpen | backend/internal/pkg/redis/redis.go:78-88 | a client found since the last CloseAll is the registered one and has not been closed; one found before has been closed |
| ClientRegistry.NoDeadlock | backend/internal/pkg/redis/redis.go:36-88 | while a call is unfinished some call can go on |
| QueueRuns.ReadAsksForFreeSlots | runner/src/services/queue/redis-queue-consumer.ts:141-147 | in any run a read asks for exactly the slots not taken by unfinished or leaked jobs, and for at least one |
| Queue.RedisQueueConsumer.ProcessMessages | runner/src/services/queue/redis-queue-consumer.ts:163-183 | the loop takes one slot and one job an entry and hands over exactly the entries that carry a message, once and in stream order |
| Queue.RedisQueueConsumer.ProcessMessage | runner/src/services/queue/redis-queue-consumer.ts:185-214 | up to its first await: the truthy value of the first field after "payload" is handed over; a missing, empty or falsy one is acknowledged twice, one that does not parse once |
| Queue.ExtractedIs | runner/src/services/queue/redis-queue-consumer.ts:207-214 | the message is the decoded, truthy text of the first field after one reading "payload"; extraction throws exactly when that text does not parse |
| QueueRuns.ReleaseFreesTheSlot | runner/src/services/queue/redis-queue-consumer.ts:175-180 | in any run a job that ends frees its slot, and the slots taken stay those of the other jobs |
| QueueRuns.AcceptedAll | runner/src/services/queue/redis-queue-consumer.ts:163-183 | a batch adds one job an entry, receives each entry once and hands over no entry twice |
| QueueRuns.AtMostOnce | runner/src/services/queue/redis-queue-consumer.ts:141-205 | no entry is handed to a handler twice, by one consumer or two, under any reads, crashes and cleanups |
| QueueRuns.EveryEntryIsAccountedFor | runner/src/services/queue/redis-queue-consumer.ts:237-319 | a delivered entry is pending for exactly one consumer, acknowledged or forgotten, and only one of these |
| QueueRuns.SlotBound | runner/src/services/queue/redis-queue-consumer.ts:118-183 | slots taken are the unfinished jobs plus those whose acknowledgement failed; with an outstanding read they never exceed the limit, and no read asks for none |
| QueueRuns.DeliveredIsHandled | runner/src/services/queue/redis-queue-consumer.ts:141-214 | with no reply lost or on its way, the handled entries are exactly the delivered ones that carry a message, and each handler was given the message its entry carries |
| QueueRuns.NeverHandledIffLost | runner/src/services/queue/redis-queue-consumer.ts:141-319 | a delivered message is never handled in any continuation exactly when its reply was lost or went to a dead consumer |
| QueueRuns.AMessageCanBeLost | runner/src/services/queue/redis-queue-consumer.ts:141-183 | the run that shows it: a consumer dies while the reply is on its way |

## Left out

- Node implementations, model providers, tools and their HTTP calls: nodes are an uninterpreted relation from inputs to outcomes.
- Node implementations that throw instead of returning an error, so that `Promise.all` rejects while siblings still run; and `resolveInputs` throwing, which `Valid` excludes and whose exact condition is `Context.ResolvesIffNeedsRecorded`.
- The branch for a node missing from the definition: it cannot be taken, since the nodes of a run are the keys of its definition.
- A changed definition under the same trigger after a restart: the definition and options of a run are fixed.
- Event contents other than the node, and the events nodes emit themselves: only the order of workflow and node events is modelled.
- Redis connections, retries of the context store, expiry of keys, and stored text that fails to parse: a stored context stays until overwritten.
- JSON text: values are modelled decoded; a property with an undefined value counts as absent; integer-like property names keep insertion order.
- A node whose data is JSON `null`, for which writing into the decoded Go map panics: it is treated like an empty map.
- Uuid syntax and encryption: `parse` and the encrypted key are parameters.
- NodeOutputs.StreamedIsFinalIffFirst: asks for result handles with distinct ids and labels.
- Connections.LastEdgeWins: says which edge decides, not that the browser allows only one.
- SequentialExecutor.WorkflowExecutor.ExecuteReadyNodes: runs the nodes of a round one after another; their concurrency is in the state machine.
- Handles.RoundTripIffNamed: camel-casing is a parameter, since only the alphabet left by sanitising matters.
- Lines.LoggedIsComplete: chunks are texts; a multi-byte character cut by a chunk boundary is not modelled.
- SqlTemplate.FaithfulIffSafe: a query is read by its numbered parameters only; SQL string literals, comments and dollar quoting are not modelled.
- Context.ResolvedPointwise: outputs are plain maps; an output name JavaScript objects inherit, such as "constructor", is not modelled.
- SqlTemplate.ToSafePgQuery: variables are a plain map; names JavaScript objects inherit are not modelled.
- EventLog.EveryReplayIsExact: scores are the numbers themselves, which a float score holds up to 2^53; expiry of a log is not modelled.
- QueueRuns.AtMostOnce: consumer names are taken to be distinct; the runner draws them at random.
- QueueRuns.NeverHandledIffLost: says that handling stays possible for a message that is not lost, not that the process gets round to it.
- The blocking of Go's lock by waiting writers: any lock order its rules allow is covered.
- Postgres repositories, HTTP handlers, configuration, the browser's components and layout: plumbing with no protocol of its own.
