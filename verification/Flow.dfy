/** The runner flow: what the Go server compiles a drawn workflow into and sends to the runner. */
module Flow {
  import opened Wrappers

  const RESULT_NODE_ID := "result-node"
  const ENTRYPOINT_ID := "entrypoint-node"

  datatype RunnerTool = RunnerTool(
    id: string, kind: string, name: string, description: string, config: map<string, Json>)

  datatype RunnerMemory = RunnerMemory(kind: string, config: map<string, Json>)

  datatype RunnerInput = RunnerInput(kind: string, source: string)

  /** An empty `resultKey` is one left out of the message. */
  datatype RunnerOutput = RunnerOutput(kind: string, resultKey: string)

  datatype RunnerNode = RunnerNode(
    kind: string,
    config: map<string, Json>,
    tools: seq<RunnerTool>,
    memory: Option<RunnerMemory>,
    inputs: map<string, RunnerInput>,
    outputs: map<string, RunnerOutput>)

  type RunnerFlow = map<string, RunnerNode>
}
