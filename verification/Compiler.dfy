/** The conversion of a drawn workflow into a runner flow. */
module Compiler {
  import opened Wrappers
  import opened Flow
  import opened Builder
  import opened Connections
  import opened NodeOutputs

  type Uuid = string

  /** How text reads as a credential id, and the encrypted key of each credential of the project. */
  datatype Vault = Vault(parse: string -> Option<Uuid>, keys: map<Uuid, string>)

  datatype ConvertError =
    | InvalidData
    | InvalidCredentialId
    | CredentialNotFound
    | NoAgentModel
    | UnsupportedModel
    | ModelRequired
    | CredentialIdRequired
    | Panic

  type Config = map<string, Json>

  /** A property that is missing or null is no credential; one that is not text is a failed type assertion. */
  predicate HasCredential(config: Config) {
    "credentialId" in config && config["credentialId"] != JNull
  }

  function ApiKey(vault: Vault, credentialId: Json): Result<string, ConvertError> {
    if !credentialId.JString? then Err(Panic)
    else
      match vault.parse(credentialId.s)
      case None => Err(InvalidCredentialId)
      case Some(id) => if id in vault.keys then Ok(vault.keys[id]) else Err(CredentialNotFound)
  }

  function WithKey(vault: Vault, config: Config): Result<Config, ConvertError> {
    if !HasCredential(config) then Ok(config)
    else
      match ApiKey(vault, config["credentialId"])
      case Err(e) => Err(e)
      case Ok(key) => Ok(config["apiKey" := JString(key)])
  }

  function TextOr(config: Config, field: string): string {
    if field in config && config[field].JString? then config[field].s else ""
  }

  // ---------------------------------------------------------------- tools, memory, agent model

  predicate Attaches(nodeId: string, prefix: string, e: BuilderEdge, nodes: NodeMap) {
    e.source == nodeId && prefix <= e.sourceHandle && e.target in nodes
  }

  predicate ToolEdge(nodeId: string, e: BuilderEdge, nodes: NodeMap) {
    Attaches(nodeId, TOOLS_PREFIX, e, nodes) && nodes[e.target].data.config.Some?
  }

  function ToolOf(vault: Vault, node: BuilderNode): Result<RunnerTool, ConvertError>
    requires node.data.config.Some?
  {
    match WithKey(vault, node.data.config.value)
    case Err(e) => Err(e)
    case Ok(config) => Ok(RunnerTool(node.id, node.kind, TextOr(config, "name"), TextOr(config, "description"), config))
  }

  function ConnectedTools(vault: Vault, nodeId: string, edges: seq<BuilderEdge>, nodes: NodeMap)
    : Result<seq<RunnerTool>, ConvertError>
  {
    if edges == [] then Ok([])
    else
      var before, e := ConnectedTools(vault, nodeId, edges[..|edges| - 1], nodes), edges[|edges| - 1];
      if before.Err? || !ToolEdge(nodeId, e, nodes) then before
      else
        match ToolOf(vault, nodes[e.target])
        case Err(error) => Err(error)
        case Ok(tool) => Ok(before.value + [tool])
  }

  lemma {:induction false} ToolErrorsPropagate(vault: Vault, nodeId: string, edges: seq<BuilderEdge>, nodes: NodeMap, k: nat)
    requires k <= |edges|
    ensures ConnectedTools(vault, nodeId, edges[..k], nodes).Err? ==>
              ConnectedTools(vault, nodeId, edges, nodes) == ConnectedTools(vault, nodeId, edges[..k], nodes)
    decreases |edges| - k
  {
    if k == |edges| {
      assert edges[..k] == edges;
    } else {
      assert edges[..k + 1][..k] == edges[..k];
      ToolErrorsPropagate(vault, nodeId, edges, nodes, k + 1);
    }
  }

  method GetConnectedTools(vault: Vault, nodeId: string, edges: seq<BuilderEdge>, nodes: NodeMap)
    returns (r: Result<seq<RunnerTool>, ConvertError>)
    ensures r == ConnectedTools(vault, nodeId, edges, nodes)
  {
    var tools: seq<RunnerTool> := [];
    for i := 0 to |edges|
      invariant ConnectedTools(vault, nodeId, edges[..i], nodes) == Ok(tools)
    {
      var edge := edges[i];
      assert edges[..i + 1][..i] == edges[..i];
      ToolErrorsPropagate(vault, nodeId, edges, nodes, i + 1);
      if edge.source == nodeId && TOOLS_PREFIX <= edge.sourceHandle && edge.target in nodes {
        var target := nodes[edge.target];
        if target.data.config.Some? {
          var toolConfig := target.data.config.value;
          if "credentialId" in toolConfig && toolConfig["credentialId"] != JNull {
            var key := ApiKey(vault, toolConfig["credentialId"]);
            if key.Err? {
              return Err(key.error);
            }
            toolConfig := toolConfig["apiKey" := JString(key.value)];
          }
          var name, description := TextOr(toolConfig, "name"), TextOr(toolConfig, "description");
          tools := tools + [RunnerTool(target.id, target.kind, name, description, toolConfig)];
        }
      }
    }
    assert edges[..|edges|] == edges;
    return Ok(tools);
  }

  /** The first attached node whose data decodes. */
  function ConnectedMemory(nodeId: string, edges: seq<BuilderEdge>, nodes: NodeMap): Option<RunnerMemory> {
    if edges == [] then None
    else if Attaches(nodeId, MEMORY_PREFIX, edges[0], nodes) && nodes[edges[0].target].data.config.Some? then
      Some(RunnerMemory(nodes[edges[0].target].kind, nodes[edges[0].target].data.config.value))
    else ConnectedMemory(nodeId, edges[1..], nodes)
  }

  /** Edge `i` attaches a memory whose data decodes. */
  ghost predicate MemoryAt(nodeId: string, edges: seq<BuilderEdge>, nodes: NodeMap, i: int) {
    && 0 <= i < |edges|
    && edges[i].source == nodeId && "memory__" <= edges[i].sourceHandle && edges[i].target in nodes
    && nodes[edges[i].target].data.config.Some?
  }

  /** The memory is that of the first such edge in the list, and there is none exactly when there is no such edge. */
  ghost predicate IsMemory(nodeId: string, edges: seq<BuilderEdge>, nodes: NodeMap, memory: Option<RunnerMemory>) {
    match memory
    case None => forall i :: !MemoryAt(nodeId, edges, nodes, i)
    case Some(m) =>
      exists i ::
        && MemoryAt(nodeId, edges, nodes, i) && (forall j :: 0 <= j < i ==> !MemoryAt(nodeId, edges, nodes, j))
        && m == RunnerMemory(nodes[edges[i].target].kind, nodes[edges[i].target].data.config.value)
  }

  lemma {:induction false} FirstMemoryIsFirst(nodeId: string, edges: seq<BuilderEdge>, nodes: NodeMap)
    ensures IsMemory(nodeId, edges, nodes, ConnectedMemory(nodeId, edges, nodes))
  {
    if edges != [] {
      if Attaches(nodeId, MEMORY_PREFIX, edges[0], nodes) && nodes[edges[0].target].data.config.Some? {
        assert MemoryAt(nodeId, edges, nodes, 0);
      } else {
        var rest := edges[1..];
        FirstMemoryIsFirst(nodeId, rest, nodes);
        assert forall i :: MemoryAt(nodeId, edges, nodes, i) <==> i > 0 && MemoryAt(nodeId, rest, nodes, i - 1);
        if ConnectedMemory(nodeId, rest, nodes).Some? {
          var m := ConnectedMemory(nodeId, rest, nodes).value;
          var i :| MemoryAt(nodeId, rest, nodes, i) && (forall j :: 0 <= j < i ==> !MemoryAt(nodeId, rest, nodes, j)) &&
                   m == RunnerMemory(nodes[rest[i].target].kind, nodes[rest[i].target].data.config.value);
          assert MemoryAt(nodeId, edges, nodes, i + 1);
        }
      }
    }
  }

  method GetConnectedMemory(nodeId: string, edges: seq<BuilderEdge>, nodes: NodeMap) returns (memory: Option<RunnerMemory>)
    ensures memory == ConnectedMemory(nodeId, edges, nodes)
  {
    for i := 0 to |edges|
      invariant ConnectedMemory(nodeId, edges, nodes) == ConnectedMemory(nodeId, edges[i..], nodes)
    {
      var edge := edges[i];
      if edge.source == nodeId && MEMORY_PREFIX <= edge.sourceHandle && edge.target in nodes {
        if nodes[edge.target].data.config.Some? {
          return Some(RunnerMemory(nodes[edge.target].kind, nodes[edge.target].data.config.value));
        }
      }
      assert edges[i..][1..] == edges[i + 1..];
    }
    return None;
  }

  datatype AgentModel = AgentModel(provider: string, model: string, credentialId: string)

  function AgentModelOf(node: BuilderNode): Result<AgentModel, ConvertError> {
    if node.data.config.None? then Err(InvalidData)
    else
      var config := node.data.config.value;
      if node.kind != "model-openai" && node.kind != "model-anthropic" then Err(UnsupportedModel)
      else if TextOr(config, "model") == "" then Err(ModelRequired)
      else if !("credentialId" in config && config["credentialId"].JString?) then Err(CredentialIdRequired)
      else
        var provider := if node.kind == "model-openai" then "openai" else "anthropic";
        Ok(AgentModel(provider, TextOr(config, "model"), config["credentialId"].s))
  }

  function GetAgentModel(nodeId: string, edges: seq<BuilderEdge>, nodes: NodeMap): Result<AgentModel, ConvertError> {
    if edges == [] then Err(NoAgentModel)
    else if Attaches(nodeId, AI_TYPE_PREFIX, edges[0], nodes) then AgentModelOf(nodes[edges[0].target])
    else GetAgentModel(nodeId, edges[1..], nodes)
  }

  // ---------------------------------------------------------------- node processors

  predicate IsLlm(kind: string) {
    kind in {"chat-openai", "chat-anthropic", "chat-gemini", "chat-mistral", "chat-ollama"}
  }

  /** Other nodes exist only as what some node attaches. */
  predicate Processed(kind: string) {
    kind == "entrypoint" || kind == "result" || kind == "ai-agent" || IsLlm(kind) || kind == "code-executor"
  }

  function EntrypointOutputs(handles: seq<NodeHandle>): Outputs {
    if handles == [] then map[]
    else
      EntrypointOutputs(handles[..|handles| - 1])[handles[|handles| - 1].name := RunnerOutput(handles[|handles| - 1].kind, "")]
  }

  function Overwritten(own: Config, provider: string, model: string, key: string): Config {
    own["provider" := JString(provider)]["model" := JString(model)]["apiKey" := JString(key)]
  }

  function ModelConfig(vault: Vault, own: Config, m: AgentModel): Result<Config, ConvertError> {
    match vault.parse(m.credentialId)
    case None => Err(Panic)
    case Some(id) =>
      if id !in vault.keys then Err(CredentialNotFound) else Ok(Overwritten(own, m.provider, m.model, vault.keys[id]))
  }

  function AgentConfig(vault: Vault, node: BuilderNode, edges: seq<BuilderEdge>, nodes: NodeMap): Result<Config, ConvertError> {
    if node.data.config.None? then Err(InvalidData)
    else
      match GetAgentModel(node.id, edges, nodes)
      case Err(e) => Err(e)
      case Ok(m) => ModelConfig(vault, node.data.config.value, m)
  }

  function NodeConfig(vault: Vault, node: BuilderNode, edges: seq<BuilderEdge>, nodes: NodeMap): Result<Config, ConvertError> {
    if node.kind == "ai-agent" then AgentConfig(vault, node, edges, nodes)
    else if IsLlm(node.kind) then
      if node.data.config.None? then Err(InvalidData) else WithKey(vault, node.data.config.value)
    else if node.kind == "code-executor" then
      if node.data.code.None? then Err(InvalidData)
      else
        var d := node.data.code.value;
        Ok(map["code" := d.code, "expectedArguments" := d.inputs, "expectedOutputs" := d.outputs])
    else if node.data.handles.None? then Err(InvalidData)
    else Ok(map[])
  }

  /** The runner node, given the outputs computed for it. */
  function Assemble(node: BuilderNode, edges: seq<BuilderEdge>, config: Config, tools: seq<RunnerTool>,
                    memory: Option<RunnerMemory>, outputs: Outputs): RunnerNode
    requires node.kind == "entrypoint" || node.kind == "result" ==> node.data.handles.Some?
  {
    if node.kind == "entrypoint" then
      RunnerNode(node.kind, config, tools, memory, map[], EntrypointOutputs(node.data.handles.value))
    else if node.kind == "result" then
      RunnerNode(node.kind, config, tools, memory, ResultInputs(node.id, node.data.handles.value, edges), map[])
    else RunnerNode(node.kind, config, tools, memory, NodeInputs(node.id, edges), outputs)
  }

  function ConvertNode(vault: Vault, node: BuilderNode, edges: seq<BuilderEdge>, nodes: NodeMap, outputs: Outputs)
    : Result<RunnerNode, ConvertError>
  {
    match ConnectedTools(vault, node.id, edges, nodes)
    case Err(e) => Err(e)
    case Ok(tools) =>
      match NodeConfig(vault, node, edges, nodes)
      case Err(e) => Err(e)
      case Ok(config) =>
        assert node.kind == "entrypoint" || node.kind == "result" ==> node.data.handles.Some?;
        Ok(Assemble(node, edges, config, tools, ConnectedMemory(node.id, edges, nodes), outputs))
  }

  // ---------------------------------------------------------------- what a runner node carries

  /** `key` is the stored key of the credential that `text` names. */
  ghost predicate KeyFor(vault: Vault, text: string, key: string) {
    exists id :: vault.parse(text) == Some(id) && id in vault.keys && vault.keys[id] == key
  }

  /** `config` is `own`, with the key of its credential put in when it names one. */
  ghost predicate Credentialed(vault: Vault, own: Config, config: Config) {
    if "credentialId" !in own || own["credentialId"] == JNull then config == own
    else exists text, key ::
           own["credentialId"] == JString(text) && KeyFor(vault, text, key) && config == own["apiKey" := JString(key)]
  }

  lemma WithKeyIs(vault: Vault, own: Config)
    ensures forall config :: WithKey(vault, own) == Ok(config) <==> Credentialed(vault, own, config)
  {
    if HasCredential(own) && WithKey(vault, own).Ok? {
      var text := own["credentialId"].s;
      assert KeyFor(vault, text, vault.keys[vault.parse(text).value]);
    }
  }

  /** Edge `i` is the first from a handle of the given type of the node to a node of the drawing. */
  ghost predicate FirstAttached(nodeId: string, prefix: string, edges: seq<BuilderEdge>, nodes: NodeMap, i: int) {
    && 0 <= i < |edges|
    && edges[i].source == nodeId && prefix <= edges[i].sourceHandle && edges[i].target in nodes
    && forall j :: 0 <= j < i && edges[j].source == nodeId && prefix <= edges[j].sourceHandle ==> edges[j].target !in nodes
  }

  /** The model node has this provider and model, and names a credential with this key. */
  ghost predicate Supplies(vault: Vault, model: BuilderNode, provider: string, text: string, key: string) {
    && model.data.config.Some? && model.kind in {"model-openai", "model-anthropic"}
    && provider == (if model.kind == "model-openai" then "openai" else "anthropic")
    && text != "" && HasText(model.data.config.value, "model", text)
    && exists id :: HasText(model.data.config.value, "credentialId", id) && KeyFor(vault, id, key)
  }

  /** `config` is `own` with provider, model and key written over it and everything else unchanged. */
  ghost predicate IsOverwritten(own: Config, provider: string, model: string, key: string, config: Config) {
    && config.Keys == own.Keys + {"provider", "model", "apiKey"}
    && config["provider"] == JString(provider) && config["model"] == JString(model) && config["apiKey"] == JString(key)
    && forall k :: k in own && k !in {"provider", "model", "apiKey"} ==> config[k] == own[k]
  }

  ghost predicate Modelled(vault: Vault, own: Config, model: BuilderNode, config: Config) {
    exists provider, text, key ::
      Supplies(vault, model, provider, text, key) && IsOverwritten(own, provider, text, key, config)
  }

  ghost predicate HasText(config: Config, field: string, text: string) {
    field in config && config[field] == JString(text)
  }

  /** The configuration a node is compiled to. */
  ghost predicate IsConfig(vault: Vault, node: BuilderNode, edges: seq<BuilderEdge>, nodes: NodeMap, config: Config) {
    if node.kind == "ai-agent" then
      && node.data.config.Some?
      && exists i :: FirstAttached(node.id, "ai-model__", edges, nodes, i) &&
                     Modelled(vault, node.data.config.value, nodes[edges[i].target], config)
    else if node.kind in {"chat-openai", "chat-anthropic", "chat-gemini", "chat-mistral", "chat-ollama"} then
      node.data.config.Some? && Credentialed(vault, node.data.config.value, config)
    else if node.kind == "code-executor" then
      && node.data.code.Some?
      && config.Keys == {"code", "expectedArguments", "expectedOutputs"}
      && config["code"] == node.data.code.value.code
      && config["expectedArguments"] == node.data.code.value.inputs
      && config["expectedOutputs"] == node.data.code.value.outputs
    else node.data.handles.Some? && config == map[]
  }

  lemma {:induction false} AgentModelIs(nodeId: string, edges: seq<BuilderEdge>, nodes: NodeMap)
    ensures forall i :: FirstAttached(nodeId, "ai-model__", edges, nodes, i) ==>
              GetAgentModel(nodeId, edges, nodes) == AgentModelOf(nodes[edges[i].target])
    ensures (forall i :: !FirstAttached(nodeId, "ai-model__", edges, nodes, i)) ==>
              GetAgentModel(nodeId, edges, nodes) == Err(NoAgentModel)
  {
    if edges != [] {
      if Attaches(nodeId, AI_TYPE_PREFIX, edges[0], nodes) {
        assert FirstAttached(nodeId, "ai-model__", edges, nodes, 0);
      } else {
        var rest := edges[1..];
        AgentModelIs(nodeId, rest, nodes);
        forall i ensures FirstAttached(nodeId, "ai-model__", edges, nodes, i) <==>
                         i > 0 && FirstAttached(nodeId, "ai-model__", rest, nodes, i - 1)
        {
          FirstOfRest(nodeId, "ai-model__", edges, nodes, i);
        }
        assert forall i :: FirstAttached(nodeId, "ai-model__", rest, nodes, i) ==>
          FirstAttached(nodeId, "ai-model__", edges, nodes, i + 1);
      }
    }
  }

  lemma FirstOfRest(nodeId: string, prefix: string, edges: seq<BuilderEdge>, nodes: NodeMap, i: int)
    requires edges != [] && !Attaches(nodeId, prefix, edges[0], nodes)
    ensures FirstAttached(nodeId, prefix, edges, nodes, i) <==> i > 0 && FirstAttached(nodeId, prefix, edges[1..], nodes, i - 1)
  {
    var rest := edges[1..];
    if FirstAttached(nodeId, prefix, edges, nodes, i) {
      assert forall j :: 0 <= j < i - 1 ==> rest[j] == edges[j + 1];
    }
    if i > 0 && FirstAttached(nodeId, prefix, rest, nodes, i - 1) {
      assert forall j :: 0 < j < i ==> edges[j] == rest[j - 1];
    }
  }

  lemma OverwrittenIs(own: Config, provider: string, model: string, key: string, config: Config)
    ensures config == Overwritten(own, provider, model, key) <==> IsOverwritten(own, provider, model, key, config)
  {
    assert |"provider"| == 8 && |"model"| == 5 && |"apiKey"| == 6;
    assert Overwritten(own, provider, model, key).Keys == own.Keys + {"provider", "model", "apiKey"};
  }

  lemma SuppliesIff(vault: Vault, model: BuilderNode, provider: string, text: string, key: string)
    ensures Supplies(vault, model, provider, text, key) <==>
              && AgentModelOf(model).Ok?
              && AgentModelOf(model).value.provider == provider && AgentModelOf(model).value.model == text
              && KeyFor(vault, AgentModelOf(model).value.credentialId, key)
  {
    if AgentModelOf(model).Ok? {
      assert HasText(model.data.config.value, "credentialId", AgentModelOf(model).value.credentialId);
    }
  }

  ghost predicate ConfiguredBy(vault: Vault, own: Config, model: BuilderNode, config: Config) {
    AgentModelOf(model).Ok? && ModelConfig(vault, own, AgentModelOf(model).value) == Ok(config)
  }

  lemma ModelConfigIs(vault: Vault, own: Config, model: BuilderNode, config: Config)
    ensures ConfiguredBy(vault, own, model, config) <==> Modelled(vault, own, model, config)
  {
    if ConfiguredBy(vault, own, model, config) {
      var m := AgentModelOf(model).value;
      var key := vault.keys[vault.parse(m.credentialId).value];
      assert KeyFor(vault, m.credentialId, key);
      SuppliesIff(vault, model, m.provider, m.model, key);
      OverwrittenIs(own, m.provider, m.model, key, config);
    }
    forall provider, text, key | Supplies(vault, model, provider, text, key) && IsOverwritten(own, provider, text, key, config)
      ensures ConfiguredBy(vault, own, model, config)
    {
      SuppliesIff(vault, model, provider, text, key);
      OverwrittenIs(own, provider, text, key, config);
    }
  }

  lemma AgentConfigIs(vault: Vault, node: BuilderNode, edges: seq<BuilderEdge>, nodes: NodeMap, config: Config)
    requires node.data.config.Some?
    ensures AgentConfig(vault, node, edges, nodes) == Ok(config) <==>
              exists i :: FirstAttached(node.id, "ai-model__", edges, nodes, i) &&
                          Modelled(vault, node.data.config.value, nodes[edges[i].target], config)
  {
    AgentModelIs(node.id, edges, nodes);
    forall i | FirstAttached(node.id, "ai-model__", edges, nodes, i)
      ensures AgentConfig(vault, node, edges, nodes) == Ok(config) <==>
                Modelled(vault, node.data.config.value, nodes[edges[i].target], config)
    {
      ModelConfigIs(vault, node.data.config.value, nodes[edges[i].target], config);
    }
  }

  lemma CodeConfigIs(d: CodeData, config: Config)
    ensures config == map["code" := d.code, "expectedArguments" := d.inputs, "expectedOutputs" := d.outputs] <==>
              && config.Keys == {"code", "expectedArguments", "expectedOutputs"}
              && config["code"] == d.code && config["expectedArguments"] == d.inputs && config["expectedOutputs"] == d.outputs
  {
    assert |"code"| == 4 && |"expectedArguments"| == 17 && |"expectedOutputs"| == 15;
    var c := map["code" := d.code, "expectedArguments" := d.inputs, "expectedOutputs" := d.outputs];
    assert c.Keys == {"code", "expectedArguments", "expectedOutputs"};
  }

  /** A node has a configuration exactly when one is described, and it is that one. */
  lemma NodeConfigIs(vault: Vault, node: BuilderNode, edges: seq<BuilderEdge>, nodes: NodeMap, config: Config)
    ensures NodeConfig(vault, node, edges, nodes) == Ok(config) <==> IsConfig(vault, node, edges, nodes, config)
  {
    if node.kind == "ai-agent" {
      if node.data.config.Some? { AgentConfigIs(vault, node, edges, nodes, config); }
    } else if IsLlm(node.kind) {
      if node.data.config.Some? { WithKeyIs(vault, node.data.config.value); }
    } else if node.kind == "code-executor" && node.data.code.Some? {
      CodeConfigIs(node.data.code.value, config);
    }
  }

  /** Edge `i` attaches a tool to the node. */
  ghost predicate ToolAt(nodeId: string, edges: seq<BuilderEdge>, nodes: NodeMap, i: int) {
    && 0 <= i < |edges|
    && edges[i].source == nodeId && "tools__" <= edges[i].sourceHandle && edges[i].target in nodes
    && nodes[edges[i].target].data.config.Some?
  }

  /** `at` lists the edges that attach a tool, in order. */
  ghost predicate ToolsAt(nodeId: string, edges: seq<BuilderEdge>, nodes: NodeMap, at: seq<int>) {
    && (forall k, l :: 0 <= k < l < |at| ==> at[k] < at[l])
    && forall i :: i in at <==> ToolAt(nodeId, edges, nodes, i)
  }

  /** The text of a property, and nothing when it is missing or no text. */
  ghost predicate ReadsText(config: Config, field: string, text: string) {
    if exists t :: HasText(config, field, t) then HasText(config, field, text) else text == ""
  }

  ghost predicate IsTool(vault: Vault, node: BuilderNode, tool: RunnerTool) {
    && node.data.config.Some?
    && tool.id == node.id && tool.kind == node.kind && Credentialed(vault, node.data.config.value, tool.config)
    && ReadsText(node.data.config.value, "name", tool.name)
    && ReadsText(node.data.config.value, "description", tool.description)
  }

  /** Tool `k` is what edge `at[k]` leads to. */
  ghost predicate IsTools(vault: Vault, nodeId: string, edges: seq<BuilderEdge>, nodes: NodeMap,
                          tools: seq<RunnerTool>, at: seq<int>) {
    && ToolsAt(nodeId, edges, nodes, at) && |at| == |tools|
    && forall k :: 0 <= k < |at| ==>
         ToolAt(nodeId, edges, nodes, at[k]) && IsTool(vault, nodes[edges[at[k]].target], tools[k])
  }

  ghost predicate HasTools(vault: Vault, nodeId: string, edges: seq<BuilderEdge>, nodes: NodeMap, tools: seq<RunnerTool>) {
    exists at :: IsTools(vault, nodeId, edges, nodes, tools, at)
  }

  lemma TextIs(own: Config, key: string, field: string)
    requires field != "apiKey"
    ensures ReadsText(own, field, TextOr(own, field)) && TextOr(own["apiKey" := JString(key)], field) == TextOr(own, field)
  {
    if field in own && own[field].JString? { assert HasText(own, field, own[field].s); }
  }

  lemma ToolIs(vault: Vault, node: BuilderNode)
    requires node.data.config.Some? && ToolOf(vault, node).Ok?
    ensures IsTool(vault, node, ToolOf(vault, node).value)
  {
    var own, config := node.data.config.value, ToolOf(vault, node).value.config;
    WithKeyIs(vault, own);
    assert Credentialed(vault, own, config);
    assert |"name"| == 4 && |"description"| == 11 && |"apiKey"| == 6;
    var key := if "apiKey" in config && config["apiKey"].JString? then config["apiKey"].s else "";
    TextIs(own, key, "name");
    TextIs(own, key, "description");
  }

  lemma ToolsNext(vault: Vault, nodeId: string, edges: seq<BuilderEdge>, nodes: NodeMap, e: BuilderEdge,
                  tools: seq<RunnerTool>, at: seq<int>, tool: RunnerTool)
    requires IsTools(vault, nodeId, edges, nodes, tools, at)
    ensures !ToolEdge(nodeId, e, nodes) ==> IsTools(vault, nodeId, edges + [e], nodes, tools, at)
    ensures ToolEdge(nodeId, e, nodes) && IsTool(vault, nodes[e.target], tool) ==>
              IsTools(vault, nodeId, edges + [e], nodes, tools + [tool], at + [|edges|])
  {
    assert forall i :: i != |edges| ==> (ToolAt(nodeId, edges + [e], nodes, i) <==> ToolAt(nodeId, edges, nodes, i));
    assert ToolAt(nodeId, edges + [e], nodes, |edges|) <==> ToolEdge(nodeId, e, nodes);
    assert forall k :: 0 <= k < |at| ==> at[k] in at;
  }

  /** The tools are those of all attaching edges, in order, each with its own text and key. */
  lemma {:induction false} ToolsAre(vault: Vault, nodeId: string, edges: seq<BuilderEdge>, nodes: NodeMap) returns (at: seq<int>)
    requires ConnectedTools(vault, nodeId, edges, nodes).Ok?
    ensures IsTools(vault, nodeId, edges, nodes, ConnectedTools(vault, nodeId, edges, nodes).value, at)
  {
    at := [];
    if edges != [] {
      var front, e := edges[..|edges| - 1], edges[|edges| - 1];
      at := ToolsAre(vault, nodeId, front, nodes);
      assert front + [e] == edges;
      var tools := ConnectedTools(vault, nodeId, front, nodes).value;
      if ToolEdge(nodeId, e, nodes) {
        ToolIs(vault, nodes[e.target]);
        ToolsNext(vault, nodeId, front, nodes, e, tools, at, ToolOf(vault, nodes[e.target]).value);
        at := at + [|front|];
      } else {
        ToolsNext(vault, nodeId, front, nodes, e, tools, at, RunnerTool("", "", "", "", map[]));
      }
    }
  }

  /** Handle `i` is the last with this label. */
  ghost predicate LastLabelled(handles: seq<NodeHandle>, name: string, i: int) {
    0 <= i < |handles| && handles[i].name == name && forall j :: i < j < |handles| ==> handles[j].name != name
  }

  /** `output` is that of the last handle with this label, and absent without one. */
  ghost predicate IsOutput(handles: seq<NodeHandle>, name: string, outputs: Outputs) {
    && (name in outputs <==> exists i :: LastLabelled(handles, name, i))
    && forall i :: LastLabelled(handles, name, i) ==> name in outputs && outputs[name] == RunnerOutput(handles[i].kind, "")
  }

  lemma {:induction false} EntrypointOutputIs(handles: seq<NodeHandle>, name: string)
    ensures IsOutput(handles, name, EntrypointOutputs(handles))
  {
    if handles != [] {
      var front, k := handles[..|handles| - 1], |handles| - 1;
      EntrypointOutputIs(front, name);
      if handles[k].name == name {
        assert LastLabelled(handles, name, k);
      } else {
        assert forall i :: LastLabelled(handles, name, i) ==> LastLabelled(front, name, i);
        assert forall i :: LastLabelled(front, name, i) ==> LastLabelled(handles, name, i);
      }
    }
  }

  /** What a runner node says of the node it was compiled from. */
  ghost predicate IsTranslation(vault: Vault, node: BuilderNode, edges: seq<BuilderEdge>, nodes: NodeMap, r: RunnerNode) {
    && r.kind == node.kind
    && IsConfig(vault, node, edges, nodes, r.config)
    && HasTools(vault, node.id, edges, nodes, r.tools)
    && IsMemory(node.id, edges, nodes, r.memory)
    && (node.kind == "entrypoint" ==>
          node.data.handles.Some? && r.inputs == map[] && forall name :: IsOutput(node.data.handles.value, name, r.outputs))
    && (node.kind == "result" ==>
          && node.data.handles.Some?
          && ResultInputsDrawn(node.id, node.data.handles.value, edges, r.inputs) && r.outputs == map[])
    && (node.kind !in {"entrypoint", "result"} ==>
          InputsDrawn(node.id, edges, r.inputs) && OutputsDrawn(node.id, edges, nodes, r.outputs))
  }

  lemma TranslationIs(vault: Vault, node: BuilderNode, edges: seq<BuilderEdge>, nodes: NodeMap, r: RunnerNode)
    requires Translates(vault, node, edges, nodes, r)
    ensures IsTranslation(vault, node, edges, nodes, r)
  {
    NodeConfigIs(vault, node, edges, nodes, r.config);
    FirstMemoryIsFirst(node.id, edges, nodes);
    var at := ToolsAre(vault, node.id, edges, nodes);
    assert |"entrypoint"| == 10 && |"result"| == 6;
    if node.kind == "entrypoint" {
      forall name ensures IsOutput(node.data.handles.value, name, r.outputs) {
        EntrypointOutputIs(node.data.handles.value, name);
      }
    } else if node.kind == "result" {
      ResultInputsAreDrawn(node.id, node.data.handles.value, edges);
    } else {
      InputsAreDrawn(node.id, edges);
      OutputsAreDrawn(node.id, edges, nodes, r.outputs);
    }
  }

  predicate Convertible(vault: Vault, node: BuilderNode, edges: seq<BuilderEdge>, nodes: NodeMap) {
    ConnectedTools(vault, node.id, edges, nodes).Ok? && NodeConfig(vault, node, edges, nodes).Ok?
  }

  ghost predicate Keyed(vault: Vault, own: Config) {
    exists config :: Credentialed(vault, own, config)
  }

  /** Every key the node needs is there, and its own data decodes. */
  ghost predicate Describable(vault: Vault, node: BuilderNode, edges: seq<BuilderEdge>, nodes: NodeMap) {
    && (forall i :: ToolAt(node.id, edges, nodes, i) ==> Keyed(vault, nodes[edges[i].target].data.config.value))
    && exists config :: IsConfig(vault, node, edges, nodes, config)
  }

  lemma {:induction false} ToolsConvertIff(vault: Vault, nodeId: string, edges: seq<BuilderEdge>, nodes: NodeMap)
    ensures ConnectedTools(vault, nodeId, edges, nodes).Ok? <==>
              forall i :: ToolAt(nodeId, edges, nodes, i) ==> WithKey(vault, nodes[edges[i].target].data.config.value).Ok?
  {
    if edges != [] {
      var front, k := edges[..|edges| - 1], |edges| - 1;
      ToolsConvertIff(vault, nodeId, front, nodes);
      assert forall i :: i != k ==> (ToolAt(nodeId, edges, nodes, i) <==> ToolAt(nodeId, front, nodes, i));
      assert ToolAt(nodeId, edges, nodes, k) <==> ToolEdge(nodeId, edges[k], nodes);
    }
  }

  lemma KeyIff(vault: Vault, own: Config)
    ensures WithKey(vault, own).Ok? <==> Keyed(vault, own)
  {
    WithKeyIs(vault, own);
    if WithKey(vault, own).Ok? { assert Credentialed(vault, own, WithKey(vault, own).value); }
  }

  /** A node converts exactly when its credentials are stored, its data decodes and an agent has a usable model. */
  lemma ConvertibleIff(vault: Vault, node: BuilderNode, edges: seq<BuilderEdge>, nodes: NodeMap)
    ensures Convertible(vault, node, edges, nodes) <==> Describable(vault, node, edges, nodes)
  {
    ToolsConvertIff(vault, node.id, edges, nodes);
    forall i | ToolAt(node.id, edges, nodes, i)
      ensures WithKey(vault, nodes[edges[i].target].data.config.value).Ok? <==>
                Keyed(vault, nodes[edges[i].target].data.config.value)
    {
      KeyIff(vault, nodes[edges[i].target].data.config.value);
    }
    forall config ensures NodeConfig(vault, node, edges, nodes) == Ok(config) <==> IsConfig(vault, node, edges, nodes, config) {
      NodeConfigIs(vault, node, edges, nodes, config);
    }
    if NodeConfig(vault, node, edges, nodes).Ok? {
      assert IsConfig(vault, node, edges, nodes, NodeConfig(vault, node, edges, nodes).value);
    }
  }

  ghost predicate Translates(vault: Vault, node: BuilderNode, edges: seq<BuilderEdge>, nodes: NodeMap, r: RunnerNode) {
    exists outputs :: Possible(node.id, edges, nodes, outputs) && ConvertNode(vault, node, edges, nodes, outputs) == Ok(r)
  }

  predicate Listed(flow: BuilderFlow, id: string, i: int) {
    0 <= i < |flow.nodes| && Processed(flow.nodes[i].kind) && flow.nodes[i].id == id
  }

  /** Of the processed nodes listed under one id, the last one stays. */
  ghost predicate LastListed(flow: BuilderFlow, id: string, i: int) {
    Listed(flow, id, i) && forall j :: i < j ==> !Listed(flow, id, j)
  }

  ghost predicate HasListed(flow: BuilderFlow, id: string) {
    exists i :: LastListed(flow, id, i)
  }

  /** `r` is a possible result of converting the drawn workflow with these credentials. */
  ghost predicate Converts(vault: Vault, flow: BuilderFlow, r: RunnerFlow) {
    var nodes := NodesById(flow.nodes);
    && (forall i :: 0 <= i < |flow.nodes| && Processed(flow.nodes[i].kind) ==>
          Convertible(vault, flow.nodes[i], flow.edges, nodes))
    && (forall id :: id in r <==> HasListed(flow, id))
    && (forall id, i :: LastListed(flow, id, i) ==> Translates(vault, flow.nodes[i], flow.edges, nodes, r[id]))
  }

  // ---------------------------------------------------------------- why a node does not convert

  /** Property `own["credentialId"]` is set and fails: it is no text, no id, or the id of no credential. */
  ghost predicate KeyError(vault: Vault, own: Config, e: ConvertError) {
    && "credentialId" in own && own["credentialId"] != JNull
    && match own["credentialId"]
       case JString(text) =>
         if vault.parse(text) == None then e == InvalidCredentialId
         else vault.parse(text).value !in vault.keys && e == CredentialNotFound
       case _ => e == Panic
  }

  lemma KeyErrorIs(vault: Vault, own: Config)
    ensures forall e :: WithKey(vault, own) == Err(e) <==> KeyError(vault, own, e)
  {}

  ghost predicate ModelError(vault: Vault, model: BuilderNode, e: ConvertError) {
    if model.data.config.None? then e == InvalidData
    else if model.kind !in {"model-openai", "model-anthropic"} then e == UnsupportedModel
    else if forall text :: HasText(model.data.config.value, "model", text) ==> text == "" then e == ModelRequired
    else if forall text :: !HasText(model.data.config.value, "credentialId", text) then e == CredentialIdRequired
    else exists text ::
           && HasText(model.data.config.value, "credentialId", text)
           && if vault.parse(text) == None then e == Panic
              else vault.parse(text).value !in vault.keys && e == CredentialNotFound
  }

  /** The node's own data does not decode, or its credential or model fails. */
  ghost predicate ConfigError(vault: Vault, node: BuilderNode, edges: seq<BuilderEdge>, nodes: NodeMap, e: ConvertError) {
    if node.kind == "ai-agent" && node.data.config.Some? then
      if forall i :: !FirstAttached(node.id, "ai-model__", edges, nodes, i) then e == NoAgentModel
      else exists i :: FirstAttached(node.id, "ai-model__", edges, nodes, i) && ModelError(vault, nodes[edges[i].target], e)
    else if IsLlm(node.kind) && node.data.config.Some? then KeyError(vault, node.data.config.value, e)
    else e == InvalidData
  }

  lemma TextIff(config: Config, field: string)
    ensures forall text :: HasText(config, field, text) <==> field in config && config[field].JString? && config[field].s == text
    ensures (forall text :: !HasText(config, field, text)) <==> !(field in config && config[field].JString?)
    ensures (forall text :: HasText(config, field, text) ==> text == "") <==> TextOr(config, field) == ""
  {
    if field in config && config[field].JString? { assert HasText(config, field, config[field].s); }
  }

  lemma ModelErrorIs(vault: Vault, own: Config, model: BuilderNode, e: ConvertError)
    ensures ModelError(vault, model, e) <==>
              if AgentModelOf(model).Err? then AgentModelOf(model) == Err(e)
              else ModelConfig(vault, own, AgentModelOf(model).value) == Err(e)
  {
    if model.data.config.Some? {
      var config := model.data.config.value;
      TextIff(config, "model");
      TextIff(config, "credentialId");
      if AgentModelOf(model).Ok? { assert HasText(config, "credentialId", AgentModelOf(model).value.credentialId); }
    }
  }

  lemma ConfigErrorIs(vault: Vault, node: BuilderNode, edges: seq<BuilderEdge>, nodes: NodeMap)
    requires NodeConfig(vault, node, edges, nodes).Err?
    ensures ConfigError(vault, node, edges, nodes, NodeConfig(vault, node, edges, nodes).error)
  {
    var e := NodeConfig(vault, node, edges, nodes).error;
    if node.kind == "ai-agent" && node.data.config.Some? {
      AgentModelIs(node.id, edges, nodes);
      forall i | FirstAttached(node.id, "ai-model__", edges, nodes, i) ensures ModelError(vault, nodes[edges[i].target], e) {
        ModelErrorIs(vault, node.data.config.value, nodes[edges[i].target], e);
      }
    } else if IsLlm(node.kind) && node.data.config.Some? {
      KeyErrorIs(vault, node.data.config.value);
    }
  }

  /** The tool at edge `i` is the first whose credential fails. */
  ghost predicate FirstToolError(vault: Vault, nodeId: string, edges: seq<BuilderEdge>, nodes: NodeMap, i: int, e: ConvertError) {
    && ToolAt(nodeId, edges, nodes, i) && KeyError(vault, nodes[edges[i].target].data.config.value, e)
    && forall j, f :: 0 <= j < i && ToolAt(nodeId, edges, nodes, j) ==>
         !KeyError(vault, nodes[edges[j].target].data.config.value, f)
  }

  lemma {:induction false} ToolErrorIsFirst(vault: Vault, nodeId: string, edges: seq<BuilderEdge>, nodes: NodeMap)
    requires ConnectedTools(vault, nodeId, edges, nodes).Err?
    ensures exists i :: FirstToolError(vault, nodeId, edges, nodes, i, ConnectedTools(vault, nodeId, edges, nodes).error)
  {
    var front, k := edges[..|edges| - 1], |edges| - 1;
    var e := ConnectedTools(vault, nodeId, edges, nodes).error;
    assert forall i :: i != k ==> (ToolAt(nodeId, edges, nodes, i) <==> ToolAt(nodeId, front, nodes, i));
    if ConnectedTools(vault, nodeId, front, nodes).Err? {
      ToolErrorIsFirst(vault, nodeId, front, nodes);
      var i :| FirstToolError(vault, nodeId, front, nodes, i, e);
      assert FirstToolError(vault, nodeId, edges, nodes, i, e);
    } else {
      ToolsConvertIff(vault, nodeId, front, nodes);
      forall j, f | 0 <= j < k && ToolAt(nodeId, edges, nodes, j)
        ensures !KeyError(vault, nodes[edges[j].target].data.config.value, f)
      {
        assert ToolAt(nodeId, front, nodes, j);
        KeyErrorIs(vault, nodes[edges[j].target].data.config.value);
      }
      KeyErrorIs(vault, nodes[edges[k].target].data.config.value);
      assert FirstToolError(vault, nodeId, edges, nodes, k, e);
    }
  }

  /** The first failing tool decides, and then the node's own configuration. */
  ghost predicate IsError(vault: Vault, node: BuilderNode, edges: seq<BuilderEdge>, nodes: NodeMap, e: ConvertError) {
    if forall i :: ToolAt(node.id, edges, nodes, i) ==> Keyed(vault, nodes[edges[i].target].data.config.value) then
      ConfigError(vault, node, edges, nodes, e)
    else exists i :: FirstToolError(vault, node.id, edges, nodes, i, e)
  }

  lemma ErrorIs(vault: Vault, node: BuilderNode, edges: seq<BuilderEdge>, nodes: NodeMap, e: ConvertError)
    requires FailsWith(vault, node, edges, nodes, e)
    ensures IsError(vault, node, edges, nodes, e)
  {
    assert ConvertNode(vault, node, edges, nodes, map[]) == Err(e);
    ToolsConvertIff(vault, node.id, edges, nodes);
    forall i | ToolAt(node.id, edges, nodes, i)
      ensures WithKey(vault, nodes[edges[i].target].data.config.value).Ok? <==>
                Keyed(vault, nodes[edges[i].target].data.config.value)
    {
      KeyIff(vault, nodes[edges[i].target].data.config.value);
    }
    if ConnectedTools(vault, node.id, edges, nodes).Err? {
      ToolErrorIsFirst(vault, node.id, edges, nodes);
    } else {
      ConfigErrorIs(vault, node, edges, nodes);
    }
  }

  /** The nodes that are compiled at all. */
  ghost predicate IsCompilable(flow: BuilderFlow, id: string, i: int) {
    && 0 <= i < |flow.nodes| && flow.nodes[i].id == id
    && flow.nodes[i].kind in {"entrypoint", "result", "ai-agent", "code-executor",
                              "chat-openai", "chat-anthropic", "chat-gemini", "chat-mistral", "chat-ollama"}
  }

  ghost predicate LastCompilable(flow: BuilderFlow, id: string, i: int) {
    IsCompilable(flow, id, i) && forall j :: i < j ==> !IsCompilable(flow, id, j)
  }

  /** The last compilable node listed under an id is translated, and there is nothing else in the runner flow. */
  ghost predicate IsCompiled(vault: Vault, flow: BuilderFlow, r: RunnerFlow) {
    && (forall id :: id in r <==> exists i :: IsCompilable(flow, id, i))
    && forall id, i :: LastCompilable(flow, id, i) ==>
         id in r && IsTranslation(vault, flow.nodes[i], flow.edges, NodesById(flow.nodes), r[id])
  }

  lemma SomeLast(flow: BuilderFlow, id: string, i: int)
    requires Listed(flow, id, i)
    ensures HasListed(flow, id)
    decreases |flow.nodes| - i
  {
    if j :| i < j && Listed(flow, id, j) {
      SomeLast(flow, id, j);
    } else {
      assert LastListed(flow, id, i);
    }
  }

  lemma CompilableIff(flow: BuilderFlow, id: string, i: int)
    ensures IsCompilable(flow, id, i) <==> Listed(flow, id, i)
  {}

  lemma CompilableListed(flow: BuilderFlow, id: string)
    ensures (exists i :: IsCompilable(flow, id, i)) <==> HasListed(flow, id)
    ensures forall i :: LastCompilable(flow, id, i) <==> LastListed(flow, id, i)
  {
    forall i ensures IsCompilable(flow, id, i) <==> Listed(flow, id, i) { CompilableIff(flow, id, i); }
    if i :| Listed(flow, id, i) { SomeLast(flow, id, i); }
  }

  lemma CompiledIs(vault: Vault, flow: BuilderFlow, r: RunnerFlow)
    requires Converts(vault, flow, r)
    ensures IsCompiled(vault, flow, r)
  {
    forall id ensures id in r <==> exists i :: IsCompilable(flow, id, i) { CompilableListed(flow, id); }
    forall id, i | LastCompilable(flow, id, i)
      ensures id in r && IsTranslation(vault, flow.nodes[i], flow.edges, NodesById(flow.nodes), r[id])
    {
      CompilableListed(flow, id);
      assert HasListed(flow, id);
      TranslationIs(vault, flow.nodes[i], flow.edges, NodesById(flow.nodes), r[id]);
    }
  }

  method ProcessNode(vault: Vault, node: BuilderNode, edges: seq<BuilderEdge>, nodes: NodeMap)
    returns (r: Result<RunnerNode, ConvertError>)
    requires Processed(node.kind)
    ensures r.Ok? ==> Translates(vault, node, edges, nodes, r.value) && IsTranslation(vault, node, edges, nodes, r.value)
    ensures r.Ok? <==> Convertible(vault, node, edges, nodes)
    ensures r.Ok? <==> Describable(vault, node, edges, nodes)
    ensures r.Err? ==> FailsWith(vault, node, edges, nodes, r.error) && IsError(vault, node, edges, nodes, r.error)
  {
    ConvertibleIff(vault, node, edges, nodes);
    var tools := GetConnectedTools(vault, node.id, edges, nodes);
    if tools.Err? {
      ErrorIs(vault, node, edges, nodes, tools.error);
      return Err(tools.error);
    }
    var memory := GetConnectedMemory(node.id, edges, nodes);
    var config := NodeConfig(vault, node, edges, nodes);
    if config.Err? {
      ErrorIs(vault, node, edges, nodes, config.error);
      return Err(config.error);
    }
    var outputs := BuildNodeOutputs(node.id, edges, nodes);
    if node.kind == "entrypoint" {
      r := Ok(RunnerNode(node.kind, config.value, tools.value, memory, map[], EntrypointOutputs(node.data.handles.value)));
    } else if node.kind == "result" {
      var inputs := BuildResultInputs(node.id, node.data.handles.value, edges);
      r := Ok(RunnerNode(node.kind, config.value, tools.value, memory, inputs, map[]));
    } else {
      var inputs := BuildNodeInputs(node.id, edges);
      r := Ok(RunnerNode(node.kind, config.value, tools.value, memory, inputs, outputs));
    }
    assert ConvertNode(vault, node, edges, nodes, outputs) == r;
    TranslationIs(vault, node, edges, nodes, r.value);
  }

  function Part(flow: BuilderFlow, k: nat): BuilderFlow
    requires k <= |flow.nodes|
  {
    BuilderFlow(flow.nodes[..k], flow.edges)
  }

  ghost predicate ConvertsUpTo(vault: Vault, flow: BuilderFlow, k: nat, r: RunnerFlow)
    requires k <= |flow.nodes|
  {
    var nodes := NodesById(flow.nodes);
    && (forall i :: 0 <= i < k && Processed(flow.nodes[i].kind) ==> Convertible(vault, flow.nodes[i], flow.edges, nodes))
    && (forall id :: id in r <==> HasListed(Part(flow, k), id))
    && (forall id, i :: LastListed(Part(flow, k), id, i) ==> Translates(vault, flow.nodes[i], flow.edges, nodes, r[id]))
  }

  lemma ListNext(flow: BuilderFlow, k: nat, id: string, i: int)
    requires k < |flow.nodes|
    ensures LastListed(Part(flow, k + 1), id, i) <==>
              if Listed(flow, id, k) then i == k else LastListed(Part(flow, k), id, i)
  {
    var part, next := Part(flow, k), Part(flow, k + 1);
    assert forall j :: j != k ==> (Listed(next, id, j) <==> Listed(part, id, j));
    assert Listed(next, id, k) <==> Listed(flow, id, k);
    assert !Listed(part, id, k);
  }

  lemma HasNext(flow: BuilderFlow, k: nat, id: string)
    requires k < |flow.nodes|
    ensures HasListed(Part(flow, k + 1), id) <==> Listed(flow, id, k) || HasListed(Part(flow, k), id)
  {
    if Listed(flow, id, k) {
      ListNext(flow, k, id, k);
    } else if HasListed(Part(flow, k), id) {
      var i :| LastListed(Part(flow, k), id, i);
      ListNext(flow, k, id, i);
    } else if HasListed(Part(flow, k + 1), id) {
      var i :| LastListed(Part(flow, k + 1), id, i);
      ListNext(flow, k, id, i);
    }
  }

  lemma SkipNode(vault: Vault, flow: BuilderFlow, k: nat, r: RunnerFlow)
    requires k < |flow.nodes| && ConvertsUpTo(vault, flow, k, r) && !Processed(flow.nodes[k].kind)
    ensures ConvertsUpTo(vault, flow, k + 1, r)
  {
    forall id ensures id in r <==> HasListed(Part(flow, k + 1), id) { HasNext(flow, k, id); }
    forall id, i | LastListed(Part(flow, k + 1), id, i)
      ensures id in r && Translates(vault, flow.nodes[i], flow.edges, NodesById(flow.nodes), r[id])
    {
      ListNext(flow, k, id, i);
    }
  }

  lemma AddNode(vault: Vault, flow: BuilderFlow, k: nat, r: RunnerFlow, node: RunnerNode)
    requires k < |flow.nodes| && ConvertsUpTo(vault, flow, k, r) && Processed(flow.nodes[k].kind)
    requires Convertible(vault, flow.nodes[k], flow.edges, NodesById(flow.nodes))
    requires Translates(vault, flow.nodes[k], flow.edges, NodesById(flow.nodes), node)
    ensures ConvertsUpTo(vault, flow, k + 1, r[flow.nodes[k].id := node])
  {
    var r' := r[flow.nodes[k].id := node];
    forall id ensures id in r' <==> HasListed(Part(flow, k + 1), id) { HasNext(flow, k, id); }
    forall id, i | LastListed(Part(flow, k + 1), id, i)
      ensures id in r' && Translates(vault, flow.nodes[i], flow.edges, NodesById(flow.nodes), r'[id])
    {
      ListNext(flow, k, id, i);
    }
  }

  ghost predicate FailsWith(vault: Vault, node: BuilderNode, edges: seq<BuilderEdge>, nodes: NodeMap, error: ConvertError) {
    forall outputs :: ConvertNode(vault, node, edges, nodes, outputs) == Err(error)
  }

  /** Node `i` is the first in the list that does not convert, and `error` is why. */
  ghost predicate FirstFailure(vault: Vault, flow: BuilderFlow, i: int, error: ConvertError) {
    var nodes := NodesById(flow.nodes);
    && 0 <= i < |flow.nodes| && Processed(flow.nodes[i].kind) && !Convertible(vault, flow.nodes[i], flow.edges, nodes)
    && (forall j :: 0 <= j < i && Processed(flow.nodes[j].kind) ==> Convertible(vault, flow.nodes[j], flow.edges, nodes))
    && FailsWith(vault, flow.nodes[i], flow.edges, nodes, error)
    && IsError(vault, flow.nodes[i], flow.edges, nodes, error)
  }

  method ConvertBuilderToRunnerFlow(vault: Vault, flow: BuilderFlow) returns (r: Result<RunnerFlow, ConvertError>)
    ensures r.Ok? ==> Converts(vault, flow, r.value) && IsCompiled(vault, flow, r.value)
    ensures r.Ok? <==> forall i :: 0 <= i < |flow.nodes| && Processed(flow.nodes[i].kind) ==>
                         Convertible(vault, flow.nodes[i], flow.edges, NodesById(flow.nodes))
    ensures r.Err? ==> exists i :: FirstFailure(vault, flow, i, r.error)
  {
    var result: RunnerFlow := map[];
    var nodeMap: NodeMap := map[];
    for i := 0 to |flow.nodes|
      invariant nodeMap == NodesById(flow.nodes[..i])
    {
      assert flow.nodes[..i + 1][..i] == flow.nodes[..i];
      nodeMap := nodeMap[flow.nodes[i].id := flow.nodes[i]];
    }
    assert flow.nodes[..|flow.nodes|] == flow.nodes;
    assert ConvertsUpTo(vault, flow, 0, result);
    for i := 0 to |flow.nodes|
      invariant ConvertsUpTo(vault, flow, i, result)
    {
      var node := flow.nodes[i];
      if !Processed(node.kind) {
        SkipNode(vault, flow, i, result);
        continue;
      }
      var runnerNode := ProcessNode(vault, node, flow.edges, nodeMap);
      if runnerNode.Err? {
        assert FirstFailure(vault, flow, i, runnerNode.error);
        return Err(runnerNode.error);
      }
      AddNode(vault, flow, i, result, runnerNode.value);
      result := result[node.id := runnerNode.value];
    }
    assert Part(flow, |flow.nodes|) == flow;
    CompiledIs(vault, flow, result);
    return Ok(result);
  }
}
