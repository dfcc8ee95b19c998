/**
 The project holds its credentials, its workflows and, per workflow, the cached result of compiling it.
 Coherence: a cached runner flow is a possible result of converting the current drawing with the current
 credentials.
 */
module Projects {
  import opened Wrappers
  import opened Flow
  import opened Builder
  import opened NodeOutputs
  import opened Compiler

  datatype Credential = Credential(id: Uuid, providerType: string, name: string, apiKey: string)

  datatype Workflow = Workflow(id: string, name: string, status: string, builderFlow: BuilderFlow, runnerFlow: Option<RunnerFlow>)

  datatype ProjectError =
    | InvalidArgument(field: string)
    | InvalidFlow
    | NotFound
    | CredentialMissing
    | EncryptionFailed
    | ConversionFailed(error: ConvertError)

  function KeysOf(credentials: map<Uuid, Credential>): (keys: map<Uuid, string>)
    ensures keys.Keys == credentials.Keys
    ensures forall id :: id in credentials ==> keys[id] == credentials[id].apiKey
  {
    map id | id in credentials :: credentials[id].apiKey
  }

  // ---------------------------------------------------------------- what conversion reads of the credentials

  /** `b` has every credential of `a`, with the same key. */
  ghost predicate Extends(a: Vault, b: Vault) {
    b.parse == a.parse && forall id :: id in a.keys ==> id in b.keys && b.keys[id] == a.keys[id]
  }

  lemma {:induction false} ToolsMonotone(a: Vault, b: Vault, nodeId: string, edges: seq<BuilderEdge>, nodes: NodeMap)
    requires Extends(a, b) && ConnectedTools(a, nodeId, edges, nodes).Ok?
    ensures ConnectedTools(b, nodeId, edges, nodes) == ConnectedTools(a, nodeId, edges, nodes)
  {
    if edges != [] { ToolsMonotone(a, b, nodeId, edges[..|edges| - 1], nodes); }
  }

  lemma NodeMonotone(a: Vault, b: Vault, node: BuilderNode, edges: seq<BuilderEdge>, nodes: NodeMap)
    requires Extends(a, b) && Convertible(a, node, edges, nodes)
    ensures Convertible(b, node, edges, nodes)
    ensures forall outputs :: ConvertNode(b, node, edges, nodes, outputs) == ConvertNode(a, node, edges, nodes, outputs)
  {
    ToolsMonotone(a, b, node.id, edges, nodes);
  }

  /** Conversion is monotone: more credentials do not change what already converts. */
  lemma ConversionMonotone(a: Vault, b: Vault, flow: BuilderFlow, r: RunnerFlow)
    requires Extends(a, b) && Converts(a, flow, r)
    ensures Converts(b, flow, r)
  {
    var nodes := NodesById(flow.nodes);
    forall i | 0 <= i < |flow.nodes| && Processed(flow.nodes[i].kind) ensures Convertible(b, flow.nodes[i], flow.edges, nodes) {
      NodeMonotone(a, b, flow.nodes[i], flow.edges, nodes);
    }
    forall id, i | LastListed(flow, id, i) ensures Translates(b, flow.nodes[i], flow.edges, nodes, r[id]) {
      TranslationMonotone(a, b, flow.nodes[i], flow.edges, nodes, r[id]);
    }
  }

  lemma TranslationMonotone(a: Vault, b: Vault, node: BuilderNode, edges: seq<BuilderEdge>, nodes: NodeMap, r: RunnerNode)
    requires Extends(a, b) && Convertible(a, node, edges, nodes) && Translates(a, node, edges, nodes, r)
    ensures Translates(b, node, edges, nodes, r)
  {
    NodeMonotone(a, b, node, edges, nodes);
    var outputs :| Possible(node.id, edges, nodes, outputs) && ConvertNode(a, node, edges, nodes, outputs) == Ok(r);
    assert ConvertNode(b, node, edges, nodes, outputs) == Ok(r);
  }

  // ---------------------------------------------------------------- which credentials a workflow embeds

  predicate Refers(vault: Vault, config: Config, id: Uuid) {
    HasCredential(config) && config["credentialId"].JString? && vault.parse(config["credentialId"].s) == Some(id)
  }

  /** Some tool attached to the node carries the key of credential `id`. */
  predicate ToolUses(vault: Vault, nodeId: string, edges: seq<BuilderEdge>, nodes: NodeMap, id: Uuid) {
    exists e :: e in edges && ToolEdge(nodeId, e, nodes) && Refers(vault, nodes[e.target].data.config.value, id)
  }

  predicate AgentUses(vault: Vault, node: BuilderNode, edges: seq<BuilderEdge>, nodes: NodeMap, id: Uuid) {
    var m := GetAgentModel(node.id, edges, nodes);
    node.kind == "ai-agent" && m.Ok? && vault.parse(m.value.credentialId) == Some(id)
  }

  predicate LlmUses(vault: Vault, node: BuilderNode, id: Uuid) {
    node.kind != "ai-agent" && IsLlm(node.kind) && node.data.config.Some? && Refers(vault, node.data.config.value, id)
  }

  predicate NodeUses(vault: Vault, node: BuilderNode, edges: seq<BuilderEdge>, nodes: NodeMap, id: Uuid) {
    ToolUses(vault, node.id, edges, nodes, id) || AgentUses(vault, node, edges, nodes, id) || LlmUses(vault, node, id)
  }

  /** A node of the runner flow carries the key of credential `id`. */
  ghost predicate FlowUses(vault: Vault, flow: BuilderFlow, id: Uuid) {
    exists nodeId, i :: LastListed(flow, nodeId, i) && NodeUses(vault, flow.nodes[i], flow.edges, NodesById(flow.nodes), id)
  }

  /** `b` differs from `a` in the key of credential `id` alone. */
  ghost predicate Rekeyed(a: Vault, b: Vault, id: Uuid) {
    id in a.keys && id in b.keys && b.parse == a.parse && b.keys == a.keys[id := b.keys[id]]
  }

  lemma {:induction false} ToolsUnaffected(a: Vault, b: Vault, nodeId: string, edges: seq<BuilderEdge>, nodes: NodeMap, id: Uuid)
    requires Rekeyed(a, b, id) && !ToolUses(a, nodeId, edges, nodes, id)
    ensures ConnectedTools(b, nodeId, edges, nodes) == ConnectedTools(a, nodeId, edges, nodes)
  {
    if edges != [] {
      var front, e := edges[..|edges| - 1], edges[|edges| - 1];
      assert forall x :: x in front ==> x in edges;
      assert e in edges;
      ToolsUnaffected(a, b, nodeId, front, nodes, id);
    }
  }

  lemma {:induction false} ToolsConvertAlike(a: Vault, b: Vault, nodeId: string, edges: seq<BuilderEdge>,
                                            nodes: NodeMap, id: Uuid)
    requires Rekeyed(a, b, id)
    ensures ConnectedTools(b, nodeId, edges, nodes).Ok? <==> ConnectedTools(a, nodeId, edges, nodes).Ok?
    ensures ConnectedTools(a, nodeId, edges, nodes).Ok? ==>
              |ConnectedTools(b, nodeId, edges, nodes).value| == |ConnectedTools(a, nodeId, edges, nodes).value|
  {
    if edges != [] { ToolsConvertAlike(a, b, nodeId, edges[..|edges| - 1], nodes, id); }
  }

  lemma {:induction false} ToolsAffected(a: Vault, b: Vault, nodeId: string, edges: seq<BuilderEdge>, nodes: NodeMap, id: Uuid)
    requires Rekeyed(a, b, id) && b.keys[id] != a.keys[id] && ToolUses(a, nodeId, edges, nodes, id)
    requires ConnectedTools(a, nodeId, edges, nodes).Ok?
    ensures ConnectedTools(b, nodeId, edges, nodes) != ConnectedTools(a, nodeId, edges, nodes)
  {
    var front, e := edges[..|edges| - 1], edges[|edges| - 1];
    assert edges == front + [e];
    ToolsConvertAlike(a, b, nodeId, front, nodes, id);
    var ta, tb := ConnectedTools(a, nodeId, front, nodes).value, ConnectedTools(b, nodeId, front, nodes).value;
    if ToolEdge(nodeId, e, nodes) && Refers(a, nodes[e.target].data.config.value, id) {
      var xa, xb := ToolOf(a, nodes[e.target]).value, ToolOf(b, nodes[e.target]).value;
      assert xa.config["apiKey"] != xb.config["apiKey"];
      assert (ta + [xa])[|ta|] == xa && (tb + [xb])[|tb|] == xb;
    } else {
      ToolsAffected(a, b, nodeId, front, nodes, id);
      if ToolEdge(nodeId, e, nodes) {
        var xa := ToolOf(a, nodes[e.target]).value;
        assert (ta + [xa])[..|ta|] == ta;
        assert forall xb :: (tb + [xb])[..|tb|] == tb;
      }
    }
  }

  lemma NodeUnaffected(a: Vault, b: Vault, node: BuilderNode, edges: seq<BuilderEdge>, nodes: NodeMap, id: Uuid)
    requires Rekeyed(a, b, id) && !NodeUses(a, node, edges, nodes, id)
    ensures Convertible(b, node, edges, nodes) <==> Convertible(a, node, edges, nodes)
    ensures forall outputs :: ConvertNode(b, node, edges, nodes, outputs) == ConvertNode(a, node, edges, nodes, outputs)
  {
    ToolsUnaffected(a, b, node.id, edges, nodes, id);
    ConfigUnaffected(a, b, node, edges, nodes, id);
  }

  lemma ConfigUnaffected(a: Vault, b: Vault, node: BuilderNode, edges: seq<BuilderEdge>, nodes: NodeMap, id: Uuid)
    requires Rekeyed(a, b, id) && !AgentUses(a, node, edges, nodes, id) && !LlmUses(a, node, id)
    ensures NodeConfig(b, node, edges, nodes) == NodeConfig(a, node, edges, nodes)
  {}

  lemma ConfigAffected(a: Vault, b: Vault, node: BuilderNode, edges: seq<BuilderEdge>, nodes: NodeMap, id: Uuid)
    requires Rekeyed(a, b, id) && b.keys[id] != a.keys[id] && NodeConfig(a, node, edges, nodes).Ok?
    requires AgentUses(a, node, edges, nodes, id) || LlmUses(a, node, id)
    ensures NodeConfig(b, node, edges, nodes) != NodeConfig(a, node, edges, nodes)
  {
    var ca, cb := NodeConfig(a, node, edges, nodes).value, NodeConfig(b, node, edges, nodes).value;
    assert ca["apiKey"] != cb["apiKey"];
  }

  lemma RekeyedConvertible(a: Vault, b: Vault, node: BuilderNode, edges: seq<BuilderEdge>, nodes: NodeMap, id: Uuid)
    requires Rekeyed(a, b, id)
    ensures Convertible(b, node, edges, nodes) <==> Convertible(a, node, edges, nodes)
  {
    ToolsConvertAlike(a, b, node.id, edges, nodes, id);
  }

  /** A node that carries the key translates differently under a new key. */
  lemma NodeAffected(a: Vault, b: Vault, node: BuilderNode, edges: seq<BuilderEdge>, nodes: NodeMap, id: Uuid, r: RunnerNode)
    requires Rekeyed(a, b, id) && b.keys[id] != a.keys[id] && NodeUses(a, node, edges, nodes, id)
    requires Translates(a, node, edges, nodes, r)
    ensures !Translates(b, node, edges, nodes, r)
  {
    if ToolUses(a, node.id, edges, nodes, id) {
      ToolsAffected(a, b, node.id, edges, nodes, id);
    } else {
      ConfigAffected(a, b, node, edges, nodes, id);
    }
    assert forall v, outputs :: ConvertNode(v, node, edges, nodes, outputs) == Ok(r) ==>
      Ok(r.tools) == ConnectedTools(v, node.id, edges, nodes) && Ok(r.config) == NodeConfig(v, node, edges, nodes);
  }

  lemma UnusedKeyKeepsConversion(a: Vault, b: Vault, flow: BuilderFlow, r: RunnerFlow, id: Uuid)
    requires Rekeyed(a, b, id) && Converts(a, flow, r) && !FlowUses(a, flow, id)
    ensures Converts(b, flow, r)
  {
    var nodes := NodesById(flow.nodes);
    forall i | 0 <= i < |flow.nodes| && Processed(flow.nodes[i].kind) ensures Convertible(b, flow.nodes[i], flow.edges, nodes) {
      RekeyedConvertible(a, b, flow.nodes[i], flow.edges, nodes, id);
    }
    forall nodeId, i | LastListed(flow, nodeId, i) ensures Translates(b, flow.nodes[i], flow.edges, nodes, r[nodeId]) {
      NodeUnaffected(a, b, flow.nodes[i], flow.edges, nodes, id);
      var outputs :| Possible(flow.nodes[i].id, flow.edges, nodes, outputs) &&
                     ConvertNode(a, flow.nodes[i], flow.edges, nodes, outputs) == Ok(r[nodeId]);
      assert ConvertNode(b, flow.nodes[i], flow.edges, nodes, outputs) == Ok(r[nodeId]);
    }
  }

  /** A cached flow survives the change of a key exactly when no node in it carries that key. */
  lemma SurvivesRekeyIffUnused(a: Vault, b: Vault, flow: BuilderFlow, r: RunnerFlow, id: Uuid)
    requires Rekeyed(a, b, id) && b.keys[id] != a.keys[id] && Converts(a, flow, r)
    ensures Converts(b, flow, r) <==> !FlowUses(a, flow, id)
  {
    if FlowUses(a, flow, id) {
      var nodeId, i :| LastListed(flow, nodeId, i) && NodeUses(a, flow.nodes[i], flow.edges, NodesById(flow.nodes), id);
      NodeAffected(a, b, flow.nodes[i], flow.edges, NodesById(flow.nodes), id, r[nodeId]);
    } else {
      UnusedKeyKeepsConversion(a, b, flow, r, id);
    }
  }

  lemma SingleNodeIsListed(node: BuilderNode)
    requires Processed(node.kind)
    ensures forall id, i :: LastListed(BuilderFlow([node], []), id, i) <==> id == node.id && i == 0
  {
    var flow := BuilderFlow([node], []);
    assert forall id, i :: Listed(flow, id, i) <==> id == node.id && i == 0;
    assert LastListed(flow, node.id, 0);
  }

  /** A lone chat node with a credential converts to itself with the key put in. */
  lemma LoneChatConverts(vault: Vault, node: BuilderNode, id: Uuid)
    requires node.kind == "chat-anthropic" && node.data.config.Some?
    requires Refers(vault, node.data.config.value, id) && id in vault.keys
    ensures var config := node.data.config.value["apiKey" := JString(vault.keys[id])];
            var flow := BuilderFlow([node], []);
            && Converts(vault, flow, map[node.id := RunnerNode(node.kind, config, [], None, map[], map[])])
            && FlowUses(vault, flow, id)
  {
    var flow := BuilderFlow([node], []);
    var nodes := NodesById(flow.nodes);
    var config := node.data.config.value["apiKey" := JString(vault.keys[id])];
    var r := RunnerNode(node.kind, config, [], None, map[], map[]);
    SingleNodeIsListed(node);
    LoneOutputs(node, nodes);
    assert ConvertNode(vault, node, [], nodes, map[]) == Ok(r);
    assert Translates(vault, node, [], nodes, r);
    forall other ensures other == node.id <==> HasListed(flow, other) {
      if other == node.id { assert LastListed(flow, other, 0); }
    }
    assert NodeUses(vault, flow.nodes[0], [], nodes, id);
    assert LastListed(flow, node.id, 0);
  }

  lemma LoneOutputs(node: BuilderNode, nodes: NodeMap)
    requires node.id in nodes && !Renames(nodes[node.id].kind)
    ensures Possible(node.id, [], nodes, map[])
  {
    var out := OutEdges(node.id, []);
    assert out == [] && OutputsInOrder([], out, nodes) == map[];
    assert Arises([], nodes[node.id].kind, out, nodes, map[]);
  }

  /** A flow that shows it: a cached chat node stops being a conversion when the key of its credential changes. */
  lemma RekeyedChatGoesStale(a: Vault, b: Vault, node: BuilderNode, id: Uuid)
    requires node.kind == "chat-anthropic" && node.data.config.Some? && Refers(a, node.data.config.value, id)
    requires Rekeyed(a, b, id) && b.keys[id] != a.keys[id]
    ensures exists r :: Converts(a, BuilderFlow([node], []), r) && !Converts(b, BuilderFlow([node], []), r)
  {
    var flow := BuilderFlow([node], []);
    LoneChatConverts(a, node, id);
    var config := node.data.config.value["apiKey" := JString(a.keys[id])];
    var r: RunnerFlow := map[node.id := RunnerNode(node.kind, config, [], None, map[], map[])];
    SurvivesRekeyIffUnused(a, b, flow, r, id);
    assert Converts(a, flow, r) && !Converts(b, flow, r);
  }

  /** Such a node and such a change exist. */
  lemma AnthropicChatGoesStale() returns (a: Vault, b: Vault, flow: BuilderFlow)
    ensures Rekeyed(a, b, "id") && exists r :: Converts(a, flow, r) && !Converts(b, flow, r)
  {
    var parse := (text: string) => Some("id");
    a, b := Vault(parse, map["id" := "old"]), Vault(parse, map["id" := "new"]);
    var config: Config := map["credentialId" := JString("id")];
    var node := BuilderNode("chat", "chat-anthropic", NodeData(None, Some(config), None));
    flow := BuilderFlow([node], []);
    assert "old"[0] != "new"[0];
    assert Refers(a, config, "id");
    RekeyedChatGoesStale(a, b, node, "id");
  }

  // ---------------------------------------------------------------- the project

  const NIL_UUID := "00000000-0000-0000-0000-000000000000"

  class Project {
    const parse: string -> Option<Uuid>
    var credentials: map<Uuid, Credential>
    var workflows: map<string, Workflow>

    constructor (parse: string -> Option<Uuid>)
      ensures credentials == map[] && workflows == map[] && this.parse == parse && Coherent()
    {
      this.parse, credentials, workflows := parse, map[], map[];
    }

    function TheVault(): Vault
      reads this
    {
      Vault(parse, KeysOf(credentials))
    }

    /** Every node that is to be processed converts. */
    predicate Compiles(flow: BuilderFlow)
      reads this
    {
      forall i :: 0 <= i < |flow.nodes| && Processed(flow.nodes[i].kind) ==>
        Convertible(TheVault(), flow.nodes[i], flow.edges, NodesById(flow.nodes))
    }

    ghost predicate CachedIsCurrent(w: Workflow)
      reads this
    {
      w.runnerFlow.Some? ==> Converts(TheVault(), w.builderFlow, w.runnerFlow.value)
    }

    ghost predicate Coherent()
      reads this
    {
      forall id :: id in workflows ==> CachedIsCurrent(workflows[id])
    }

    /** The drawing is `None` when its text does not decode. */
    method CreateWorkflow(id: string, name: string, builderFlow: Option<BuilderFlow>) returns (r: Result<Workflow, ProjectError>)
      modifies this`workflows
      ensures r == if builderFlow.None? then Err(InvalidFlow) else Ok(Workflow(id, name, "draft", builderFlow.value, None))
      ensures workflows == if r.Ok? then old(workflows)[id := r.value] else old(workflows)
      ensures old(Coherent()) ==> Coherent()
    {
      if builderFlow.None? {
        return Err(InvalidFlow);
      }
      var w := Workflow(id, name, "draft", builderFlow.value, None);
      workflows := workflows[id := w];
      return Ok(w);
    }

    method UpdateWorkflowName(id: string, name: string) returns (r: Result<(), ProjectError>)
      modifies this`workflows
      ensures r == if id in old(workflows) then Ok(()) else Err(NotFound)
      ensures workflows == if r.Ok? then old(workflows)[id := old(workflows)[id].(name := name)] else old(workflows)
      ensures old(Coherent()) ==> Coherent()
    {
      if id !in workflows {
        return Err(NotFound);
      }
      ghost var before := workflows;
      workflows := workflows[id := workflows[id].(name := name)];
      assert old(CachedIsCurrent(before[id])) ==> CachedIsCurrent(workflows[id]);
      return Ok(());
    }

    /** A new drawing drops the cached result; a drawing that does not decode changes nothing. */
    method UpdateWorkflowBuilderFlow(id: string, builderFlow: Option<BuilderFlow>) returns (r: Result<(), ProjectError>)
      modifies this`workflows
      ensures r == if id !in old(workflows) then Err(NotFound) else if builderFlow.None? then Err(InvalidFlow) else Ok(())
      ensures workflows == if r.Err? then old(workflows)
                           else old(workflows)[id := old(workflows)[id].(builderFlow := builderFlow.value, runnerFlow := None)]
      ensures old(Coherent()) ==> Coherent()
    {
      if id !in workflows {
        return Err(NotFound);
      }
      if builderFlow.None? {
        return Err(InvalidFlow);
      }
      workflows := workflows[id := workflows[id].(builderFlow := builderFlow.value, runnerFlow := None)];
      return Ok(());
    }

    /** Compiles once: a cached result is returned as it is, a failed conversion caches nothing. */
    method ComputeWorkflow(id: string) returns (r: Result<Workflow, ProjectError>)
      modifies this`workflows
      ensures id !in old(workflows) ==> r == Err(NotFound)
      ensures r.Ok? <==> id in old(workflows) && (old(workflows)[id].runnerFlow.Some? || Compiles(old(workflows)[id].builderFlow))
      ensures r.Err? && id in old(workflows) ==>
                && r.error.ConversionFailed?
                && exists i :: FirstFailure(TheVault(), old(workflows)[id].builderFlow, i, r.error.error)
      ensures r.Err? ==> workflows == old(workflows)
      ensures r.Ok? ==> id in old(workflows) && r.value.runnerFlow.Some? && workflows == old(workflows)[id := r.value]
      ensures r.Ok? ==> r.value == old(workflows)[id].(runnerFlow := r.value.runnerFlow)
      ensures r.Ok? && old(workflows)[id].runnerFlow.Some? ==> r.value == old(workflows)[id]
      ensures r.Ok? && old(workflows)[id].runnerFlow.None? ==> CachedIsCurrent(r.value)
      ensures old(Coherent()) ==> Coherent()
    {
      if id !in workflows {
        return Err(NotFound);
      }
      var w := workflows[id];
      if w.runnerFlow.Some? {
        return Ok(w);
      }
      var runnerFlow := ConvertBuilderToRunnerFlow(TheVault(), w.builderFlow);
      if runnerFlow.Err? {
        return Err(ConversionFailed(runnerFlow.error));
      }
      w := w.(runnerFlow := Some(runnerFlow.value));
      workflows := workflows[id := w];
      return Ok(w);
    }

    /**
     `encrypted` is what encrypting the key gave, if it succeeded. An id already in use is overwritten, and
     then the cache stays coherent exactly as after a change of that key.
     */
    method CreateCredential(id: Uuid, name: string, providerType: string, apiKey: string, encrypted: Option<string>)
      returns (r: Result<Credential, ProjectError>)
      modifies this`credentials
      ensures r.Ok? <==> id != NIL_UUID && name != "" && providerType != "" && apiKey != "" && encrypted.Some?
      ensures r.Ok? ==> r.value == Credential(id, providerType, name, encrypted.value)
      ensures credentials == if r.Ok? then old(credentials)[id := r.value] else old(credentials)
      ensures old(Coherent()) && id !in old(credentials) ==> Coherent()
      ensures r.Ok? && old(Coherent()) && id in old(credentials) ==>
                (Coherent() <==> encrypted.value == old(credentials)[id].apiKey || !old(CacheUses(id)))
    {
      if id == NIL_UUID {
        return Err(InvalidArgument("id"));
      }
      if name == "" {
        return Err(InvalidArgument("name"));
      }
      if providerType == "" {
        return Err(InvalidArgument("providerType"));
      }
      if apiKey == "" {
        return Err(InvalidArgument("apiKey"));
      }
      if encrypted.None? {
        return Err(EncryptionFailed);
      }
      ghost var before := TheVault();
      var credential := Credential(id, providerType, name, encrypted.value);
      credentials := credentials[id := credential];
      if old(Coherent()) {
        if id in old(credentials) { RekeyedCoherence(before, id); } else { MoreCredentials(before); }
      }
      return Ok(credential);
    }

    lemma MoreCredentials(before: Vault)
      requires Extends(before, TheVault())
      requires forall id :: id in workflows && workflows[id].runnerFlow.Some? ==>
                 Converts(before, workflows[id].builderFlow, workflows[id].runnerFlow.value)
      ensures Coherent()
    {
      forall id | id in workflows && workflows[id].runnerFlow.Some? ensures CachedIsCurrent(workflows[id]) {
        ConversionMonotone(before, TheVault(), workflows[id].builderFlow, workflows[id].runnerFlow.value);
      }
    }

    /** Some cached runner flow carries the key of credential `id`. */
    ghost predicate CacheUses(id: Uuid)
      reads this
    {
      exists w :: w in workflows && workflows[w].runnerFlow.Some? && FlowUses(TheVault(), workflows[w].builderFlow, id)
    }

    /** The cache is not reset, so it stays coherent exactly when no cached flow carries the key or the key is the same. */
    method UpdateCredential(id: Uuid, name: string, encrypted: Option<string>) returns (r: Result<(), ProjectError>)
      modifies this`credentials
      ensures r == if name == "" then Err(InvalidArgument("name"))
                   else if id !in old(credentials) then Err(CredentialMissing)
                   else if encrypted.None? then Err(EncryptionFailed)
                   else Ok(())
      ensures credentials == if r.Ok? then old(credentials)[id := old(credentials)[id].(name := name, apiKey := encrypted.value)]
                             else old(credentials)
      ensures r.Ok? && old(Coherent()) ==>
                (Coherent() <==> encrypted.value == old(credentials)[id].apiKey || !old(CacheUses(id)))
    {
      if name == "" {
        return Err(InvalidArgument("name"));
      }
      if id !in credentials {
        return Err(CredentialMissing);
      }
      if encrypted.None? {
        return Err(EncryptionFailed);
      }
      ghost var before := TheVault();
      credentials := credentials[id := credentials[id].(name := name, apiKey := encrypted.value)];
      if old(Coherent()) {
        RekeyedCoherence(before, id);
      }
      return Ok(());
    }

    lemma RekeyedCoherence(before: Vault, id: Uuid)
      requires Rekeyed(before, TheVault(), id)
      requires forall w :: w in workflows && workflows[w].runnerFlow.Some? ==>
                 Converts(before, workflows[w].builderFlow, workflows[w].runnerFlow.value)
      ensures Coherent() <==>
                before.keys[id] == TheVault().keys[id] ||
                !exists w :: w in workflows && workflows[w].runnerFlow.Some? && FlowUses(before, workflows[w].builderFlow, id)
    {
      if before.keys[id] == TheVault().keys[id] {
        assert before == TheVault();
      } else {
        forall w | w in workflows && workflows[w].runnerFlow.Some?
          ensures CachedIsCurrent(workflows[w]) <==> !FlowUses(before, workflows[w].builderFlow, id)
        {
          SurvivesRekeyIffUnused(before, TheVault(), workflows[w].builderFlow, workflows[w].runnerFlow.value, id);
        }
      }
    }
  }
}
