/**
 The two halves together: what the Go server compiles, sent to the TypeScript runner and executed
 there, gives each node exactly what the drawn edges promise.
 */
module EndToEnd {
  import opened Wrappers
  import opened Strings
  import opened Flow
  import opened Builder
  import opened Connections
  import NodeOutputs
  import opened Compiler
  import opened Graphs
  import opened Context
  import opened Executor
  import opened ExecutorRuns
  import opened ExecutorRecords
  import opened ExecutorRefinement

  // ---------------------------------------------------------------- the message in between

  function InputOf(i: RunnerInput): InputDef {
    InputDef(Some(i.source), None)
  }

  ghost predicate DeliveredInputs(inputs: map<string, RunnerInput>, delivered: Record<InputDef>) {
    && ValidRecord(delivered)
    && (forall name :: name in Keys(delivered) <==> name in inputs)
    && (forall e :: e in delivered ==> e.key in inputs && e.value == InputOf(inputs[e.key]))
  }

  ghost predicate DeliveredNode(node: RunnerNode, d: NodeDef) {
    && d.kind == node.kind
    && d.details == Details(node.config, node.tools, node.memory, node.outputs)
    && DeliveredInputs(node.inputs, d.inputs)
  }

  /** The runner decodes what the server encoded; the order of properties is left open. */
  ghost predicate Delivered(r: RunnerFlow, definition: Definition) {
    && ValidRecord(definition)
    && (forall id :: id in Keys(definition) <==> id in r)
    && (forall e :: e in definition ==> e.key in r && DeliveredNode(r[e.key], e.value))
  }

  lemma InputsAreDeliverable(inputs: map<string, RunnerInput>) returns (delivered: Record<InputDef>)
    ensures DeliveredInputs(inputs, delivered)
  {
    var order := NodeOutputs.Listing(inputs.Keys);
    delivered := seq(|order|, i requires 0 <= i < |order| => Entry(order[i], InputOf(inputs[order[i]])));
    assert Keys(delivered) == order;
  }

  lemma {:induction false} NodesAreDeliverable(r: RunnerFlow, order: seq<string>) returns (definition: Definition)
    requires forall id :: id in order ==> id in r
    ensures Keys(definition) == order
    ensures forall e :: e in definition ==> e.key in r && DeliveredNode(r[e.key], e.value)
  {
    definition := [];
    if order != [] {
      var front, last := order[..|order| - 1], order[|order| - 1];
      var before := NodesAreDeliverable(r, front);
      var inputs := InputsAreDeliverable(r[last].inputs);
      var node := r[last];
      var details := Details(node.config, node.tools, node.memory, node.outputs);
      definition := before + [Entry(last, NodeDef(node.kind, inputs, details))];
      assert Keys(definition) == Keys(before) + [last];
    }
  }

  /** Every runner flow can be delivered. */
  lemma EveryFlowIsDeliverable(r: RunnerFlow) returns (definition: Definition)
    ensures Delivered(r, definition)
  {
    var order := NodeOutputs.Listing(r.Keys);
    definition := NodesAreDeliverable(r, order);
  }

  // ---------------------------------------------------------------- one edge

  /** What an edge promises its consumer: the field the target handle names, of the producer's output. */
  function Promised(outputs: Outputs, e: BuilderEdge): Result<Option<Json>, ResolveError>
    requires WellFormed(e.targetHandle)
  {
    var name := HandleName(e.targetHandle);
    if e.target !in outputs then Err(NodeNotFound(e.target))
    else
      match outputs[e.target]
      case None => Ok(None)
      case Some(m) => if name in m then Ok(Some(m[name])) else Ok(None)
  }

  ghost predicate ReadAsPromised(outputs: Outputs, name: string, e: BuilderEdge)
    requires WellFormed(e.targetHandle)
  {
    ResolveOne(outputs, name, InputDef(Some(SourceText(e)), None)) == Promised(outputs, e)
  }

  predicate Clean(e: BuilderEdge)
    requires WellFormed(e.targetHandle)
  {
    e.target != "" && '.' !in e.target && HandleName(e.targetHandle) != "" && '.' !in HandleName(e.targetHandle)
  }

  lemma CleanReadsBack(e: BuilderEdge)
    requires WellFormed(e.targetHandle) && Clean(e)
    ensures SourceText(e) != "" && SourceNode(SourceText(e)) == e.target
    ensures SourceField(SourceText(e)) == HandleName(e.targetHandle)
  {
    SplitPair(e.target, ".", HandleName(e.targetHandle));
  }

  lemma DotIsContained(s: string)
    requires '.' in s
    ensures Contains(s, ".")
  {
    var k :| 0 <= k < |s| && s[k] == '.';
    FindLeast(s, ".");
    assert s[k..][..1] == ".";
    assert Occurs(s, ".", k);
  }

  lemma FirstPartIsClean(s: string)
    ensures '.' !in SourceNode(s)
    ensures s != "" && '.' !in s ==> SourceNode(s) == s
  {
    JoinSplit(s, ".");
    assert SourceNode(s) in Split(s, ".");
    if '.' in SourceNode(s) { DotIsContained(SourceNode(s)); }
    if '.' !in s { NotFound(s, "."); }
  }

  /** Of a source with a clean node part, the field is the text up to the next dot. */
  lemma FieldIsFirstPart(e: BuilderEdge)
    requires WellFormed(e.targetHandle) && '.' !in e.target
    ensures SourceNode(SourceText(e)) == e.target
    ensures SourceField(SourceText(e)) == SourceNode(HandleName(e.targetHandle))
  {
    SplitCons(e.target, ".", HandleName(e.targetHandle));
  }

  /** The exact condition for the text between the two programs to keep the meaning of an edge. */
  lemma ReadAsPromisedIffClean(name: string, e: BuilderEdge)
    requires WellFormed(e.targetHandle)
    ensures (forall outputs :: ReadAsPromised(outputs, name, e)) <==> Clean(e)
  {
    if Clean(e) {
      CleanReadsBack(e);
    } else {
      var outputs := Misread(e);
      DirtyIsMisread(name, e);
      assert !ReadAsPromised(outputs, name, e);
    }
  }

  /** Outputs that tell a dirty edge from its promise. */
  function Misread(e: BuilderEdge): Outputs
    requires WellFormed(e.targetHandle)
  {
    var field := HandleName(e.targetHandle);
    if e.target == "" then map[]
    else if '.' !in e.target && field == "" then map[e.target := Some(map[])]
    else map[e.target := Some(map[field := JNull])]
  }

  lemma DirtyIsMisread(name: string, e: BuilderEdge)
    requires WellFormed(e.targetHandle) && !Clean(e)
    ensures !ReadAsPromised(Misread(e), name, e)
  {
    if '.' in e.target {
      FirstPartIsClean(SourceText(e));
      assert SourceNode(SourceText(e)) != e.target;
    } else {
      FieldIsFirstPart(e);
      FirstPartIsClean(HandleName(e.targetHandle));
      if HandleName(e.targetHandle) == "" { NotFound("", "."); }
    }
  }

  // ---------------------------------------------------------------- all edges of a flow

  function HandlesOfNode(node: BuilderNode): seq<NodeHandle> {
    if node.data.handles.Some? then node.data.handles.value else []
  }

  /** Edge `e` is the one the compiler selects for input `name` of the node. */
  ghost predicate Selects(node: BuilderNode, edges: seq<BuilderEdge>, name: string, e: BuilderEdge) {
    && WellFormed(e.targetHandle)
    && if node.kind == "entrypoint" then false
       else if node.kind == "result" then
         exists i :: LastWired(node.id, HandlesOfNode(node), edges, name, i) &&
                     FirstResultEdge(node.id, HandlesOfNode(node)[i].id, edges) == Some(e)
       else exists i :: LastFeeder(node.id, edges, name, i) && edges[i] == e
  }

  ghost predicate HasSelected(node: BuilderNode, edges: seq<BuilderEdge>, name: string) {
    exists e :: Selects(node, edges, name, e)
  }

  function CompiledInputs(node: BuilderNode, edges: seq<BuilderEdge>): map<string, RunnerInput> {
    if node.kind == "entrypoint" then map[]
    else if node.kind == "result" then ResultInputs(node.id, HandlesOfNode(node), edges)
    else NodeInputs(node.id, edges)
  }

  lemma TranslatedInputs(vault: Vault, node: BuilderNode, edges: seq<BuilderEdge>, nodes: NodeMap, r: RunnerNode)
    requires Translates(vault, node, edges, nodes, r)
    ensures r.inputs == CompiledInputs(node, edges) && r.kind == node.kind
  {}

  /** An input is compiled exactly when an edge is selected for it, and is the text of that edge. */
  lemma CompiledIsSelected(node: BuilderNode, edges: seq<BuilderEdge>, name: string)
    ensures name in CompiledInputs(node, edges) <==> HasSelected(node, edges, name)
    ensures forall e :: Selects(node, edges, name, e) ==>
              e in edges && name in CompiledInputs(node, edges) && CompiledInputs(node, edges)[name].source == SourceText(e)
  {
    if node.kind == "result" {
      ResultIsSelected(node, edges, name);
    } else if node.kind != "entrypoint" {
      OrdinaryIsSelected(node, edges, name);
    }
  }

  lemma OrdinaryIsSelected(node: BuilderNode, edges: seq<BuilderEdge>, name: string)
    requires node.kind != "result" && node.kind != "entrypoint"
    ensures name in NodeInputs(node.id, edges) <==> HasSelected(node, edges, name)
    ensures forall e :: Selects(node, edges, name, e) ==>
              e in edges && name in NodeInputs(node.id, edges) && NodeInputs(node.id, edges)[name].source == SourceText(e)
  {
    LastEdgeWins(node.id, edges, name);
    if name in NodeInputs(node.id, edges) {
      var i :| LastFeeder(node.id, edges, name, i);
      assert Selects(node, edges, name, edges[i]);
    }
  }

  lemma ResultIsSelected(node: BuilderNode, edges: seq<BuilderEdge>, name: string)
    requires node.kind == "result"
    ensures var inputs := ResultInputs(node.id, HandlesOfNode(node), edges);
            && (name in inputs <==> HasSelected(node, edges, name))
            && forall e :: Selects(node, edges, name, e) ==>
                 e in edges && name in inputs && inputs[name].source == SourceText(e)
  {
    var handles := HandlesOfNode(node);
    FirstEdgePerHandle(node.id, handles, edges, name);
    if name in ResultInputs(node.id, handles, edges) {
      var i :| LastWired(node.id, handles, edges, name, i);
      assert Selects(node, edges, name, FirstResultEdge(node.id, handles[i].id, edges).value);
    }
  }

  // ---------------------------------------------------------------- what the runner receives

  /** The drawn flow, a conversion of it, and the definition the runner decodes from it. */
  datatype Deployment = Deployment(vault: Vault, flow: BuilderFlow, runner: RunnerFlow, definition: Definition)
  {
    ghost predicate Consistent() {
      Converts(vault, flow, runner) && Delivered(runner, definition)
    }

    /** Node `i` of the drawn flow is the one that became `id`. */
    ghost predicate Drawn(id: NodeId, i: int) {
      LastListed(flow, id, i)
    }
  }

  lemma DefinedIsDrawn(d: Deployment, id: NodeId) returns (i: int)
    requires d.Consistent() && id in Keys(d.definition)
    ensures d.Drawn(id, i)
  {
    assert HasListed(d.flow, id);
    i :| LastListed(d.flow, id, i);
  }

  lemma NodeIsDelivered(d: Deployment, id: NodeId, i: int)
    requires d.Consistent() && d.Drawn(id, i)
    ensures id in Keys(d.definition)
    ensures DeliveredInputs(CompiledInputs(d.flow.nodes[i], d.flow.edges), Lookup(d.definition, id).value.inputs)
  {
    assert HasListed(d.flow, id);
    assert id in d.runner;
    TranslatedInputs(d.vault, d.flow.nodes[i], d.flow.edges, NodesById(d.flow.nodes), d.runner[id]);
    assert Entry(id, Lookup(d.definition, id).value) in d.definition;
  }

  /** What the runner executes a node with is the translation of the node that was drawn. */
  lemma NodeIsTranslated(d: Deployment, id: NodeId, i: int)
    requires d.Consistent() && d.Drawn(id, i)
    ensures id in Keys(d.definition) && id in d.runner
    ensures IsTranslation(d.vault, d.flow.nodes[i], d.flow.edges, NodesById(d.flow.nodes), d.runner[id])
    ensures Lookup(d.definition, id).value.kind == d.flow.nodes[i].kind
    ensures var details := Lookup(d.definition, id).value.details;
            && details.config == d.runner[id].config && details.tools == d.runner[id].tools
            && details.memory == d.runner[id].memory && details.outputs == d.runner[id].outputs
  {
    NodeIsDelivered(d, id, i);
    assert HasListed(d.flow, id);
    TranslationIs(d.vault, d.flow.nodes[i], d.flow.edges, NodesById(d.flow.nodes), d.runner[id]);
    assert Entry(id, Lookup(d.definition, id).value) in d.definition;
  }

  function InputsOfNode(d: Deployment, id: NodeId): Record<InputDef>
    requires id in Keys(d.definition)
  {
    Lookup(d.definition, id).value.inputs
  }

  /** Every delivered input carries the text of the edge selected for it. */
  lemma InputsAreSelected(d: Deployment, id: NodeId, i: int, name: string)
    requires d.Consistent() && d.Drawn(id, i)
    ensures id in Keys(d.definition)
    ensures var node, inputs := d.flow.nodes[i], InputsOfNode(d, id);
            && ValidRecord(inputs)
            && (name in Keys(inputs) <==> HasSelected(node, d.flow.edges, name))
            && forall e :: Selects(node, d.flow.edges, name, e) ==>
                 e in d.flow.edges && Entry(name, InputDef(Some(SourceText(e)), None)) in inputs
  {
    NodeIsDelivered(d, id, i);
    var node, inputs := d.flow.nodes[i], InputsOfNode(d, id);
    CompiledIsSelected(node, d.flow.edges, name);
    forall e | Selects(node, d.flow.edges, name, e)
      ensures e in d.flow.edges && Entry(name, InputDef(Some(SourceText(e)), None)) in inputs
    {
      assert Entry(name, Lookup(inputs, name).value) in inputs;
    }
  }

  lemma EntryIsSelected(d: Deployment, id: NodeId, i: int, entry: Entry<InputDef>) returns (e: BuilderEdge)
    requires d.Consistent() && d.Drawn(id, i) && id in Keys(d.definition) && entry in InputsOfNode(d, id)
    ensures Selects(d.flow.nodes[i], d.flow.edges, entry.key, e)
    ensures e in d.flow.edges && entry.value == InputDef(Some(SourceText(e)), None)
  {
    NodeIsDelivered(d, id, i);
    var inputs := InputsOfNode(d, id);
    var k :| 0 <= k < |inputs| && inputs[k] == entry;
    assert Keys(inputs)[k] == entry.key;
    CompiledIsSelected(d.flow.nodes[i], d.flow.edges, entry.key);
    e :| Selects(d.flow.nodes[i], d.flow.edges, entry.key, e);
  }

  /** Compiled definitions meet the side condition of the executor: no input lacks a source. */
  lemma CompiledIsValid(d: Deployment, w: World)
    requires d.Consistent() && w.definition == d.definition
    ensures Valid(w)
  {
    forall id | id in Keys(d.definition) ensures !Sourceless(w.Node(id).inputs) {
      var i := DefinedIsDrawn(d, id);
      forall entry | entry in InputsOfNode(d, id) ensures HasSource(entry.value) {
        var e := EntryIsSelected(d, id, i, entry);
      }
    }
  }

  ghost predicate CleanFlow(flow: BuilderFlow) {
    forall e :: e in flow.edges && WellFormed(e.targetHandle) ==> Clean(e)
  }

  ghost predicate SelectsFrom(node: BuilderNode, edges: seq<BuilderEdge>, producer: NodeId) {
    exists name, e :: Selects(node, edges, name, e) && e.target == producer
  }

  /** The dependency graph the runner rebuilds has exactly the selected edges. */
  lemma DependenciesAreEdges(d: Deployment, id: NodeId, i: int, producer: NodeId)
    requires d.Consistent() && d.Drawn(id, i) && CleanFlow(d.flow)
    ensures id in Keys(d.definition)
    ensures producer in GraphOf(d.definition).DepsOf(id) <==> SelectsFrom(d.flow.nodes[i], d.flow.edges, producer)
  {
    NodeIsDelivered(d, id, i);
    var inputs, node := InputsOfNode(d, id), d.flow.nodes[i];
    var k :| 0 <= k < |d.definition| && Keys(d.definition)[k] == id;
    LookupUnique(d.definition, k);
    GraphDependencies(d.definition, k);
    DependenciesAreNamed(inputs, producer);
    if producer in Dependencies(inputs) {
      var entry :| entry in inputs && Names(entry.value, producer);
      var e := EntryIsSelected(d, id, i, entry);
      CleanReadsBack(e);
    }
    if SelectsFrom(node, d.flow.edges, producer) {
      var name, e :| Selects(node, d.flow.edges, name, e) && e.target == producer;
      InputsAreSelected(d, id, i, name);
      CleanReadsBack(e);
      assert Names(Entry(name, InputDef(Some(SourceText(e)), None)).value, producer);
    }
  }

  // ---------------------------------------------------------------- values

  /** `value` is what the drawing promises for input `name`, given what the producers output. */
  ghost predicate Keeps(node: BuilderNode, edges: seq<BuilderEdge>, outputs: Outputs, name: string, value: Option<Json>) {
    && (forall e :: Selects(node, edges, name, e) ==> Promised(outputs, e) == Ok(value))
    && (!HasSelected(node, edges, name) ==> value == None)
  }

  ghost predicate AsDrawn(node: BuilderNode, edges: seq<BuilderEdge>, outputs: Outputs, inputs: Inputs) {
    forall name :: Keeps(node, edges, outputs, name, At(inputs, name))
  }

  lemma ResolvedAsDrawn(d: Deployment, id: NodeId, i: int, outputs: Outputs)
    requires d.Consistent() && d.Drawn(id, i) && CleanFlow(d.flow)
    requires id in Keys(d.definition) && ResolveEntries(outputs, InputsOfNode(d, id)).Ok?
    ensures AsDrawn(d.flow.nodes[i], d.flow.edges, outputs, ResolveEntries(outputs, InputsOfNode(d, id)).value)
  {
    var node, defs := d.flow.nodes[i], InputsOfNode(d, id);
    var inputs := ResolveEntries(outputs, defs).value;
    NodeIsDelivered(d, id, i);
    ResolvedPointwise(outputs, defs);
    forall name ensures Keeps(node, d.flow.edges, outputs, name, At(inputs, name)) {
      InputsAreSelected(d, id, i, name);
      forall e | Selects(node, d.flow.edges, name, e) ensures Promised(outputs, e) == Ok(At(inputs, name)) {
        ReadAsPromisedIffClean(name, e);
        assert ReadAsPromised(outputs, name, e);
        assert Contributes(outputs, Entry(name, InputDef(Some(SourceText(e)), None)), inputs);
      }
    }
  }

  /** Whenever the executor starts a node, its inputs are the outputs the drawn edges promise. */
  lemma CompileThenRun(d: Deployment, w: World, c: ExecutionContext, id: NodeId, i: int)
    requires d.Consistent() && CleanFlow(d.flow) && w.definition == d.definition && d.Drawn(id, i)
    requires Valid(w) && Sound(w, c) && Ready(w.Graph(), c.completedNodes, id) && id != ENTRYPOINT_ID
    ensures CanStart(w, c, id)
    ensures AsDrawn(d.flow.nodes[i], d.flow.edges, OutputsOf(c.nodeExecutions), ResolveInputs(c, id, w.Node(id)).value)
  {
    ReadyIsResolvable(w, c, id);
    ResolvedAsDrawn(d, id, i, OutputsOf(c.nodeExecutions));
  }

  /**
   Whatever the nodes answer, fail or crash: at any time the record of a node of a compiled drawing is an answer to
   the inputs its drawn edges promise out of the records beside it.
   */
  lemma RecordsAreAsDrawn(d: Deployment, w: World, s: State, id: NodeId, i: int)
    requires d.Consistent() && CleanFlow(d.flow) && w.definition == d.definition && d.Drawn(id, i)
    requires Reachable(w, s) && !s.control.Down? && id in s.live.nodeExecutions
    ensures id in Keys(w.definition) && IsAnswer(w, id, s.live.nodeExecutions[id])
    ensures if id == ENTRYPOINT_ID then s.live.nodeExecutions[id].inputs == w.options.inputs
            else AsDrawn(d.flow.nodes[i], d.flow.edges, OutputsOf(s.live.nodeExecutions), s.live.nodeExecutions[id].inputs)
  {
    CompiledIsValid(d, w);
    ReachableInv(w, s);
    ReachableRecords(w, s);
    assert RecordOk(w, s.live, id, s.live.nodeExecutions[id]);
    if id != ENTRYPOINT_ID { ResolvedAsDrawn(d, id, i, OutputsOf(s.live.nodeExecutions)); }
  }

  lemma NeedsHaveValues(w: World, program: Program, id: NodeId)
    requires Valid(w) && Acyclic(w) && id in Keys(w.definition) && id != ENTRYPOINT_ID
    ensures ResolveEntries(Values(w, program), w.Node(id).inputs) == Ok(ValueInputs(w, program, id))
  {
    NeedsAreLower(w, id);
    var needed := map n | n in Needs(id, w.Node(id)) :: Some(Value(w, program, n));
    ResolvesIffNeedsRecorded(needed, id, w.Node(id));
    ResolveReadsNeeds(needed, Values(w, program), id, w.Node(id));
  }

  /** The record of the node holds these inputs and what the node computes from them. */
  ghost predicate Computed(program: Program, id: NodeId, def: NodeDef, inputs: Inputs, executions: map<NodeId, NodeExecution>) {
    id in executions && executions[id] == NodeExecution(true, inputs, Some(program(id, def, inputs)), None)
  }

  /**
   The whole of it: a run of a compiled drawing that is over has recorded, for every node, what the node
   computes from the inputs its drawn edges promise out of those same records.
   */
  lemma OutcomeIsAsDrawn(d: Deployment, w: World, program: Program, s: State, id: NodeId, i: int) returns (inputs: Inputs)
    requires d.Consistent() && CleanFlow(d.flow) && w.definition == d.definition && d.Drawn(id, i)
    requires Valid(w) && Runs(w, program) && Acyclic(w) && Reachable(w, s) && s.control.Over?
    ensures id in Keys(w.definition)
    ensures Computed(program, id, w.Node(id), inputs, s.live.nodeExecutions)
    ensures if id == ENTRYPOINT_ID then inputs == w.options.inputs
            else AsDrawn(d.flow.nodes[i], d.flow.edges, OutputsOf(s.live.nodeExecutions), inputs)
  {
    NodeIsDelivered(d, id, i);
    EveryScheduleEvaluates(w, program, s);
    RecordedIsValue(w, program, s, id);
    assert id in OutputsOf(s.live.nodeExecutions);
    inputs := ValueInputs(w, program, id);
    if id != ENTRYPOINT_ID {
      NeedsHaveValues(w, program, id);
      ResolvedAsDrawn(d, id, i, Values(w, program));
    }
  }
}
