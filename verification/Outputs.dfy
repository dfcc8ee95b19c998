/**
 How the compiler computes the outputs of a node. The server groups the edges by handle in a Go map and
 ranges over it, so the order of the handles is arbitrary: a result is possible if some order gives it.
 */
module NodeOutputs {
  import opened Wrappers
  import opened Strings
  import opened Flow
  import opened Builder
  import opened Connections

  type Outputs = map<string, RunnerOutput>

  /** Edges that take something from the node, in order. */
  function OutEdges(nodeId: string, edges: seq<BuilderEdge>): (out: seq<BuilderEdge>)
    ensures forall e :: e in out <==> e in edges && e.target == nodeId
  {
    if edges == [] then []
    else
      var before, e := OutEdges(nodeId, edges[..|edges| - 1]), edges[|edges| - 1];
      assert edges == edges[..|edges| - 1] + [e];
      if e.target == nodeId then before + [e] else before
  }

  function WithHandle(handle: string, edges: seq<BuilderEdge>): (group: seq<BuilderEdge>)
    ensures forall e :: e in group <==> e in edges && e.targetHandle == handle
  {
    if edges == [] then []
    else
      var before, e := WithHandle(handle, edges[..|edges| - 1]), edges[|edges| - 1];
      assert edges == edges[..|edges| - 1] + [e];
      if e.targetHandle == handle then before + [e] else before
  }

  function HandlesOf(edges: seq<BuilderEdge>): set<string> {
    set e | e in edges :: e.targetHandle
  }

  function FirstFrom(source: string, edges: seq<BuilderEdge>): (first: Option<BuilderEdge>)
    ensures first.Some? ==> first.value in edges && first.value.source == source
    ensures first.None? ==> forall e :: e in edges ==> e.source != source
  {
    if edges == [] then None
    else if edges[0].source == source then Some(edges[0])
    else FirstFrom(source, edges[1..])
  }

  function NameOfHandle(id: string, handles: seq<NodeHandle>): string {
    if handles == [] then ""
    else if handles[0].id == id then handles[0].name
    else NameOfHandle(id, handles[1..])
  }

  /** The label under which the group's first edge from the result node streams, or nothing. */
  function ResultKey(group: seq<BuilderEdge>, nodes: NodeMap): string {
    var first := FirstFrom(RESULT_NODE_ID, group);
    if first.Some? && RESULT_NODE_ID in nodes && nodes[RESULT_NODE_ID].data.handles.Some? then
      NameOfHandle(first.value.sourceHandle, nodes[RESULT_NODE_ID].data.handles.value)
    else ""
  }

  function OutputOf(handle: string, out: seq<BuilderEdge>, nodes: NodeMap): RunnerOutput {
    RunnerOutput(HandleType(handle), ResultKey(WithHandle(handle, out), nodes))
  }

  function OutputsInOrder(order: seq<string>, out: seq<BuilderEdge>, nodes: NodeMap): Outputs {
    if order == [] then map[]
    else
      var before, h := OutputsInOrder(order[..|order| - 1], out, nodes), order[|order| - 1];
      if WellFormed(h) then before[HandleName(h) := OutputOf(h, out, nodes)] else before
  }

  ghost predicate Lists(order: seq<string>, handles: set<string>) {
    NoDup(order) && forall h :: h in order <==> h in handles
  }

  /** Nodes whose outputs are all renamed to one "response". */
  predicate Renames(kind: string) {
    kind == "chat-openai" || kind == "llm"
  }

  ghost predicate Renamed(kind: string, outputs: Outputs, r: Outputs) {
    if Renames(kind) && outputs != map[] then exists name :: name in outputs && r == map["response" := outputs[name]]
    else r == outputs
  }

  ghost predicate Arises(order: seq<string>, kind: string, out: seq<BuilderEdge>, nodes: NodeMap, r: Outputs) {
    Lists(order, HandlesOf(out)) && Renamed(kind, OutputsInOrder(order, out, nodes), r)
  }

  ghost predicate Possible(nodeId: string, edges: seq<BuilderEdge>, nodes: NodeMap, r: Outputs) {
    if nodeId !in nodes then r == map[]
    else
      var out, kind := OutEdges(nodeId, edges), nodes[nodeId].kind;
      if out == [] && Renames(kind) then r == map["response" := RunnerOutput("text", "")]
      else exists order :: Arises(order, kind, out, nodes, r)
  }

  method BuildNodeOutputs(nodeId: string, edges: seq<BuilderEdge>, nodes: NodeMap) returns (outputs: Outputs)
    ensures Possible(nodeId, edges, nodes, outputs)
    ensures OutputsDrawn(nodeId, edges, nodes, outputs)
  {
    outputs := map[];
    if nodeId !in nodes {
      return;
    }
    var node := nodes[nodeId];
    var outEdges: seq<BuilderEdge> := [];
    for i := 0 to |edges|
      invariant outEdges == OutEdges(nodeId, edges[..i])
    {
      assert edges[..i + 1][..i] == edges[..i];
      if edges[i].target == nodeId {
        outEdges := outEdges + [edges[i]];
      }
    }
    assert edges[..|edges|] == edges;
    var byHandle := GroupByHandle(outEdges);
    if outEdges == [] && (node.kind == "chat-openai" || node.kind == "llm") {
      outputs := map["response" := RunnerOutput("text", "")];
      OutputsAreDrawn(nodeId, edges, nodes, outputs);
      return;
    }
    ghost var order;
    outputs, order := ProcessHandles(byHandle, outEdges, nodes);
    ghost var collected := outputs;
    if (node.kind == "chat-openai" || node.kind == "llm") && outputs != map[] {
      assert outputs.Keys != {};
      var name :| name in outputs;
      outputs := map["response" := outputs[name]];
    }
    assert Renamed(node.kind, collected, outputs);
    assert Arises(order, node.kind, outEdges, nodes, outputs);
    OutputsAreDrawn(nodeId, edges, nodes, outputs);
  }

  lemma OrderNext(order: seq<string>, handles: set<string>, remaining: set<string>, h: string)
    requires Lists(order, handles - remaining) && h in remaining && remaining <= handles
    ensures Lists(order + [h], handles - (remaining - {h}))
  {
    NoDupSnoc(order, h);
  }

  lemma OutputsNext(order: seq<string>, out: seq<BuilderEdge>, nodes: NodeMap, h: string)
    ensures OutputsInOrder(order + [h], out, nodes) ==
              if WellFormed(h) then OutputsInOrder(order, out, nodes)[HandleName(h) := OutputOf(h, out, nodes)]
              else OutputsInOrder(order, out, nodes)
  {
    assert (order + [h])[..|order|] == order;
  }

  /** Ranges over the grouped edges in whatever order the map yields them. */
  method ProcessHandles(byHandle: map<string, seq<BuilderEdge>>, ghost out: seq<BuilderEdge>, nodes: NodeMap)
    returns (outputs: Outputs, ghost order: seq<string>)
    requires byHandle.Keys == HandlesOf(out) && forall h :: h in byHandle ==> byHandle[h] == WithHandle(h, out)
    ensures Lists(order, HandlesOf(out)) && outputs == OutputsInOrder(order, out, nodes)
  {
    outputs, order := map[], [];
    var remaining := byHandle.Keys;
    while remaining != {}
      invariant remaining <= byHandle.Keys
      invariant Lists(order, byHandle.Keys - remaining)
      invariant outputs == OutputsInOrder(order, out, nodes)
      decreases |remaining|
    {
      var targetHandle :| targetHandle in remaining;
      OrderNext(order, byHandle.Keys, remaining, targetHandle);
      OutputsNext(order, out, nodes, targetHandle);
      remaining := remaining - {targetHandle};
      order := order + [targetHandle];
      var targetHandleParts := ParseHandle(targetHandle);
      if |targetHandleParts| == 2 {
        var resultKey := FindResultKey(byHandle[targetHandle], nodes);
        outputs := outputs[targetHandleParts[1] := RunnerOutput(targetHandleParts[0], resultKey)];
      }
    }
  }

  lemma WithHandleStep(handle: string, edges: seq<BuilderEdge>, i: nat)
    requires i < |edges|
    ensures WithHandle(handle, edges[..i + 1]) ==
            WithHandle(handle, edges[..i]) + if edges[i].targetHandle == handle then [edges[i]] else []
  {
    assert edges[..i + 1][..i] == edges[..i];
  }

  lemma NoGroup(handle: string, edges: seq<BuilderEdge>)
    requires handle !in HandlesOf(edges)
    ensures WithHandle(handle, edges) == []
  {
    HasMember(WithHandle(handle, edges));
  }

  lemma HandlesStep(edges: seq<BuilderEdge>, i: nat)
    requires i < |edges|
    ensures HandlesOf(edges[..i + 1]) == HandlesOf(edges[..i]) + {edges[i].targetHandle}
  {
    assert edges[..i + 1] == edges[..i] + [edges[i]];
  }

  method GroupByHandle(edges: seq<BuilderEdge>) returns (byHandle: map<string, seq<BuilderEdge>>)
    ensures byHandle.Keys == HandlesOf(edges)
    ensures forall h :: h in byHandle ==> byHandle[h] == WithHandle(h, edges)
  {
    byHandle := map[];
    for i := 0 to |edges|
      invariant byHandle.Keys == HandlesOf(edges[..i])
      invariant forall h :: h in byHandle ==> byHandle[h] == WithHandle(h, edges[..i])
    {
      var handle := edges[i].targetHandle;
      HandlesStep(edges, i);
      forall h ensures WithHandle(h, edges[..i + 1]) ==
                       WithHandle(h, edges[..i]) + if handle == h then [edges[i]] else [] {
        WithHandleStep(h, edges, i);
      }
      if handle !in byHandle { NoGroup(handle, edges[..i]); }
      byHandle := byHandle[handle := (if handle in byHandle then byHandle[handle] else []) + [edges[i]]];
    }
    assert edges[..|edges|] == edges;
  }

  method FindResultKey(group: seq<BuilderEdge>, nodes: NodeMap) returns (resultKey: string)
    ensures resultKey == ResultKey(group, nodes)
  {
    resultKey := "";
    var i := 0;
    while i < |group|
      invariant 0 <= i <= |group| && resultKey == ""
      invariant FirstFrom(RESULT_NODE_ID, group) == FirstFrom(RESULT_NODE_ID, group[i..])
    {
      if group[i].source == RESULT_NODE_ID {
        if RESULT_NODE_ID in nodes && nodes[RESULT_NODE_ID].data.handles.Some? {
          var handles := nodes[RESULT_NODE_ID].data.handles.value;
          var k := 0;
          while k < |handles|
            invariant 0 <= k <= |handles| && resultKey == ""
            invariant NameOfHandle(group[i].sourceHandle, handles) == NameOfHandle(group[i].sourceHandle, handles[k..])
          {
            if handles[k].id == group[i].sourceHandle {
              resultKey := handles[k].name;
              break;
            }
            assert handles[k..][1..] == handles[k + 1..];
            k := k + 1;
          }
        }
        break;
      }
      assert group[i..][1..] == group[i + 1..];
      i := i + 1;
    }
  }

  // ---------------------------------------------------------------- what the outputs say

  /** Every well-formed handle yields an output under its name, and nothing else does. */
  lemma {:induction false} OutputsComeFromHandles(order: seq<string>, out: seq<BuilderEdge>, nodes: NodeMap, name: string)
    ensures name in OutputsInOrder(order, out, nodes) ==>
              exists h :: h in order && WellFormed(h) && HandleName(h) == name &&
                          OutputsInOrder(order, out, nodes)[name] == OutputOf(h, out, nodes)
    ensures (exists h :: h in order && WellFormed(h) && HandleName(h) == name) ==> name in OutputsInOrder(order, out, nodes)
  {
    if order != [] {
      OutputsComeFromHandles(order[..|order| - 1], out, nodes, name);
      assert order == order[..|order| - 1] + [order[|order| - 1]];
    }
  }

  /** No two well-formed handles of the node share a name. */
  ghost predicate DistinctNames(handles: set<string>) {
    forall h, k :: h in handles && k in handles && WellFormed(h) && WellFormed(k) && HandleName(h) == HandleName(k) ==> h == k
  }

  lemma SameOutput(order: seq<string>, order': seq<string>, out: seq<BuilderEdge>, nodes: NodeMap, name: string)
    requires Lists(order, HandlesOf(out)) && Lists(order', HandlesOf(out)) && DistinctNames(HandlesOf(out))
    ensures name in OutputsInOrder(order, out, nodes) <==> name in OutputsInOrder(order', out, nodes)
    ensures name in OutputsInOrder(order, out, nodes) ==>
              OutputsInOrder(order, out, nodes)[name] == OutputsInOrder(order', out, nodes)[name]
  {
    OutputsComeFromHandles(order, out, nodes, name);
    OutputsComeFromHandles(order', out, nodes, name);
  }

  lemma {:induction false} Listing(handles: set<string>) returns (order: seq<string>)
    ensures Lists(order, handles)
    decreases |handles|
  {
    if handles == {} {
      order := [];
    } else {
      var h :| h in handles;
      order := Listing(handles - {h});
      NoDupSnoc(order, h);
      order := order + [h];
    }
  }

  /** Some order ranges over a given handle last. */
  lemma LastInOrder(out: seq<BuilderEdge>, nodes: NodeMap, h: string) returns (order: seq<string>)
    requires h in HandlesOf(out) && WellFormed(h)
    ensures Lists(order, HandlesOf(out))
    ensures HandleName(h) in OutputsInOrder(order, out, nodes)
    ensures OutputsInOrder(order, out, nodes)[HandleName(h)] == OutputOf(h, out, nodes)
  {
    var front := Listing(HandlesOf(out) - {h});
    NoDupSnoc(front, h);
    order := front + [h];
    assert order[..|order| - 1] == front;
  }

  lemma HandleIsTypeAndName(h: string, k: string)
    requires WellFormed(h) && WellFormed(k) && HandleType(h) == HandleType(k) && HandleName(h) == HandleName(k)
    ensures h == k
  {
    JoinSplit(h, "__");
    JoinSplit(k, "__");
    assert ParseHandle(h) == [HandleType(h), HandleName(h)] == ParseHandle(k);
  }

  /** Before any rename, the iteration order is unobservable exactly when no two handles share a name. */
  lemma OrderUnobservableIffDistinct(out: seq<BuilderEdge>, nodes: NodeMap)
    ensures DistinctNames(HandlesOf(out)) <==>
            forall order, order' :: Lists(order, HandlesOf(out)) && Lists(order', HandlesOf(out)) ==>
              OutputsInOrder(order, out, nodes) == OutputsInOrder(order', out, nodes)
  {
    if DistinctNames(HandlesOf(out)) {
      forall order, order' | Lists(order, HandlesOf(out)) && Lists(order', HandlesOf(out))
        ensures OutputsInOrder(order, out, nodes) == OutputsInOrder(order', out, nodes)
      {
        SameOutputs(order, order', out, nodes);
      }
    } else {
      var h, k :| h in HandlesOf(out) && k in HandlesOf(out) && WellFormed(h) && WellFormed(k) &&
                  HandleName(h) == HandleName(k) && h != k;
      var order := LastInOrder(out, nodes, h);
      var order' := LastInOrder(out, nodes, k);
      if HandleType(h) == HandleType(k) { HandleIsTypeAndName(h, k); }
      assert OutputsInOrder(order, out, nodes)[HandleName(h)] != OutputsInOrder(order', out, nodes)[HandleName(h)];
    }
  }

  lemma SameOutputs(order: seq<string>, order': seq<string>, out: seq<BuilderEdge>, nodes: NodeMap)
    requires Lists(order, HandlesOf(out)) && Lists(order', HandlesOf(out)) && DistinctNames(HandlesOf(out))
    ensures OutputsInOrder(order, out, nodes) == OutputsInOrder(order', out, nodes)
  {
    var o, o' := OutputsInOrder(order, out, nodes), OutputsInOrder(order', out, nodes);
    forall name ensures name in o <==> name in o' {
      SameOutput(order, order', out, nodes, name);
    }
    forall name | name in o ensures o[name] == o'[name] {
      SameOutput(order, order', out, nodes, name);
    }
  }

  /** Every output a map order can leave over for "response" is the same. */
  ghost predicate OneOutput(out: seq<BuilderEdge>, nodes: NodeMap) {
    forall h, k :: h in HandlesOf(out) && k in HandlesOf(out) && WellFormed(h) && WellFormed(k) ==>
      OutputOf(h, out, nodes) == OutputOf(k, out, nodes)
  }

  /** What a drawing must satisfy for the outputs of the node to be independent of the map order. */
  ghost predicate OrderFree(nodeId: string, edges: seq<BuilderEdge>, nodes: NodeMap) {
    nodeId in nodes ==>
      if Renames(nodes[nodeId].kind) then OneOutput(OutEdges(nodeId, edges), nodes)
      else DistinctNames(HandlesOf(OutEdges(nodeId, edges)))
  }

  ghost predicate SameResult(nodeId: string, edges: seq<BuilderEdge>, nodes: NodeMap, r: Outputs, r': Outputs) {
    Possible(nodeId, edges, nodes, r) && Possible(nodeId, edges, nodes, r') ==> r == r'
  }

  lemma ValueComesFromHandle(order: seq<string>, out: seq<BuilderEdge>, nodes: NodeMap, name: string) returns (h: string)
    requires Lists(order, HandlesOf(out)) && name in OutputsInOrder(order, out, nodes)
    ensures h in HandlesOf(out) && WellFormed(h) && HandleName(h) == name
    ensures OutputsInOrder(order, out, nodes)[name] == OutputOf(h, out, nodes)
  {
    OutputsComeFromHandles(order, out, nodes, name);
    h :| h in order && WellFormed(h) && HandleName(h) == name &&
         OutputsInOrder(order, out, nodes)[name] == OutputOf(h, out, nodes);
  }

  lemma SomeOutputIff(order: seq<string>, out: seq<BuilderEdge>, nodes: NodeMap)
    requires Lists(order, HandlesOf(out))
    ensures OutputsInOrder(order, out, nodes) == map[] <==> forall h :: h in HandlesOf(out) ==> !WellFormed(h)
  {
    if h :| h in HandlesOf(out) && WellFormed(h) {
      OutputsComeFromHandles(order, out, nodes, HandleName(h));
    } else {
      forall name ensures name !in OutputsInOrder(order, out, nodes) {
        OutputsComeFromHandles(order, out, nodes, name);
      }
    }
  }

  lemma RenamedAlike(order: seq<string>, order': seq<string>, kind: string, out: seq<BuilderEdge>, nodes: NodeMap,
                     r: Outputs, r': Outputs)
    requires Renames(kind) && OneOutput(out, nodes)
    requires Arises(order, kind, out, nodes, r) && Arises(order', kind, out, nodes, r')
    ensures r == r'
  {
    var o, o' := OutputsInOrder(order, out, nodes), OutputsInOrder(order', out, nodes);
    SomeOutputIff(order, out, nodes);
    SomeOutputIff(order', out, nodes);
    if o != map[] {
      var name :| name in o && r == map["response" := o[name]];
      var name' :| name' in o' && r' == map["response" := o'[name']];
      var h := ValueComesFromHandle(order, out, nodes, name);
      var k := ValueComesFromHandle(order', out, nodes, name');
    }
  }

  lemma OrderFreeIsUnobservable(nodeId: string, edges: seq<BuilderEdge>, nodes: NodeMap, r: Outputs, r': Outputs)
    requires OrderFree(nodeId, edges, nodes)
    ensures SameResult(nodeId, edges, nodes, r, r')
  {
    if nodeId in nodes && Possible(nodeId, edges, nodes, r) && Possible(nodeId, edges, nodes, r') {
      var out, kind := OutEdges(nodeId, edges), nodes[nodeId].kind;
      if !(out == [] && Renames(kind)) {
        var order :| Arises(order, kind, out, nodes, r);
        var order' :| Arises(order', kind, out, nodes, r');
        if Renames(kind) {
          RenamedAlike(order, order', kind, out, nodes, r, r');
        } else {
          SameOutputs(order, order', out, nodes);
        }
      }
    }
  }

  /** A renaming node can answer with the output of any of its well-formed handles. */
  lemma AnyHandleCanWin(nodeId: string, edges: seq<BuilderEdge>, nodes: NodeMap, h: string) returns (r: Outputs)
    requires nodeId in nodes && Renames(nodes[nodeId].kind)
    requires h in HandlesOf(OutEdges(nodeId, edges)) && WellFormed(h)
    ensures Possible(nodeId, edges, nodes, r) && r == map["response" := OutputOf(h, OutEdges(nodeId, edges), nodes)]
  {
    var out := OutEdges(nodeId, edges);
    var order := LastInOrder(out, nodes, h);
    r := map["response" := OutputOf(h, out, nodes)];
    assert HandleName(h) in OutputsInOrder(order, out, nodes);
    assert Arises(order, nodes[nodeId].kind, out, nodes, r);
  }

  lemma ClashIsObservable(nodeId: string, edges: seq<BuilderEdge>, nodes: NodeMap) returns (r: Outputs, r': Outputs)
    requires nodeId in nodes && !Renames(nodes[nodeId].kind) && !DistinctNames(HandlesOf(OutEdges(nodeId, edges)))
    ensures !SameResult(nodeId, edges, nodes, r, r')
  {
    var out, kind := OutEdges(nodeId, edges), nodes[nodeId].kind;
    OrderUnobservableIffDistinct(out, nodes);
    var order, order' :| Lists(order, HandlesOf(out)) && Lists(order', HandlesOf(out)) &&
                         OutputsInOrder(order, out, nodes) != OutputsInOrder(order', out, nodes);
    r, r' := OutputsInOrder(order, out, nodes), OutputsInOrder(order', out, nodes);
    assert Arises(order, kind, out, nodes, r) && Arises(order', kind, out, nodes, r');
  }

  /**
   The iteration order of the Go map cannot be observed exactly when the well-formed handles of the node have
   distinct names or, for a node that renames to "response", all give the same output.
   */
  lemma OrderIsUnobservableIffFree(nodeId: string, edges: seq<BuilderEdge>, nodes: NodeMap)
    ensures (forall r, r' :: SameResult(nodeId, edges, nodes, r, r')) <==> OrderFree(nodeId, edges, nodes)
  {
    if OrderFree(nodeId, edges, nodes) {
      forall r, r' ensures SameResult(nodeId, edges, nodes, r, r') { OrderFreeIsUnobservable(nodeId, edges, nodes, r, r'); }
    } else if Renames(nodes[nodeId].kind) {
      var out := OutEdges(nodeId, edges);
      var h, k :| h in HandlesOf(out) && k in HandlesOf(out) && WellFormed(h) && WellFormed(k) &&
                  OutputOf(h, out, nodes) != OutputOf(k, out, nodes);
      var r := AnyHandleCanWin(nodeId, edges, nodes, h);
      var r' := AnyHandleCanWin(nodeId, edges, nodes, k);
      assert r["response"] != r'["response"];
      assert !SameResult(nodeId, edges, nodes, r, r');
    } else {
      var r, r' := ClashIsObservable(nodeId, edges, nodes);
    }
  }

  lemma TwoParts(kind: string, name: string)
    requires '_' !in kind && '_' !in name
    ensures WellFormed(kind + "__" + name) && HandleType(kind + "__" + name) == kind && HandleName(kind + "__" + name) == name
  {
    SplitPair(kind, "__", name);
  }

  function Plain(id: string, kind: string): BuilderNode {
    BuilderNode(id, kind, NodeData(None, None, None))
  }

  lemma TwoTypesClash(nodeId: string, edges: seq<BuilderEdge>, nodes: NodeMap, h: string, k: string)
    requires nodeId in nodes && Renames(nodes[nodeId].kind) && WellFormed(h) && WellFormed(k) && HandleType(h) != HandleType(k)
    requires h in HandlesOf(OutEdges(nodeId, edges)) && k in HandlesOf(OutEdges(nodeId, edges))
    ensures !OrderFree(nodeId, edges, nodes)
  {
    assert OutputOf(h, OutEdges(nodeId, edges), nodes) != OutputOf(k, OutEdges(nodeId, edges), nodes);
  }

  /** A drawing that shows it: a chat node with a text handle and an image handle may answer as either. */
  lemma RenameCanPickEither() returns (edges: seq<BuilderEdge>, nodes: NodeMap)
    ensures "chat" in nodes && nodes["chat"].kind == "chat-openai" && !OrderFree("chat", edges, nodes)
  {
    var h, k := "text" + "__" + "a", "image" + "__" + "b";
    edges := [BuilderEdge("x", "chat", "text__in", h), BuilderEdge("y", "chat", "text__in", k)];
    nodes := map["chat" := Plain("chat", "chat-openai")];
    TwoParts("text", "a");
    TwoParts("image", "b");
    assert |"text"| != |"image"|;
    assert edges[0] in edges && edges[1] in edges;
    assert edges[0] in OutEdges("chat", edges) && edges[1] in OutEdges("chat", edges);
    TwoTypesClash("chat", edges, nodes, h, k);
  }

  // ---------------------------------------------------------------- the outputs in terms of the drawing

  function ResultHandles(nodes: NodeMap): seq<NodeHandle> {
    if RESULT_NODE_ID in nodes && nodes[RESULT_NODE_ID].data.handles.Some? then nodes[RESULT_NODE_ID].data.handles.value
    else []
  }

  /** The edge leads from handle `h` of the node to the result node. */
  ghost predicate ToResult(nodeId: string, e: BuilderEdge, h: string) {
    e.target == nodeId && e.targetHandle == h && e.source == RESULT_NODE_ID
  }

  ghost predicate FirstToResult(nodeId: string, edges: seq<BuilderEdge>, h: string, i: int) {
    && 0 <= i < |edges| && ToResult(nodeId, edges[i], h)
    && forall j :: 0 <= j < i ==> !ToResult(nodeId, edges[j], h)
  }

  ghost predicate FirstNamed(handles: seq<NodeHandle>, id: string, k: int) {
    0 <= k < |handles| && handles[k].id == id && forall l :: 0 <= l < k ==> handles[l].id != id
  }

  /** The first edge to the result node and the first handle of its id there give the label; else there is none. */
  ghost predicate IsKey(nodeId: string, edges: seq<BuilderEdge>, nodes: NodeMap, h: string, key: string) {
    var handles := ResultHandles(nodes);
    && (forall i, k :: FirstToResult(nodeId, edges, h, i) && FirstNamed(handles, edges[i].sourceHandle, k) ==>
          key == handles[k].name)
    && ((forall i, k :: FirstToResult(nodeId, edges, h, i) ==> !FirstNamed(handles, edges[i].sourceHandle, k)) ==> key == "")
  }

  lemma {:induction false} FirstFromSnoc(source: string, group: seq<BuilderEdge>, e: BuilderEdge)
    ensures FirstFrom(source, group + [e]) ==
              if FirstFrom(source, group).Some? then FirstFrom(source, group) else if e.source == source then Some(e) else None
  {
    if group == [] {
      assert group + [e] == [e];
    } else {
      ConsTail(group, [e]);
      FirstFromSnoc(source, group[1..], e);
    }
  }

  lemma GroupSnoc(nodeId: string, h: string, edges: seq<BuilderEdge>, e: BuilderEdge)
    ensures WithHandle(h, OutEdges(nodeId, edges + [e])) ==
            WithHandle(h, OutEdges(nodeId, edges)) + if e.target == nodeId && e.targetHandle == h then [e] else []
  {
    assert (edges + [e])[..|edges|] == edges;
    var before := OutEdges(nodeId, edges);
    assert (before + [e])[..|before|] == before;
  }

  ghost predicate FirstIs(nodeId: string, edges: seq<BuilderEdge>, h: string, first: Option<BuilderEdge>) {
    match first
    case Some(e) => exists i :: FirstToResult(nodeId, edges, h, i) && edges[i] == e
    case None => forall j :: 0 <= j < |edges| ==> !ToResult(nodeId, edges[j], h)
  }

  lemma FirstNext(nodeId: string, edges: seq<BuilderEdge>, h: string, first: Option<BuilderEdge>, e: BuilderEdge)
    requires FirstIs(nodeId, edges, h, first)
    ensures FirstIs(nodeId, edges + [e], h, if first.None? && ToResult(nodeId, e, h) then Some(e) else first)
  {
    if first.Some? {
      var i :| FirstToResult(nodeId, edges, h, i) && edges[i] == first.value;
      assert FirstToResult(nodeId, edges + [e], h, i);
    } else if ToResult(nodeId, e, h) {
      assert FirstToResult(nodeId, edges + [e], h, |edges|);
    }
  }

  lemma FirstStep(nodeId: string, edges: seq<BuilderEdge>, h: string, e: BuilderEdge)
    requires FirstIs(nodeId, edges, h, FirstFrom(RESULT_NODE_ID, WithHandle(h, OutEdges(nodeId, edges))))
    ensures FirstIs(nodeId, edges + [e], h, FirstFrom(RESULT_NODE_ID, WithHandle(h, OutEdges(nodeId, edges + [e]))))
  {
    var group := WithHandle(h, OutEdges(nodeId, edges));
    FirstNext(nodeId, edges, h, FirstFrom(RESULT_NODE_ID, group), e);
    GroupSnoc(nodeId, h, edges, e);
    FirstFromSnoc(RESULT_NODE_ID, group, e);
  }

  lemma {:induction false} FirstToResultIs(nodeId: string, edges: seq<BuilderEdge>, h: string)
    ensures FirstIs(nodeId, edges, h, FirstFrom(RESULT_NODE_ID, WithHandle(h, OutEdges(nodeId, edges))))
  {
    if edges != [] {
      FirstToResultIs(nodeId, edges[..|edges| - 1], h);
      FirstStep(nodeId, edges[..|edges| - 1], h, edges[|edges| - 1]);
      assert edges[..|edges| - 1] + [edges[|edges| - 1]] == edges;
    }
  }

  lemma {:induction false} NameIs(id: string, handles: seq<NodeHandle>)
    ensures forall k :: FirstNamed(handles, id, k) ==> NameOfHandle(id, handles) == handles[k].name
    ensures (forall k :: !FirstNamed(handles, id, k)) ==> NameOfHandle(id, handles) == ""
  {
    if handles != [] {
      if handles[0].id == id {
        assert FirstNamed(handles, id, 0);
      } else {
        NameIs(id, handles[1..]);
        assert forall k :: FirstNamed(handles, id, k) <==> k > 0 && FirstNamed(handles[1..], id, k - 1);
        assert forall k :: FirstNamed(handles[1..], id, k) ==> FirstNamed(handles, id, k + 1);
      }
    }
  }

  lemma OneFirst(nodeId: string, edges: seq<BuilderEdge>, h: string, i: int, j: int)
    requires FirstToResult(nodeId, edges, h, i) && FirstToResult(nodeId, edges, h, j)
    ensures i == j
  {}

  lemma KeyIs(nodeId: string, edges: seq<BuilderEdge>, nodes: NodeMap, h: string)
    ensures IsKey(nodeId, edges, nodes, h, ResultKey(WithHandle(h, OutEdges(nodeId, edges)), nodes))
  {
    var first := FirstFrom(RESULT_NODE_ID, WithHandle(h, OutEdges(nodeId, edges)));
    FirstToResultIs(nodeId, edges, h);
    if first.Some? {
      var i :| FirstToResult(nodeId, edges, h, i) && edges[i] == first.value;
      NameIs(first.value.sourceHandle, ResultHandles(nodes));
      forall j | FirstToResult(nodeId, edges, h, j) ensures j == i { OneFirst(nodeId, edges, h, i, j); }
    }
  }

  ghost predicate LeavesBy(nodeId: string, edges: seq<BuilderEdge>, h: string) {
    exists e :: e in edges && e.target == nodeId && e.targetHandle == h
  }

  /** Output `name` stands for handle `h` of the node: an edge leaves by it, and it reads "type__name". */
  ghost predicate StandsFor(nodeId: string, edges: seq<BuilderEdge>, nodes: NodeMap, h: string, output: RunnerOutput) {
    && LeavesBy(nodeId, edges, h) && |ParseHandle(h)| == 2
    && output.kind == ParseHandle(h)[0] && IsKey(nodeId, edges, nodes, h, output.resultKey)
  }

  ghost predicate HasHandle(nodeId: string, edges: seq<BuilderEdge>, name: string) {
    exists h :: LeavesBy(nodeId, edges, h) && |ParseHandle(h)| == 2 && ParseHandle(h)[1] == name
  }

  /** Each name of a handle of the node, and no other, is an output, and stands for a handle of that name. */
  ghost predicate NamedOutputs(nodeId: string, edges: seq<BuilderEdge>, nodes: NodeMap, r: Outputs) {
    && (forall name :: name in r <==> HasHandle(nodeId, edges, name))
    && forall name :: name in r ==>
         exists h :: StandsFor(nodeId, edges, nodes, h, r[name]) && ParseHandle(h)[1] == name
  }

  /** There is one output "response"; it stands for some handle, or is plain text when no edge leaves the node. */
  ghost predicate OneResponse(nodeId: string, edges: seq<BuilderEdge>, nodes: NodeMap, r: Outputs) {
    if forall e :: e in edges ==> e.target != nodeId then r == map["response" := RunnerOutput("text", "")]
    else if forall name :: !HasHandle(nodeId, edges, name) then r == map[]
    else exists h, output :: r == map["response" := output] && StandsFor(nodeId, edges, nodes, h, output)
  }

  /** The outputs of a node in terms of the edges that leave it. */
  ghost predicate OutputsDrawn(nodeId: string, edges: seq<BuilderEdge>, nodes: NodeMap, r: Outputs) {
    if nodeId !in nodes then r == map[]
    else if nodes[nodeId].kind == "chat-openai" || nodes[nodeId].kind == "llm" then OneResponse(nodeId, edges, nodes, r)
    else NamedOutputs(nodeId, edges, nodes, r)
  }

  lemma HandlesLeave(nodeId: string, edges: seq<BuilderEdge>, h: string)
    ensures h in HandlesOf(OutEdges(nodeId, edges)) <==> LeavesBy(nodeId, edges, h)
  {
    if e :| e in edges && e.target == nodeId && e.targetHandle == h { assert e in OutEdges(nodeId, edges); }
  }

  lemma OutputStandsFor(nodeId: string, edges: seq<BuilderEdge>, nodes: NodeMap, h: string)
    requires h in HandlesOf(OutEdges(nodeId, edges)) && WellFormed(h)
    ensures StandsFor(nodeId, edges, nodes, h, OutputOf(h, OutEdges(nodeId, edges), nodes))
  {
    HandlesLeave(nodeId, edges, h);
    KeyIs(nodeId, edges, nodes, h);
  }

  lemma NamesAreHandles(nodeId: string, edges: seq<BuilderEdge>, nodes: NodeMap, order: seq<string>, name: string)
    requires Lists(order, HandlesOf(OutEdges(nodeId, edges)))
    ensures name in OutputsInOrder(order, OutEdges(nodeId, edges), nodes) <==> HasHandle(nodeId, edges, name)
  {
    var out := OutEdges(nodeId, edges);
    OutputsComeFromHandles(order, out, nodes, name);
    forall h ensures h in HandlesOf(out) <==> LeavesBy(nodeId, edges, h) { HandlesLeave(nodeId, edges, h); }
    if name in OutputsInOrder(order, out, nodes) { var h := ValueComesFromHandle(order, out, nodes, name); }
  }

  lemma InOrderIsNamed(nodeId: string, edges: seq<BuilderEdge>, nodes: NodeMap, order: seq<string>)
    requires Lists(order, HandlesOf(OutEdges(nodeId, edges)))
    ensures NamedOutputs(nodeId, edges, nodes, OutputsInOrder(order, OutEdges(nodeId, edges), nodes))
  {
    var out := OutEdges(nodeId, edges);
    var r := OutputsInOrder(order, out, nodes);
    forall name ensures name in r <==> HasHandle(nodeId, edges, name) { NamesAreHandles(nodeId, edges, nodes, order, name); }
    forall name | name in r ensures exists h :: StandsFor(nodeId, edges, nodes, h, r[name]) && ParseHandle(h)[1] == name {
      var h := ValueComesFromHandle(order, out, nodes, name);
      OutputStandsFor(nodeId, edges, nodes, h);
    }
  }

  lemma RenamedIsResponse(nodeId: string, edges: seq<BuilderEdge>, nodes: NodeMap, o: Outputs, r: Outputs)
    requires NamedOutputs(nodeId, edges, nodes, o) && exists e :: e in edges && e.target == nodeId
    requires if o != map[] then exists name :: name in o && r == map["response" := o[name]] else r == o
    ensures OneResponse(nodeId, edges, nodes, r)
  {
    if o != map[] {
      var name :| name in o && r == map["response" := o[name]];
      var h :| StandsFor(nodeId, edges, nodes, h, o[name]);
      assert HasHandle(nodeId, edges, name);
    }
  }

  /** Whatever order the map yields, the outputs are as drawn. */
  lemma OutputsAreDrawn(nodeId: string, edges: seq<BuilderEdge>, nodes: NodeMap, r: Outputs)
    requires Possible(nodeId, edges, nodes, r)
    ensures OutputsDrawn(nodeId, edges, nodes, r)
  {
    if nodeId in nodes {
      var out, kind := OutEdges(nodeId, edges), nodes[nodeId].kind;
      HasMember(out);
      if !(out == [] && Renames(kind)) {
        var order :| Arises(order, kind, out, nodes, r);
        InOrderIsNamed(nodeId, edges, nodes, order);
        if Renames(kind) { RenamedIsResponse(nodeId, edges, nodes, OutputsInOrder(order, out, nodes), r); }
      }
    }
  }

  // ---------------------------------------------------------------- streamed and final results

  ghost predicate DistinctHandles(handles: seq<NodeHandle>) {
    forall i, j :: 0 <= i < j < |handles| ==> handles[i].id != handles[j].id && handles[i].name != handles[j].name
  }

  /** Each handle of the result node has at most one edge. */
  ghost predicate OneEdgeEach(edges: seq<BuilderEdge>) {
    forall e, f :: e in edges && f in edges ==>
      (e.source == f.source == RESULT_NODE_ID && e.sourceHandle == f.sourceHandle ==> e == f)
  }

  lemma {:induction false} NamedHandle(id: string, handles: seq<NodeHandle>) returns (i: nat)
    requires NameOfHandle(id, handles) != ""
    ensures i < |handles| && handles[i].id == id && handles[i].name == NameOfHandle(id, handles)
  {
    if handles[0].id == id {
      i := 0;
    } else {
      i := NamedHandle(id, handles[1..]);
      i := i + 1;
    }
  }

  /** What the result node reads under a label. */
  function ReadAs(edges: seq<BuilderEdge>, nodes: NodeMap, key: string): Option<string> {
    var inputs := ResultInputs(RESULT_NODE_ID, ResultHandles(nodes), edges);
    if key in inputs then Some(inputs[key].source) else None
  }

  /** Edge `e` makes handle `h` of the node stream under label `key`. */
  ghost predicate StreamsBy(nodeId: string, edges: seq<BuilderEdge>, nodes: NodeMap, h: string, key: string, e: BuilderEdge) {
    && FirstFrom(RESULT_NODE_ID, WithHandle(h, OutEdges(nodeId, edges))) == Some(e)
    && NameOfHandle(e.sourceHandle, ResultHandles(nodes)) == key != ""
  }

  lemma KeyHasEdge(nodeId: string, edges: seq<BuilderEdge>, nodes: NodeMap, h: string) returns (e: BuilderEdge)
    requires ResultKey(WithHandle(h, OutEdges(nodeId, edges)), nodes) != ""
    ensures StreamsBy(nodeId, edges, nodes, h, ResultKey(WithHandle(h, OutEdges(nodeId, edges)), nodes), e)
  {
    e := FirstFrom(RESULT_NODE_ID, WithHandle(h, OutEdges(nodeId, edges))).value;
  }

  lemma StreamingEdge(nodeId: string, edges: seq<BuilderEdge>, nodes: NodeMap, h: string, key: string, e: BuilderEdge)
    requires StreamsBy(nodeId, edges, nodes, h, key, e)
    ensures e in edges && e.source == RESULT_NODE_ID && e.target == nodeId && e.targetHandle == h
  {
    assert e in OutEdges(nodeId, edges);
  }

  /** Whatever streams under a label, the result node reads the first well-formed edge of that handle. */
  lemma FirstEdgeIsRead(nodeId: string, edges: seq<BuilderEdge>, nodes: NodeMap, h: string, key: string, e: BuilderEdge)
    requires WellFormed(h) && StreamsBy(nodeId, edges, nodes, h, key, e) && DistinctHandles(ResultHandles(nodes))
    ensures var first := FirstResultEdge(RESULT_NODE_ID, e.sourceHandle, edges);
            first.Some? && ReadAs(edges, nodes, key) == Some(SourceText(first.value))
  {
    var handles := ResultHandles(nodes);
    StreamingEdge(nodeId, edges, nodes, h, key, e);
    assert ResultEdge(RESULT_NODE_ID, e.sourceHandle, e);
    var i := NamedHandle(e.sourceHandle, handles);
    assert LastWired(RESULT_NODE_ID, handles, edges, key, i);
    FirstEdgePerHandle(RESULT_NODE_ID, handles, edges, key);
  }

  /** The handle behind an output that streams: the one of its name, or the one the rename took. */
  lemma StreamedHandle(nodeId: string, edges: seq<BuilderEdge>, nodes: NodeMap, r: Outputs, name: string) returns (h: string)
    requires Possible(nodeId, edges, nodes, r) && name in r && r[name].resultKey != "" && nodeId in nodes
    ensures WellFormed(h) && h in HandlesOf(OutEdges(nodeId, edges))
    ensures r[name].resultKey == ResultKey(WithHandle(h, OutEdges(nodeId, edges)), nodes)
    ensures if Renames(nodes[nodeId].kind) then name == "response" else name == HandleName(h)
  {
    var out, kind := OutEdges(nodeId, edges), nodes[nodeId].kind;
    var order :| Arises(order, kind, out, nodes, r);
    var o := OutputsInOrder(order, out, nodes);
    var name' := name;
    if Renames(kind) {
      name' :| name' in o && r == map["response" := o[name']];
    }
    h := ValueComesFromHandle(order, out, nodes, name');
  }

  /**
   Streamed and final results agree exactly when the first well-formed edge of the result handle is one to the
   output that streams: output `name` of the node streams under `key` by edge `e`, and the result node reads
   `key` from that output if and only if the first edge there has the same text.
   */
  lemma StreamedIsFinalIffFirst(nodeId: string, edges: seq<BuilderEdge>, nodes: NodeMap, r: Outputs, name: string)
    returns (h: string, e: BuilderEdge, first: BuilderEdge)
    requires Possible(nodeId, edges, nodes, r) && name in r && r[name].resultKey != "" && nodeId in nodes
    requires DistinctHandles(ResultHandles(nodes))
    ensures WellFormed(h) && StreamsBy(nodeId, edges, nodes, h, r[name].resultKey, e)
    ensures if Renames(nodes[nodeId].kind) then name == "response" else name == HandleName(h)
    ensures FirstResultEdge(RESULT_NODE_ID, e.sourceHandle, edges) == Some(first)
    ensures ReadAs(edges, nodes, r[name].resultKey) == Some(nodeId + "." + HandleName(h)) <==>
              SourceText(first) == nodeId + "." + HandleName(h)
    ensures ReadAs(edges, nodes, r[name].resultKey) == Some(nodeId + "." + name) <==>
              SourceText(first) == nodeId + "." + name
  {
    h := StreamedHandle(nodeId, edges, nodes, r, name);
    e := KeyHasEdge(nodeId, edges, nodes, h);
    FirstEdgeIsRead(nodeId, edges, nodes, h, r[name].resultKey, e);
    first := FirstResultEdge(RESULT_NODE_ID, e.sourceHandle, edges).value;
  }

  /** With one edge a result handle they agree; a renamed node's do exactly when its handle really is "response". */
  lemma StreamedIsFinal(nodeId: string, edges: seq<BuilderEdge>, nodes: NodeMap, r: Outputs, name: string)
    requires Possible(nodeId, edges, nodes, r) && name in r && r[name].resultKey != "" && nodeId in nodes
    requires OneEdgeEach(edges) && DistinctHandles(ResultHandles(nodes))
    ensures !Renames(nodes[nodeId].kind) ==> ReadAs(edges, nodes, r[name].resultKey) == Some(nodeId + "." + name)
    ensures Renames(nodes[nodeId].kind) ==>
              exists h :: h in HandlesOf(OutEdges(nodeId, edges)) && WellFormed(h) &&
                          ReadAs(edges, nodes, r[name].resultKey) == Some(nodeId + "." + HandleName(h)) &&
                          (ReadAs(edges, nodes, r[name].resultKey) == Some(nodeId + "." + name) <==> HandleName(h) == "response")
  {
    var h, e, first := StreamedIsFinalIffFirst(nodeId, edges, nodes, r, name);
    StreamingEdge(nodeId, edges, nodes, h, r[name].resultKey, e);
    assert first == e;
    if nodeId + "." + HandleName(h) == nodeId + "." + name { SuffixesEqual(nodeId + ".", HandleName(h), name); }
  }

  lemma OnlyEdgeStreams(nodeId: string, edges: seq<BuilderEdge>, e: BuilderEdge)
    requires e in edges && e.source == RESULT_NODE_ID && e.target == nodeId
    requires forall f :: f in edges && f.target == nodeId ==> f == e
    ensures FirstFrom(RESULT_NODE_ID, WithHandle(e.targetHandle, OutEdges(nodeId, edges))) == Some(e)
  {
    assert e in WithHandle(e.targetHandle, OutEdges(nodeId, edges));
  }

  /** Of two producers wired to one result handle, the second streams under the label and the first is read. */
  lemma SecondProducerLoses(d: BuilderEdge, e: BuilderEdge, nodes: NodeMap, h: NodeHandle)
    requires d.source == e.source == RESULT_NODE_ID && d.sourceHandle == e.sourceHandle == h.id && d.target != e.target
    requires WellFormed(d.targetHandle) && WellFormed(e.targetHandle)
    requires ResultHandles(nodes) == [h] && h.name != ""
    ensures StreamsBy(e.target, [d, e], nodes, e.targetHandle, h.name, e)
    ensures ReadAs([d, e], nodes, h.name) == Some(SourceText(d))
  {
    OnlyEdgeStreams(e.target, [d, e], e);
    FirstEdgeIsFirst(RESULT_NODE_ID, h.id, [d, e], 0);
    FirstEdgeIsRead(e.target, [d, e], nodes, e.targetHandle, h.name, e);
  }

  /** A drawing that shows it. */
  lemma TwoProducersDisagree() returns (edges: seq<BuilderEdge>, nodes: NodeMap, e: BuilderEdge)
    ensures WellFormed(e.targetHandle) && StreamsBy("b", edges, nodes, e.targetHandle, "answer", e)
    ensures SourceText(e) == "b" + "." + "y" && ReadAs(edges, nodes, "answer") == Some("a" + "." + "x")
  {
    TwoParts("text", "x");
    TwoParts("text", "y");
    var d, h := BuilderEdge(RESULT_NODE_ID, "a", "r", "text" + "__" + "x"), NodeHandle("text", "r", "answer");
    e := BuilderEdge(RESULT_NODE_ID, "b", "r", "text" + "__" + "y");
    edges := [d, e];
    nodes := map[RESULT_NODE_ID := BuilderNode(RESULT_NODE_ID, "result", NodeData(Some([h]), None, None))];
    assert "a"[0] != "b"[0];
    SecondProducerLoses(d, e, nodes, h);
  }
}
