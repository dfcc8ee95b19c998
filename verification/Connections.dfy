/** How the compiler turns edges into the inputs and outputs of runner nodes. */
module Connections {
  import opened Wrappers
  import opened Strings
  import opened Flow
  import opened Builder

  const MEMORY_PREFIX := "memory__"
  const TOOLS_PREFIX := "tools__"
  const AI_TYPE_PREFIX := "ai-model__"

  function ParseHandle(handle: string): seq<string> {
    Split(handle, "__")
  }

  /** A handle written "type__name". */
  predicate WellFormed(handle: string) {
    |ParseHandle(handle)| == 2
  }

  function HandleType(handle: string): string {
    ParseHandle(handle)[0]
  }

  function HandleName(handle: string): string
    requires WellFormed(handle)
  {
    ParseHandle(handle)[1]
  }

  // ---------------------------------------------------------------- inputs of ordinary nodes

  predicate Reserved(handle: string) {
    MEMORY_PREFIX <= handle || TOOLS_PREFIX <= handle || AI_TYPE_PREFIX <= handle
  }

  predicate InputEdge(nodeId: string, e: BuilderEdge) {
    !Reserved(e.targetHandle) && e.source == nodeId && WellFormed(e.sourceHandle) && WellFormed(e.targetHandle)
  }

  /** The runner reads this text back by splitting it at the dot. */
  function SourceText(e: BuilderEdge): string
    requires WellFormed(e.targetHandle)
  {
    e.target + "." + HandleName(e.targetHandle)
  }

  function NodeInputs(nodeId: string, edges: seq<BuilderEdge>): map<string, RunnerInput> {
    if edges == [] then map[]
    else
      var before, e := NodeInputs(nodeId, edges[..|edges| - 1]), edges[|edges| - 1];
      if InputEdge(nodeId, e) then
        before[HandleName(e.sourceHandle) := RunnerInput(HandleType(e.sourceHandle), SourceText(e))]
      else before
  }

  /** The edge feeds input `name` of the node: it attaches nothing, and both its handles have two parts. */
  ghost predicate FeedsInput(nodeId: string, e: BuilderEdge, name: string) {
    && e.source == nodeId
    && !("memory__" <= e.targetHandle) && !("tools__" <= e.targetHandle) && !("ai-model__" <= e.targetHandle)
    && |ParseHandle(e.sourceHandle)| == 2 && ParseHandle(e.sourceHandle)[1] == name && |ParseHandle(e.targetHandle)| == 2
  }

  ghost predicate Feeds(nodeId: string, edges: seq<BuilderEdge>, name: string, i: int) {
    0 <= i < |edges| && FeedsInput(nodeId, edges[i], name)
  }

  /** The input an edge stands for. */
  ghost predicate IsInput(e: BuilderEdge, input: RunnerInput) {
    && |ParseHandle(e.sourceHandle)| == 2 && |ParseHandle(e.targetHandle)| == 2
    && input.kind == ParseHandle(e.sourceHandle)[0]
    && input.source == e.target + "." + ParseHandle(e.targetHandle)[1]
  }

  lemma FedInput(nodeId: string, e: BuilderEdge, name: string)
    ensures FeedsInput(nodeId, e, name) <==> InputEdge(nodeId, e) && HandleName(e.sourceHandle) == name
    ensures FeedsInput(nodeId, e, name) ==> IsInput(e, RunnerInput(HandleType(e.sourceHandle), SourceText(e)))
  {}

  ghost predicate LastFeeder(nodeId: string, edges: seq<BuilderEdge>, name: string, i: int) {
    Feeds(nodeId, edges, name, i) && forall j :: i < j ==> !Feeds(nodeId, edges, name, j)
  }

  /** `name` is an input exactly when an edge feeds it, and then it is what the last such edge stands for. */
  ghost predicate LastGives(nodeId: string, edges: seq<BuilderEdge>, name: string, inputs: map<string, RunnerInput>) {
    && (name in inputs <==> exists i :: LastFeeder(nodeId, edges, name, i))
    && forall i :: LastFeeder(nodeId, edges, name, i) ==> name in inputs && IsInput(edges[i], inputs[name])
  }

  lemma LastOfMore(nodeId: string, edges: seq<BuilderEdge>, e: BuilderEdge, name: string, i: int)
    ensures LastFeeder(nodeId, edges + [e], name, i) <==>
              if FeedsInput(nodeId, e, name) then i == |edges| else LastFeeder(nodeId, edges, name, i)
  {
    assert forall j :: j != |edges| ==> (Feeds(nodeId, edges + [e], name, j) <==> Feeds(nodeId, edges, name, j));
    assert Feeds(nodeId, edges + [e], name, |edges|) <==> FeedsInput(nodeId, e, name);
  }

  lemma LastGivesMore(nodeId: string, edges: seq<BuilderEdge>, e: BuilderEdge, name: string,
                      inputs: map<string, RunnerInput>, inputs': map<string, RunnerInput>)
    requires LastGives(nodeId, edges, name, inputs)
    requires if FeedsInput(nodeId, e, name) then name in inputs' && IsInput(e, inputs'[name])
             else (name in inputs' <==> name in inputs) && (name in inputs ==> inputs'[name] == inputs[name])
    ensures LastGives(nodeId, edges + [e], name, inputs')
  {
    forall i ensures LastFeeder(nodeId, edges + [e], name, i) <==>
                     if FeedsInput(nodeId, e, name) then i == |edges| else LastFeeder(nodeId, edges, name, i)
    {
      LastOfMore(nodeId, edges, e, name, i);
    }
    assert FeedsInput(nodeId, e, name) ==> LastFeeder(nodeId, edges + [e], name, |edges|);
    if !FeedsInput(nodeId, e, name) && name in inputs {
      var i :| LastFeeder(nodeId, edges, name, i);
      assert LastFeeder(nodeId, edges + [e], name, i);
    }
  }

  /** An input exists exactly when an edge feeds it, and the last such edge decides its type and source. */
  lemma {:induction false} LastEdgeWins(nodeId: string, edges: seq<BuilderEdge>, name: string)
    ensures LastGives(nodeId, edges, name, NodeInputs(nodeId, edges))
  {
    if edges != [] {
      var front, e := edges[..|edges| - 1], edges[|edges| - 1];
      LastEdgeWins(nodeId, front, name);
      FedInput(nodeId, e, name);
      LastGivesMore(nodeId, front, e, name, NodeInputs(nodeId, front), NodeInputs(nodeId, edges));
      assert front + [e] == edges;
    }
  }

  /** Each fed name is an input, given by the last edge that feeds it, and there are no others. */
  ghost predicate InputsDrawn(nodeId: string, edges: seq<BuilderEdge>, inputs: map<string, RunnerInput>) {
    forall name :: LastGives(nodeId, edges, name, inputs)
  }

  lemma InputsAreDrawn(nodeId: string, edges: seq<BuilderEdge>)
    ensures InputsDrawn(nodeId, edges, NodeInputs(nodeId, edges))
  {
    forall name ensures LastGives(nodeId, edges, name, NodeInputs(nodeId, edges)) { LastEdgeWins(nodeId, edges, name); }
  }

  method BuildNodeInputs(nodeId: string, edges: seq<BuilderEdge>) returns (inputs: map<string, RunnerInput>)
    ensures inputs == NodeInputs(nodeId, edges)
    ensures InputsDrawn(nodeId, edges, inputs)
  {
    InputsAreDrawn(nodeId, edges);
    inputs := map[];
    for i := 0 to |edges|
      invariant inputs == NodeInputs(nodeId, edges[..i])
    {
      var edge := edges[i];
      assert edges[..i + 1][..i] == edges[..i];
      if MEMORY_PREFIX <= edge.targetHandle || TOOLS_PREFIX <= edge.targetHandle || AI_TYPE_PREFIX <= edge.targetHandle {
        continue;
      }
      if edge.source == nodeId {
        var handleParts := ParseHandle(edge.sourceHandle);
        if |handleParts| != 2 {
          continue;
        }
        var targetHandleParts := ParseHandle(edge.targetHandle);
        if |targetHandleParts| != 2 {
          continue;
        }
        inputs := inputs[handleParts[1] := RunnerInput(handleParts[0], edge.target + "." + targetHandleParts[1])];
      }
    }
    assert edges[..|edges|] == edges;
  }

  // ---------------------------------------------------------------- inputs of the result node

  predicate ResultEdge(nodeId: string, handleId: string, e: BuilderEdge) {
    e.source == nodeId && e.sourceHandle == handleId && WellFormed(e.targetHandle)
  }

  function FirstResultEdge(nodeId: string, handleId: string, edges: seq<BuilderEdge>): (first: Option<BuilderEdge>)
    ensures first.Some? ==> first.value in edges && ResultEdge(nodeId, handleId, first.value)
    ensures first.None? ==> forall e :: e in edges ==> !ResultEdge(nodeId, handleId, e)
  {
    if edges == [] then None
    else if ResultEdge(nodeId, handleId, edges[0]) then Some(edges[0])
    else FirstResultEdge(nodeId, handleId, edges[1..])
  }

  /** It is the first in the list, not merely one of them. */
  lemma {:induction false} FirstEdgeIsFirst(nodeId: string, handleId: string, edges: seq<BuilderEdge>, i: nat)
    requires i < |edges| && edges[i].source == nodeId && edges[i].sourceHandle == handleId
    requires |ParseHandle(edges[i].targetHandle)| == 2
    requires forall j :: 0 <= j < i && edges[j].source == nodeId && edges[j].sourceHandle == handleId ==>
               |ParseHandle(edges[j].targetHandle)| != 2
    ensures FirstResultEdge(nodeId, handleId, edges) == Some(edges[i])
    decreases i
  {
    if i > 0 { FirstEdgeIsFirst(nodeId, handleId, edges[1..], i - 1); }
  }

  function ResultInputs(nodeId: string, handles: seq<NodeHandle>, edges: seq<BuilderEdge>): map<string, RunnerInput> {
    if handles == [] then map[]
    else
      var before, h := ResultInputs(nodeId, handles[..|handles| - 1], edges), handles[|handles| - 1];
      var first := FirstResultEdge(nodeId, h.id, edges);
      if first.Some? then before[h.name := RunnerInput(h.kind, SourceText(first.value))] else before
  }

  predicate Wired(nodeId: string, handles: seq<NodeHandle>, edges: seq<BuilderEdge>, name: string, i: int) {
    0 <= i < |handles| && handles[i].name == name && FirstResultEdge(nodeId, handles[i].id, edges).Some?
  }

  ghost predicate LastWired(nodeId: string, handles: seq<NodeHandle>, edges: seq<BuilderEdge>, name: string, i: int) {
    Wired(nodeId, handles, edges, name, i) && forall j :: i < j ==> !Wired(nodeId, handles, edges, name, j)
  }

  /** A label is an input exactly when a handle so labelled has an edge; its first well-formed edge decides. */
  lemma {:induction false} FirstEdgePerHandle(nodeId: string, handles: seq<NodeHandle>, edges: seq<BuilderEdge>, name: string)
    ensures name in ResultInputs(nodeId, handles, edges) <==> exists i :: LastWired(nodeId, handles, edges, name, i)
    ensures forall i :: LastWired(nodeId, handles, edges, name, i) ==>
              name in ResultInputs(nodeId, handles, edges) &&
              ResultInputs(nodeId, handles, edges)[name] ==
              var e := FirstResultEdge(nodeId, handles[i].id, edges).value;
              RunnerInput(handles[i].kind, e.target + "." + ParseHandle(e.targetHandle)[1])
    ensures (exists i :: Wired(nodeId, handles, edges, name, i)) ==> exists i :: LastWired(nodeId, handles, edges, name, i)
  {
    if handles != [] {
      var front, k := handles[..|handles| - 1], |handles| - 1;
      FirstEdgePerHandle(nodeId, front, edges, name);
      assert forall i :: i != k ==> (Wired(nodeId, handles, edges, name, i) <==> Wired(nodeId, front, edges, name, i));
      if Wired(nodeId, handles, edges, name, k) {
        assert LastWired(nodeId, handles, edges, name, k);
      } else {
        assert forall i :: LastWired(nodeId, handles, edges, name, i) <==> LastWired(nodeId, front, edges, name, i);
      }
    } else {
      assert forall i :: !Wired(nodeId, handles, edges, name, i);
    }
  }

  /** Edge `k` is the first from handle `handleId` of the node to a handle of two parts. */
  ghost predicate FirstWire(nodeId: string, handleId: string, edges: seq<BuilderEdge>, k: int) {
    && 0 <= k < |edges| && edges[k].source == nodeId && edges[k].sourceHandle == handleId
    && |ParseHandle(edges[k].targetHandle)| == 2
    && forall j :: 0 <= j < k && edges[j].source == nodeId && edges[j].sourceHandle == handleId ==>
         |ParseHandle(edges[j].targetHandle)| != 2
  }

  ghost predicate IsWired(nodeId: string, edges: seq<BuilderEdge>, h: NodeHandle) {
    exists k :: FirstWire(nodeId, h.id, edges, k)
  }

  /** Handle `i` is the last wired one with this label. */
  ghost predicate LastLabel(nodeId: string, handles: seq<NodeHandle>, edges: seq<BuilderEdge>, name: string, i: int) {
    && 0 <= i < |handles| && handles[i].name == name && IsWired(nodeId, edges, handles[i])
    && forall j :: i < j < |handles| && handles[j].name == name ==> !IsWired(nodeId, edges, handles[j])
  }

  /** Each label of a wired handle is an input; the last such handle gives its type and the first wire its source. */
  ghost predicate ResultInputsDrawn(nodeId: string, handles: seq<NodeHandle>, edges: seq<BuilderEdge>,
                                    inputs: map<string, RunnerInput>) {
    forall name ::
      && (name in inputs <==> exists i :: LastLabel(nodeId, handles, edges, name, i))
      && forall i, k :: LastLabel(nodeId, handles, edges, name, i) && FirstWire(nodeId, handles[i].id, edges, k) ==>
           && name in inputs
           && inputs[name] == RunnerInput(handles[i].kind, edges[k].target + "." + ParseHandle(edges[k].targetHandle)[1])
  }

  lemma {:induction false} FirstWireIs(nodeId: string, handleId: string, edges: seq<BuilderEdge>)
    ensures FirstResultEdge(nodeId, handleId, edges).Some? <==> exists k :: FirstWire(nodeId, handleId, edges, k)
    ensures forall k :: FirstWire(nodeId, handleId, edges, k) ==> FirstResultEdge(nodeId, handleId, edges) == Some(edges[k])
  {
    forall k | FirstWire(nodeId, handleId, edges, k) ensures FirstResultEdge(nodeId, handleId, edges) == Some(edges[k]) {
      FirstEdgeIsFirst(nodeId, handleId, edges, k);
    }
    if FirstResultEdge(nodeId, handleId, edges).Some? {
      var rest := edges[1..];
      if ResultEdge(nodeId, handleId, edges[0]) {
        assert FirstWire(nodeId, handleId, edges, 0);
      } else {
        FirstWireIs(nodeId, handleId, rest);
        var k :| FirstWire(nodeId, handleId, rest, k);
        assert forall j :: 0 < j < k + 1 ==> edges[j] == rest[j - 1];
        assert FirstWire(nodeId, handleId, edges, k + 1);
      }
    }
  }

  lemma ResultInputsAreDrawn(nodeId: string, handles: seq<NodeHandle>, edges: seq<BuilderEdge>)
    ensures ResultInputsDrawn(nodeId, handles, edges, ResultInputs(nodeId, handles, edges))
  {
    var inputs := ResultInputs(nodeId, handles, edges);
    forall i | 0 <= i < |handles|
      ensures FirstResultEdge(nodeId, handles[i].id, edges).Some? <==> IsWired(nodeId, edges, handles[i])
      ensures forall k :: FirstWire(nodeId, handles[i].id, edges, k) ==>
                FirstResultEdge(nodeId, handles[i].id, edges) == Some(edges[k])
    {
      FirstWireIs(nodeId, handles[i].id, edges);
    }
    forall name
      ensures name in inputs <==> exists i :: LastLabel(nodeId, handles, edges, name, i)
      ensures forall i, k :: LastLabel(nodeId, handles, edges, name, i) && FirstWire(nodeId, handles[i].id, edges, k) ==>
                && name in inputs
                && inputs[name] == RunnerInput(handles[i].kind, edges[k].target + "." + ParseHandle(edges[k].targetHandle)[1])
    {
      FirstEdgePerHandle(nodeId, handles, edges, name);
      assert forall i :: LastLabel(nodeId, handles, edges, name, i) <==> LastWired(nodeId, handles, edges, name, i);
    }
  }

  lemma {:induction false} SkippedEdges(nodeId: string, handleId: string, edges: seq<BuilderEdge>, k: nat)
    requires k <= |edges| && forall j :: 0 <= j < k ==> !ResultEdge(nodeId, handleId, edges[j])
    ensures FirstResultEdge(nodeId, handleId, edges) == FirstResultEdge(nodeId, handleId, edges[k..])
    decreases k
  {
    if k > 0 {
      SkippedEdges(nodeId, handleId, edges[1..], k - 1);
      assert edges[1..][k - 1..] == edges[k..];
    } else {
      assert edges[0..] == edges;
    }
  }

  method BuildResultInputs(nodeId: string, handles: seq<NodeHandle>, edges: seq<BuilderEdge>)
    returns (inputs: map<string, RunnerInput>)
    ensures inputs == ResultInputs(nodeId, handles, edges)
    ensures ResultInputsDrawn(nodeId, handles, edges, inputs)
  {
    ResultInputsAreDrawn(nodeId, handles, edges);
    inputs := map[];
    for i := 0 to |handles|
      invariant inputs == ResultInputs(nodeId, handles[..i], edges)
    {
      var handle := handles[i];
      ghost var before := inputs;
      ghost var found: Option<BuilderEdge> := None;
      assert handles[..i + 1][..i] == handles[..i];
      var k := 0;
      while k < |edges|
        invariant 0 <= k <= |edges| && inputs == before && found == None
        invariant forall j :: 0 <= j < k ==> !ResultEdge(nodeId, handle.id, edges[j])
      {
        var edge := edges[k];
        if edge.source == nodeId && edge.sourceHandle == handle.id {
          var handleParts := ParseHandle(edge.targetHandle);
          if |handleParts| != 2 {
            k := k + 1;
            continue;
          }
          inputs := inputs[handle.name := RunnerInput(handle.kind, edge.target + "." + handleParts[1])];
          found := Some(edge);
          FirstEdgeIsFirst(nodeId, handle.id, edges, k);
          break;
        }
        k := k + 1;
      }
      if found == None { SkippedEdges(nodeId, handle.id, edges, |edges|); }
    }
    assert handles[..|handles|] == handles;
  }
}
