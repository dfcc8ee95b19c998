/**
 The drawn workflow as the Go server reads it. An edge points from the consumer (`source`) to the producer
 (`target`). A node's raw data appears as what decoding it into each of the structs the compiler uses gives.
 */
module Builder {
  import opened Wrappers

  datatype NodeHandle = NodeHandle(kind: string, id: string, name: string)

  datatype CodeData = CodeData(code: Json, inputs: Json, outputs: Json)

  /** `None` where decoding fails. */
  datatype NodeData = NodeData(
    handles: Option<seq<NodeHandle>>,
    config: Option<map<string, Json>>,
    code: Option<CodeData>)

  datatype BuilderNode = BuilderNode(id: string, kind: string, data: NodeData)

  datatype BuilderEdge = BuilderEdge(source: string, target: string, sourceHandle: string, targetHandle: string)

  datatype BuilderFlow = BuilderFlow(nodes: seq<BuilderNode>, edges: seq<BuilderEdge>)

  type NodeMap = map<string, BuilderNode>

  /** A node listed twice under one id is the last one listed. */
  function NodesById(nodes: seq<BuilderNode>): NodeMap {
    if nodes == [] then map[]
    else NodesById(nodes[..|nodes| - 1])[nodes[|nodes| - 1].id := nodes[|nodes| - 1]]
  }

  ghost predicate LastWithId(nodes: seq<BuilderNode>, id: string, i: int) {
    0 <= i < |nodes| && nodes[i].id == id && forall j :: i < j < |nodes| ==> nodes[j].id != id
  }

  lemma {:induction false} NodesByIdAre(nodes: seq<BuilderNode>, id: string)
    ensures id in NodesById(nodes) <==> exists i :: LastWithId(nodes, id, i)
    ensures forall i :: LastWithId(nodes, id, i) ==> NodesById(nodes)[id] == nodes[i]
  {
    if nodes != [] {
      var front, k := nodes[..|nodes| - 1], |nodes| - 1;
      NodesByIdAre(front, id);
      if nodes[k].id == id {
        assert LastWithId(nodes, id, k);
      } else {
        assert forall i :: LastWithId(nodes, id, i) ==> LastWithId(front, id, i);
        assert forall i :: LastWithId(front, id, i) ==> LastWithId(nodes, id, i);
      }
    }
  }
}
