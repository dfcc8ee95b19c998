/**
 The dependency graph the executor schedules, described by its paths. Nothing here mentions
 rounds or completed nodes, so these notions are independent of the scheduler measured against them.
 */
module Graphs {
  import opened Wrappers

  type NodeId = string

  datatype Graph = Graph(nodes: seq<NodeId>, deps: map<NodeId, seq<NodeId>>) {
    /** `dependencies[nodeId] || []` */
    function DepsOf(n: NodeId): seq<NodeId> {
      if n in deps then deps[n] else []
    }
  }

  /** Each node of a path but the last is in the graph and depends on the next one. */
  ghost predicate Path(g: Graph, p: seq<NodeId>) {
    && |p| > 0
    && forall i :: 0 <= i < |p| - 1 ==> p[i] in g.nodes && p[i + 1] in g.DepsOf(p[i])
  }

  ghost predicate PathFrom(g: Graph, n: NodeId, p: seq<NodeId>) {
    Path(g, p) && p[0] == n
  }

  function Last<T>(p: seq<T>): T
    requires |p| > 0
  {
    p[|p| - 1]
  }

  ghost predicate ReachesMissing(g: Graph, n: NodeId) {
    exists p :: PathFrom(g, n, p) && Last(p) !in g.nodes
  }

  ghost predicate ReachesCycle(g: Graph, n: NodeId) {
    exists p :: PathFrom(g, n, p) && !NoDup(p)
  }

  /** No schedule can ever complete such a node. */
  ghost predicate Doomed(g: Graph, n: NodeId) {
    ReachesMissing(g, n) || ReachesCycle(g, n)
  }

  /** Every dependency path from `n` stays in the graph and has at most `k` nodes. */
  ghost predicate Settled(g: Graph, n: NodeId, k: nat) {
    forall p :: PathFrom(g, n, p) ==> |p| <= k && Last(p) in g.nodes
  }

  lemma SettledMonotone(g: Graph, n: NodeId, j: nat, k: nat)
    requires Settled(g, n, j) && j <= k
    ensures Settled(g, n, k)
  {}

  lemma PathCons(g: Graph, n: NodeId, d: NodeId, p: seq<NodeId>)
    requires n in g.nodes && d in g.DepsOf(n) && PathFrom(g, d, p)
    ensures PathFrom(g, n, [n] + p)
  {
    var q := [n] + p;
    forall i | 0 <= i < |q| - 1 ensures q[i] in g.nodes && q[i + 1] in g.DepsOf(q[i]) {
      if i > 0 { assert q[i] == p[i - 1] && q[i + 1] == p[i]; }
    }
  }

  lemma PathTail(g: Graph, n: NodeId, p: seq<NodeId>)
    requires PathFrom(g, n, p) && |p| > 1
    ensures n in g.nodes && p[1] in g.DepsOf(n) && PathFrom(g, p[1], p[1..])
  {
    var q := p[1..];
    forall i | 0 <= i < |q| - 1 ensures q[i] in g.nodes && q[i + 1] in g.DepsOf(q[i]) {
      assert q[i] == p[i + 1] && q[i + 1] == p[i + 2];
    }
    assert p[0] in g.nodes;
  }

  /** The longest path from a node is one more than the longest from its dependencies. */
  lemma SettledStep(g: Graph, n: NodeId, k: nat)
    requires n in g.nodes
    ensures Settled(g, n, k + 1) <==> forall d :: d in g.DepsOf(n) ==> Settled(g, d, k)
  {
    if Settled(g, n, k + 1) {
      forall d | d in g.DepsOf(n) ensures Settled(g, d, k) {
        forall p | PathFrom(g, d, p) ensures |p| <= k && Last(p) in g.nodes {
          PathCons(g, n, d, p);
          assert Last([n] + p) == Last(p);
        }
      }
    }
    if forall d :: d in g.DepsOf(n) ==> Settled(g, d, k) {
      forall p | PathFrom(g, n, p) ensures |p| <= k + 1 && Last(p) in g.nodes {
        if |p| > 1 {
          PathTail(g, n, p);
          assert Last(p[1..]) == Last(p);
        }
      }
    }
  }

  lemma SettledIsInGraph(g: Graph, n: NodeId, k: nat)
    requires Settled(g, n, k)
    ensures k >= 1 && n in g.nodes
  {
    assert PathFrom(g, n, [n]);
    assert Last([n]) == n;
  }

  /** A path that revisits a node can go round again, for as long as wanted. */
  lemma {:induction false} Pump(g: Graph, p: seq<NodeId>, i: nat, j: nat, length: nat) returns (q: seq<NodeId>)
    requires Path(g, p) && i < j < |p| && p[i] == p[j]
    ensures Path(g, q) && q[0] == p[0] && |q| > length && Last(q) == p[j]
    decreases length
  {
    if length == 0 {
      q := p[..j + 1];
    } else {
      var r := Pump(g, p, i, j, length - 1);
      q := r + p[i + 1..j + 1];
      forall m | 0 <= m < |q| - 1 ensures q[m] in g.nodes && q[m + 1] in g.DepsOf(q[m]) {
        if m >= |r| - 1 {
          var b := i + 1 + (m - |r|);
          assert q[m] == p[b] && q[m + 1] == p[b + 1];
        }
      }
    }
  }

  lemma PathPrefix(g: Graph, p: seq<NodeId>, k: nat)
    requires Path(g, p) && 0 < k <= |p|
    ensures PathFrom(g, p[0], p[..k]) && Last(p[..k]) == p[k - 1]
  {}

  lemma UndoomedPath(g: Graph, n: NodeId, p: seq<NodeId>)
    requires !Doomed(g, n) && PathFrom(g, n, p)
    ensures |p| <= |g.nodes| && Last(p) in g.nodes
  {
    forall x | x in p ensures x in g.nodes {
      var k :| 0 <= k < |p| && p[k] == x;
      PathPrefix(g, p, k + 1);
    }
    Pigeonhole(p, g.nodes);
  }

  /** The finite-graph cycle argument: paths are bounded exactly when no cycle or missing node is reached. */
  lemma DoomedIffUnbounded(g: Graph, n: NodeId)
    ensures Doomed(g, n) <==> forall k: nat :: !Settled(g, n, k)
    ensures !Doomed(g, n) ==> Settled(g, n, |g.nodes|)
  {
    if !Doomed(g, n) {
      forall p | PathFrom(g, n, p) ensures |p| <= |g.nodes| && Last(p) in g.nodes {
        UndoomedPath(g, n, p);
      }
      assert Settled(g, n, |g.nodes|);
    } else {
      forall k: nat ensures !Settled(g, n, k) {
        if ReachesCycle(g, n) {
          var p :| PathFrom(g, n, p) && !NoDup(p);
          var i, j :| 0 <= i < j < |p| && p[i] == p[j];
          var q := Pump(g, p, i, j, k);
          assert PathFrom(g, n, q);
        }
      }
    }
  }

  /** Number of nodes on the longest dependency path from `n`. */
  ghost function Height(g: Graph, n: NodeId): (h: nat)
    requires !Doomed(g, n)
    ensures h >= 1 && n in g.nodes && Settled(g, n, h) && !Settled(g, n, h - 1)
  {
    DoomedIffUnbounded(g, n);
    LeastSettled(g, n, |g.nodes|);
    var h: nat :| h >= 1 && Settled(g, n, h) && !Settled(g, n, h - 1);
    SettledIsInGraph(g, n, h);
    h
  }

  lemma {:induction false} LeastSettled(g: Graph, n: NodeId, k: nat)
    requires Settled(g, n, k)
    ensures exists h: nat :: h >= 1 && Settled(g, n, h) && !Settled(g, n, h - 1)
    decreases k
  {
    SettledIsInGraph(g, n, k);
    if Settled(g, n, k - 1) { LeastSettled(g, n, k - 1); }
  }

  lemma SettledIffHeight(g: Graph, n: NodeId, k: nat)
    requires !Doomed(g, n)
    ensures Settled(g, n, k) <==> Height(g, n) <= k
  {
    if Settled(g, n, k) && k < Height(g, n) { SettledMonotone(g, n, k, Height(g, n) - 1); }
    if Height(g, n) <= k { SettledMonotone(g, n, Height(g, n), k); }
  }

  lemma DependencyIsLower(g: Graph, n: NodeId, d: NodeId)
    requires !Doomed(g, n) && d in g.DepsOf(n)
    ensures !Doomed(g, d) && d in g.nodes && Height(g, d) < Height(g, n)
  {
    var h := Height(g, n);
    SettledStep(g, n, h - 1);
    DoomedIffUnbounded(g, d);
    SettledIffHeight(g, d, h - 1);
  }

  lemma {:induction false} ReachableIsLower(g: Graph, n: NodeId, p: seq<NodeId>)
    requires !Doomed(g, n) && PathFrom(g, n, p) && |p| > 1
    ensures !Doomed(g, Last(p)) && Height(g, Last(p)) < Height(g, n)
    decreases |p|
  {
    PathTail(g, n, p);
    DependencyIsLower(g, n, p[1]);
    if |p| > 2 { ReachableIsLower(g, p[1], p[1..]); }
  }

  /** A list in which every node comes after all its dependencies. */
  ghost predicate Topological(g: Graph, c: seq<NodeId>) {
    forall i :: 0 <= i < |c| ==>
      c[i] in g.nodes && forall d :: d in g.DepsOf(c[i]) ==> d in c[..i]
  }

  lemma TopologicalPrefix(g: Graph, c: seq<NodeId>, k: nat)
    requires Topological(g, c) && k <= |c|
    ensures Topological(g, c[..k])
  {
    forall i | 0 <= i < k ensures c[..k][i] in g.nodes && forall d :: d in g.DepsOf(c[..k][i]) ==> d in c[..k][..i] {
      assert c[..k][..i] == c[..i];
    }
  }

  lemma TopologicalSnoc(g: Graph, c: seq<NodeId>, n: NodeId)
    requires Topological(g, c) && n in g.nodes
    requires forall d :: d in g.DepsOf(n) ==> d in c
    ensures Topological(g, c + [n])
  {
    var c' := c + [n];
    forall i | 0 <= i < |c'| ensures c'[i] in g.nodes && forall d :: d in g.DepsOf(c'[i]) ==> d in c'[..i] {
      assert c'[..i] == c[..i];
      if i == |c| { assert c[..i] == c; }
    }
  }

  lemma {:induction false} TopologicalSettles(g: Graph, c: seq<NodeId>, i: nat)
    requires Topological(g, c) && i < |c|
    ensures Settled(g, c[i], i + 1) && !Doomed(g, c[i])
    decreases i
  {
    forall d | d in g.DepsOf(c[i]) ensures Settled(g, d, i) {
      var j :| 0 <= j < i && c[j] == d;
      TopologicalSettles(g, c, j);
      SettledMonotone(g, d, j + 1, i);
    }
    SettledStep(g, c[i], i);
    DoomedIffUnbounded(g, c[i]);
  }

  lemma {:induction false} ReachableIsListed(g: Graph, c: seq<NodeId>, n: NodeId, p: seq<NodeId>)
    requires Topological(g, c) && PathFrom(g, n, p) && |p| > 1
    requires forall d :: d in g.DepsOf(n) ==> d in c
    ensures Last(p) in c
    decreases |p|
  {
    PathTail(g, n, p);
    if |p| > 2 {
      var i :| 0 <= i < |c| && c[i] == p[1];
      assert forall d :: d in g.DepsOf(p[1]) ==> d in c[..i];
      ReachableIsListed(g, c, p[1], p[1..]);
    }
  }

  /** A node whose dependencies are all listed but which is not listed itself. */
  ghost predicate Ready(g: Graph, c: seq<NodeId>, n: NodeId) {
    n in g.nodes && n !in c && forall d :: d in g.DepsOf(n) ==> d in c
  }

  lemma {:induction false} UndoomedIsListed(g: Graph, c: seq<NodeId>, n: NodeId)
    requires !Doomed(g, n)
    requires forall m :: !Ready(g, c, m)
    ensures n in c
    decreases Height(g, n)
  {
    if n !in c {
      assert !Ready(g, c, n) && n in g.nodes by { var h := Height(g, n); }
      var d :| d in g.DepsOf(n) && d !in c;
      DependencyIsLower(g, n, d);
      UndoomedIsListed(g, c, d);
    }
  }

  /** When nothing is ready, what is left is exactly what can never complete. */
  lemma StuckMeansDoomed(g: Graph, c: seq<NodeId>, n: NodeId)
    requires Topological(g, c) && n in g.nodes
    requires forall m :: !Ready(g, c, m)
    ensures n !in c <==> Doomed(g, n)
  {
    if n in c {
      var i :| 0 <= i < |c| && c[i] == n;
      TopologicalSettles(g, c, i);
    } else if !Doomed(g, n) {
      UndoomedIsListed(g, c, n);
    }
  }
}
