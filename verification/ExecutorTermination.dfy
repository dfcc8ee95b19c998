/** Without crashes a life of the process makes finitely many steps, with an explicit bound. */
module ExecutorTermination {
  import opened Wrappers
  import opened Graphs
  import opened Executor
  import opened ExecutorInvariant
  import opened ExecutorRuns

  function Weight(p: Phase): nat {
    match p
    case Running(_) => 5
    case Returned(_, _) => 4
    case Reading(_) => 3
    case Replied(_) => 2
    case Writing(_) => 1
    case Done(_) => 0
  }

  /** Steps the nodes of a round still have to make. */
  function TaskWork(tasks: map<NodeId, Phase>, ready: seq<NodeId>): (work: nat)
    ensures work <= 5 * |ready|
  {
    if ready == [] then 0
    else TaskWork(tasks, ready[1..]) + if ready[0] in tasks then Weight(tasks[ready[0]]) else 0
  }

  lemma {:induction false} TaskWorkDrops(tasks: map<NodeId, Phase>, ready: seq<NodeId>, n: NodeId, p: Phase)
    requires NoDup(ready) && n in tasks
    ensures TaskWork(tasks[n := p], ready) ==
            TaskWork(tasks, ready) + if n in ready then Weight(p) - Weight(tasks[n]) else 0
  {
    if ready != [] {
      assert ready[0] !in ready[1..];
      TaskWorkDrops(tasks, ready[1..], n, p);
      assert n in ready <==> n == ready[0] || n in ready[1..];
    }
  }

  function MarkWork(m: Mark): nat {
    match m
    case ToMark => 4
    case MarkReading => 3
    case MarkReplied => 2
    case MarkWriting => 1
  }

  function Bound(all: nat, completed: nat, control: Control, tasks: map<NodeId, Phase>): int {
    match control
    case Down => 0
    case AwaitInit => 12 * all + 3
    case LoopHead => 12 * (all - completed) + 2
    case Round(ready) => 12 * (all - completed - |ready|) + TaskWork(tasks, ready) + 4 * |ready| + 4
    case Marking(ready, next, mark) =>
      12 * (all - (completed - Marked(control)) - |ready|) + 4 * (|ready| - next) + MarkWork(mark) - 1
    case Finishing(_) => 1
    case Over(_) => 0
  }

  /** An upper bound on the steps left; twelve per node not completed yet. */
  function Measure(w: World, s: State): int {
    Bound(|Keys(w.definition)|, |s.live.completedNodes|, s.control, s.tasks)
  }

  lemma CompletedFit(g: Graph, completed: seq<NodeId>, ready: seq<NodeId>)
    requires NoDup(completed) && Topological(g, completed) && NoDup(ready)
    requires forall n :: n in ready ==> Ready(g, completed, n)
    ensures |completed| + |ready| <= |g.nodes|
  {
    var both := completed + ready;
    forall i, j | 0 <= i < j < |both| ensures both[i] != both[j] {
      if i < |completed| <= j { assert both[j] in ready && Ready(g, completed, both[j]); }
    }
    forall x | x in both ensures x in g.nodes {
      if x in ready { assert Ready(g, completed, x); }
    }
    Pigeonhole(both, g.nodes);
  }

  lemma MeasureIsNatural(w: World, s: State)
    requires Valid(w) && Inv(w, s)
    ensures Measure(w, s) >= 0
  {
    var g := w.Graph();
    match s.control
    case LoopHead => CompletedFit(g, s.live.completedNodes, []);
    case Round(ready) => CompletedFit(g, s.live.completedNodes, ready);
    case Marking(ready, next, mark) =>
      var before := Before(s.live, Marked(s.control));
      TopologicalPrefix(g, s.live.completedNodes, |before|);
      CompletedFit(g, before, ready);
    case _ =>
  }

  ghost predicate RoundTask(s: State, n: NodeId) {
    s.control.Round? && NoDup(s.control.ready) && n in s.control.ready && n in s.tasks
  }

  lemma TaskOfRound(w: World, s: State, n: NodeId)
    requires Shape(w, s) && n in s.tasks
    ensures RoundTask(s, n)
  {}

  lemma TaskBound(all: nat, completed: nat, control: Control, tasks: map<NodeId, Phase>, n: NodeId, p: Phase)
    requires control.Round? && NoDup(control.ready) && n in control.ready && n in tasks && Weight(p) < Weight(tasks[n])
    ensures Bound(all, completed, control, tasks[n := p]) < Bound(all, completed, control, tasks)
  {
    TaskWorkDrops(tasks, control.ready, n, p);
  }

  lemma ReturnMeasure(w: World, s: State, n: NodeId, outcome: Outcome)
    requires RoundTask(s, n) && Enabled(w, s, Return(n, outcome))
    ensures Measure(w, Next(w, s, Return(n, outcome))) < Measure(w, s)
  {
    TaskBound(|Keys(w.definition)|, |s.live.completedNodes|, s.control, s.tasks, n, Returned(s.tasks[n].inputs, outcome));
  }

  lemma UpdateMeasure(w: World, s: State, n: NodeId)
    requires RoundTask(s, n) && Enabled(w, s, Update(n))
    ensures Measure(w, Next(w, s, Update(n))) < Measure(w, s)
  {
    TaskBound(|Keys(w.definition)|, |s.live.completedNodes|, s.control, s.tasks, n, Next(w, s, Update(n)).tasks[n]);
  }

  lemma TaskApplyMeasure(w: World, s: State, n: NodeId)
    requires RoundTask(s, n) && Enabled(w, s, Apply) && s.queue[0].owner == Task(n)
    requires SyncOf(s, Task(n)) == AwaitRead || SyncOf(s, Task(n)) == AwaitWrite
    ensures Measure(w, Next(w, s, Apply)) < Measure(w, s)
  {
    TaskBound(|Keys(w.definition)|, |s.live.completedNodes|, s.control, s.tasks, n, Moved(s.tasks[n]));
  }

  lemma MainApplyMeasure(w: World, s: State)
    requires Shape(w, s) && Enabled(w, s, Apply) && s.queue[0].owner == Main
    requires SyncOf(s, Main) == AwaitRead || SyncOf(s, Main) == AwaitWrite
    ensures Measure(w, Next(w, s, Apply)) < Measure(w, s)
  {}

  lemma ApplyMeasure(w: World, s: State)
    requires Shape(w, s) && QueueOk(s) && Enabled(w, s, Apply)
    ensures Measure(w, Next(w, s, Apply)) < Measure(w, s)
  {
    var c := s.queue[0];
    assert c in s.queue;
    match c.owner
    case Main => MainApplyMeasure(w, s);
    case Task(n) =>
      TaskOfRound(w, s, n);
      TaskApplyMeasure(w, s, n);
  }

  lemma SaveMeasure(w: World, s: State, n: NodeId)
    requires RoundTask(s, n) && Enabled(w, s, Save(Task(n)))
    ensures Measure(w, Next(w, s, Save(Task(n)))) < Measure(w, s)
  {
    TaskBound(|Keys(w.definition)|, |s.live.completedNodes|, s.control, s.tasks, n, Writing(s.tasks[n].success));
  }

  lemma BoundBegin(all: nat, completed: nat, ready: seq<NodeId>, t: map<NodeId, Phase>, t': map<NodeId, Phase>)
    requires completed + |ready| <= all
    ensures |ready| > 0 ==> Bound(all, completed, Round(ready), t') < Bound(all, completed, LoopHead, t)
    ensures Bound(all, completed, LoopHead, t) > 1
  {}

  lemma BoundJoin(all: nat, completed: nat, ready: seq<NodeId>, t: map<NodeId, Phase>, t': map<NodeId, Phase>)
    requires completed + |ready| <= all
    ensures Bound(all, completed, Marking(ready, 0, ToMark), t') < Bound(all, completed, Round(ready), t)
    ensures Bound(all, completed, Round(ready), t) > 1
  {}

  lemma BeginRoundControl(w: World, s: State)
    requires Enabled(w, s, BeginRound)
    ensures var s' := Next(w, s, BeginRound);
            && s'.live == s.live
            && (s'.control.Finishing? || (s'.control.Round? && s'.control.ready == ReadyNodes(w, s) && |ReadyNodes(w, s)| > 0))
  {}

  lemma BeginRoundMeasure(w: World, s: State)
    requires Valid(w) && Sound(w, s.live) && Enabled(w, s, BeginRound)
    ensures Measure(w, Next(w, s, BeginRound)) < Measure(w, s)
  {
    var s', ready := Next(w, s, BeginRound), ReadyNodes(w, s);
    BeginRoundControl(w, s);
    ReadyNodesAreReady(w, s.live);
    CompletedFit(w.Graph(), s.live.completedNodes, ready);
    BoundBegin(|Keys(w.definition)|, |s.live.completedNodes|, ready, s.tasks, s'.tasks);
  }

  lemma JoinControl(w: World, s: State)
    requires Enabled(w, s, Join)
    ensures var s' := Next(w, s, Join);
            && s'.live == s.live
            && (s'.control.Finishing? || s'.control == Marking(s.control.ready, 0, ToMark))
  {}

  lemma RoundFits(w: World, s: State)
    requires Sound(w, s.live) && Shape(w, s) && s.control.Round?
    ensures |s.live.completedNodes| + |s.control.ready| <= |Keys(w.definition)|
  {
    CompletedFit(w.Graph(), s.live.completedNodes, s.control.ready);
  }

  lemma JoinMeasure(w: World, s: State)
    requires Enabled(w, s, Join) && |s.live.completedNodes| + |s.control.ready| <= |Keys(w.definition)|
    ensures Measure(w, Next(w, s, Join)) < Measure(w, s)
  {
    JoinControl(w, s);
    BoundJoin(|Keys(w.definition)|, |s.live.completedNodes|, s.control.ready, s.tasks, Next(w, s, Join).tasks);
  }

  lemma BoundMark(all: nat, completed: nat, ready: seq<NodeId>, next: nat, tasks: map<NodeId, Phase>)
    ensures Bound(all, completed + 1, Marking(ready, next, MarkReading), tasks) <
            Bound(all, completed, Marking(ready, next, ToMark), tasks)
  {}

  lemma MarkMeasure(w: World, s: State)
    requires Shape(w, s) && Enabled(w, s, MarkNext)
    ensures Measure(w, Next(w, s, MarkNext)) < Measure(w, s)
  {
    MarkNextShape(w, s);
    BoundMark(|Keys(w.definition)|, |s.live.completedNodes|, s.control.ready, s.control.next, s.tasks);
  }

  lemma MainMeasure(w: World, s: State, step: Step)
    requires Enabled(w, s, step) && (step == NextRound || step == Finish || step == Save(Main))
    ensures Measure(w, Next(w, s, step)) < Measure(w, s)
  {}

  /** Every step but a crash or a restart comes closer to the end. */
  lemma MeasureDrops(w: World, s: State, step: Step)
    requires Valid(w) && Inv(w, s) && Enabled(w, s, step) && Works(step)
    ensures 0 <= Measure(w, Next(w, s, step)) < Measure(w, s)
  {
    InvKept(w, s, step);
    MeasureIsNatural(w, Next(w, s, step));
    match step
    case Apply => ApplyMeasure(w, s);
    case BeginRound => BeginRoundMeasure(w, s);
    case Return(n, outcome) => TaskOfRound(w, s, n); ReturnMeasure(w, s, n, outcome);
    case Update(n) => TaskOfRound(w, s, n); UpdateMeasure(w, s, n);
    case Save(Main) => MainMeasure(w, s, step);
    case Save(Task(n)) => TaskOfRound(w, s, n); SaveMeasure(w, s, n);
    case Join => RoundFits(w, s); JoinMeasure(w, s);
    case MarkNext => MarkMeasure(w, s);
    case NextRound => MainMeasure(w, s, step);
    case Finish => MainMeasure(w, s, step);
  }

  /** A run of one life: no crash and no restart in it. */
  ghost predicate IsLife(w: World, run: seq<State>) {
    && run != []
    && forall i :: 0 <= i < |run| - 1 ==> Worked(w, run[i], run[i + 1])
  }

  ghost predicate Worked(w: World, s: State, s': State) {
    exists step :: Works(step) && Enabled(w, s, step) && s' == Next(w, s, step)
  }

  lemma LifeTail(w: World, life: seq<State>)
    requires IsLife(w, life) && |life| > 1
    ensures IsLife(w, life[1..]) && Last(life[1..]) == Last(life)
  {
    var rest := life[1..];
    forall i | 0 <= i < |rest| - 1 ensures Worked(w, rest[i], rest[i + 1]) {
      assert Worked(w, life[i + 1], life[i + 2]);
    }
  }

  lemma FirstStep(w: World, life: seq<State>)
    requires Valid(w) && IsLife(w, life) && |life| > 1 && Inv(w, life[0])
    ensures Inv(w, life[1]) && Measure(w, life[1]) < Measure(w, life[0])
  {
    assert Worked(w, life[0], life[1]);
    var step :| Works(step) && Enabled(w, life[0], step) && life[1] == Next(w, life[0], step);
    MeasureDrops(w, life[0], step);
    InvKept(w, life[0], step);
  }

  lemma {:induction false} LifeIsBounded(w: World, life: seq<State>)
    requires Valid(w) && IsLife(w, life) && Inv(w, life[0])
    ensures |life| <= Measure(w, life[0]) + 1
    ensures Inv(w, Last(life))
    decreases |life|
  {
    MeasureIsNatural(w, life[0]);
    if |life| > 1 {
      FirstStep(w, life);
      LifeTail(w, life);
      LifeIsBounded(w, life[1..]);
    }
  }

  /** A life cannot be prolonged beyond twelve steps a node, and can be until it is over. */
  lemma EveryLifeEnds(w: World, life: seq<State>)
    requires Valid(w) && Total(w) && IsLife(w, life) && Reachable(w, life[0]) && !life[0].control.Down?
    ensures |life| <= 12 * |w.definition| + 4
    ensures !Last(life).control.Over? ==> CanWork(w, Last(life))
  {
    ReachableInv(w, life[0]);
    LifeIsBounded(w, life);
    MeasureBound(w, life[0]);
    LifeIsReachable(w, life);
    if !Last(life).control.Over? { Progress(w, Last(life)); }
  }

  lemma MeasureBound(w: World, s: State)
    requires Shape(w, s)
    ensures Measure(w, s) <= 12 * |w.definition| + 3
  {}

  lemma ReachableExtends(w: World, s: State, s': State)
    requires Reachable(w, s) && Follows(w, s, s')
    ensures Reachable(w, s')
  {
    var run :| IsRun(w, run) && run[0] == Initial(w) && Last(run) == s;
    var longer := run + [s'];
    forall i | 0 <= i < |longer| - 1 ensures Follows(w, longer[i], longer[i + 1]) {
      if i < |run| - 1 { assert Follows(w, run[i], run[i + 1]); }
    }
    assert IsRun(w, longer) && longer[0] == Initial(w) && Last(longer) == s';
  }

  lemma WorkStaysUp(w: World, s: State, s': State)
    requires Worked(w, s, s') && !s.control.Down?
    ensures Follows(w, s, s') && !s'.control.Down?
  {}

  lemma {:induction false} LifeIsReachable(w: World, life: seq<State>)
    requires IsLife(w, life) && Reachable(w, life[0]) && !life[0].control.Down?
    ensures Reachable(w, Last(life)) && !Last(life).control.Down?
    decreases |life|
  {
    if |life| > 1 {
      WorkStaysUp(w, life[0], life[1]);
      ReachableExtends(w, life[0], life[1]);
      LifeTail(w, life);
      LifeIsReachable(w, life[1..]);
    }
  }
}
