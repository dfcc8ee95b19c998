/** In which round a node completes, and when the executor reports that it is stuck. */
module ExecutorOutcome {
  import opened Wrappers
  import opened Graphs
  import opened Context
  import opened Executor
  import opened ExecutorInvariant
  import opened ExecutorRuns

  // ---------------------------------------------------------------- rounds

  /** The nodes completed by the rounds that are over. */
  function CompletedBefore(s: State): seq<NodeId> {
    if s.control.Marking? && Marked(s.control) <= |s.live.completedNodes| then Before(s.live, Marked(s.control))
    else s.live.completedNodes
  }

  /** What is left of the graph once the nodes of `base` are done: their edges no longer hold anything up. */
  function Rest(g: Graph, base: seq<NodeId>): Graph {
    Graph(Filter(g.nodes, n => n !in base), map n | n in g.deps :: Filter(g.deps[n], d => d !in base))
  }

  /** After that many rounds of a life begun with `base`, exactly the nodes settled in the rest are completed too. */
  ghost predicate RoundsOk(g: Graph, base: seq<NodeId>, completed: seq<NodeId>, rounds: nat) {
    forall n :: n in completed <==> n in base || Settled(Rest(g, base), n, rounds)
  }

  ghost predicate TakesAllReady(g: Graph, completed: seq<NodeId>, ready: seq<NodeId>) {
    forall n :: Ready(g, completed, n) ==> n in ready
  }

  ghost predicate RoundsInv(w: World, s: State) {
    !s.control.Down? ==>
      && RoundsOk(w.Graph(), s.base, CompletedBefore(s), s.rounds)
      && (s.control.Round? || s.control.Marking? ==> TakesAllReady(w.Graph(), CompletedBefore(s), s.control.ready))
  }

  lemma NothingSettledYet(g: Graph, base: seq<NodeId>)
    ensures RoundsOk(g, base, base, 0)
  {
    forall n ensures !Settled(Rest(g, base), n, 0) { assert PathFrom(Rest(g, base), n, [n]); }
  }

  lemma RestIs(g: Graph, base: seq<NodeId>, n: NodeId)
    ensures n in Rest(g, base).nodes <==> n in g.nodes && n !in base
    ensures forall d :: d in Rest(g, base).DepsOf(n) <==> d in g.DepsOf(n) && d !in base
  {}

  lemma SettlesNext(g: Graph, base: seq<NodeId>, before: seq<NodeId>, ready: seq<NodeId>, rounds: nat, n: NodeId)
    requires AllReady(g, before, ready) && TakesAllReady(g, before, ready) && RoundsOk(g, base, before, rounds)
    requires n !in base
    ensures n in before + ready <==> Settled(Rest(g, base), n, rounds + 1)
  {
    var rest := Rest(g, base);
    RestIs(g, base, n);
    if Settled(rest, n, rounds + 1) {
      SettledIsInGraph(rest, n, rounds + 1);
      SettledStep(rest, n, rounds);
      assert n in before || Ready(g, before, n);
    }
    if n in before {
      SettledMonotone(rest, n, rounds, rounds + 1);
    } else if n in ready {
      assert Ready(g, before, n);
      SettledStep(rest, n, rounds);
    }
  }

  /** A round completes exactly the nodes whose longest path in the rest it has just become long enough for. */
  lemma RoundAdvances(g: Graph, base: seq<NodeId>, before: seq<NodeId>, ready: seq<NodeId>, rounds: nat)
    requires AllReady(g, before, ready) && TakesAllReady(g, before, ready) && RoundsOk(g, base, before, rounds)
    ensures RoundsOk(g, base, before + ready, rounds + 1)
  {
    forall n ensures n in before + ready <==> n in base || Settled(Rest(g, base), n, rounds + 1) {
      if n !in base { SettlesNext(g, base, before, ready, rounds, n); }
    }
  }

  /** The steps that leave the finished rounds as they are. */
  lemma SameRounds(w: World, s: State, s': State)
    requires RoundsInv(w, s) && !s.control.Down? && !s.control.Round? && !s.control.Marking?
    requires CompletedBefore(s') == CompletedBefore(s) && s'.rounds == s.rounds && s'.base == s.base
    requires !s'.control.Round? && !s'.control.Marking?
    ensures RoundsInv(w, s')
  {}

  lemma SameRound(w: World, s: State, s': State)
    requires RoundsInv(w, s) && (s.control.Round? || s.control.Marking?)
    requires CompletedBefore(s') == CompletedBefore(s) && s'.rounds == s.rounds && s'.base == s.base
    requires s'.control.Round? || s'.control.Marking? ==> s'.control.ready == s.control.ready
    ensures RoundsInv(w, s')
  {}

  lemma ApplyRounds(w: World, s: State)
    requires RoundsInv(w, s) && !s.control.Down? && Enabled(w, s, Apply)
    ensures RoundsInv(w, Next(w, s, Apply))
  {
    var s' := Next(w, s, Apply);
    assert CompletedBefore(s') == CompletedBefore(s);
    if s.control.Round? || s.control.Marking? { SameRound(w, s, s'); } else { SameRounds(w, s, s'); }
  }

  lemma SaveRounds(w: World, s: State, o: Owner)
    requires RoundsInv(w, s) && (s.control.Round? || s.control.Marking?) && Enabled(w, s, Save(o))
    ensures RoundsInv(w, Next(w, s, Save(o)))
  {
    var s' := Next(w, s, Save(o));
    assert CompletedBefore(s') == CompletedBefore(s);
    SameRound(w, s, s');
  }

  lemma BeginRounds(w: World, s: State)
    requires Valid(w) && Sound(w, s.live) && RoundsInv(w, s) && Enabled(w, s, BeginRound)
    ensures RoundsInv(w, Next(w, s, BeginRound))
  {
    ReadyNodesAreReady(w, s.live);
    var s' := Next(w, s, BeginRound);
    assert s'.live == s.live && s'.rounds == s.rounds && s'.base == s.base;
    if s'.control.Round? {
      assert TakesAllReady(w.Graph(), s.live.completedNodes, s'.control.ready);
    }
  }

  lemma BeforeAfterMark(c: seq<NodeId>, n: NodeId, i: nat)
    requires i <= |c|
    ensures (c + [n])[..|c| + 1 - (i + 1)] == c[..|c| - i]
  {}

  lemma MarkFrame(w: World, s: State)
    requires Shape(w, s) && Enabled(w, s, MarkNext)
    ensures var s' := Next(w, s, MarkNext);
            && s'.control == Marking(s.control.ready, s.control.next, MarkReading)
            && s'.live.completedNodes == s.live.completedNodes + [s.control.ready[s.control.next]]
            && s.control.next <= |s.live.completedNodes|
            && s'.rounds == s.rounds && s'.base == s.base
  {
    MarkNextShape(w, s);
  }

  lemma MarkKeepsBefore(s: State, s': State)
    requires s.control.Marking? && s.control.mark.ToMark? && s.control.next < |s.control.ready|
    requires s'.control == Marking(s.control.ready, s.control.next, MarkReading)
    requires s'.live.completedNodes == s.live.completedNodes + [s.control.ready[s.control.next]]
    requires s.control.next <= |s.live.completedNodes|
    ensures CompletedBefore(s') == CompletedBefore(s)
  {
    BeforeAfterMark(s.live.completedNodes, s.control.ready[s.control.next], s.control.next);
  }

  lemma MarkRounds(w: World, s: State)
    requires Shape(w, s) && RoundsInv(w, s) && Enabled(w, s, MarkNext)
    ensures RoundsInv(w, Next(w, s, MarkNext))
  {
    MarkFrame(w, s);
    MarkKeepsBefore(s, Next(w, s, MarkNext));
    SameRound(w, s, Next(w, s, MarkNext));
  }

  lemma AllMarked(g: Graph, live: ExecutionContext, ready: seq<NodeId>)
    requires MarkShape(g, live, ready, |ready|)
    ensures Before(live, |ready|) + ready == live.completedNodes && AllReady(g, Before(live, |ready|), ready)
  {
    assert ready[..|ready|] == ready;
  }

  lemma MarkedRound(w: World, s: State)
    requires Shape(w, s) && Enabled(w, s, NextRound)
    ensures CompletedBefore(s) + s.control.ready == s.live.completedNodes
    ensures AllReady(w.Graph(), CompletedBefore(s), s.control.ready)
  {
    AllMarked(w.Graph(), s.live, s.control.ready);
  }

  lemma NextRounds(w: World, s: State)
    requires Shape(w, s) && RoundsInv(w, s) && Enabled(w, s, NextRound)
    ensures RoundsInv(w, Next(w, s, NextRound))
  {
    MarkedRound(w, s);
    RoundAdvances(w.Graph(), s.base, CompletedBefore(s), s.control.ready, s.rounds);
  }

  lemma JoinRounds(w: World, s: State)
    requires RoundsInv(w, s) && Enabled(w, s, Join)
    ensures RoundsInv(w, Next(w, s, Join))
  {
    var s' := Next(w, s, Join);
    assert s'.live == s.live && s.live.completedNodes[..|s.live.completedNodes|] == s.live.completedNodes;
    SameRound(w, s, s');
  }

  lemma BootRounds(w: World, s: State)
    requires Enabled(w, s, Boot)
    ensures RoundsInv(w, Next(w, s, Boot))
  {
    var s' := Next(w, s, Boot);
    NothingSettledYet(w.Graph(), s'.base);
    assert CompletedBefore(s') == s'.base;
  }

  lemma TaskRounds(w: World, s: State, step: Step)
    requires RoundsInv(w, s) && Enabled(w, s, step) && (step.Return? || step.Update?)
    ensures RoundsInv(w, Next(w, s, step))
  {
    SameRound(w, s, Next(w, s, step));
  }

  lemma FinishRounds(w: World, s: State)
    requires RoundsInv(w, s) && Enabled(w, s, Finish)
    ensures RoundsInv(w, Next(w, s, Finish))
  {
    SameRounds(w, s, Next(w, s, Finish));
  }

  lemma SavesInRounds(w: World, s: State, o: Owner)
    requires Shape(w, s) && Enabled(w, s, Save(o))
    ensures s.control.Round? || s.control.Marking?
  {}

  lemma RoundsKept(w: World, s: State, step: Step)
    requires Valid(w) && Inv(w, s) && RoundsInv(w, s) && Enabled(w, s, step)
    ensures RoundsInv(w, Next(w, s, step))
  {
    match step
    case Boot => BootRounds(w, s);
    case Crash(_) =>
    case Apply => assert s.queue[0] in s.queue; ApplyRounds(w, s);
    case BeginRound => BeginRounds(w, s);
    case Return(_, _) => TaskRounds(w, s, step);
    case Update(_) => TaskRounds(w, s, step);
    case Save(o) => SavesInRounds(w, s, o); SaveRounds(w, s, o);
    case Join => JoinRounds(w, s);
    case MarkNext => MarkRounds(w, s);
    case NextRound => NextRounds(w, s);
    case Finish => FinishRounds(w, s);
  }

  lemma ReachableRounds(w: World, s: State)
    requires Valid(w) && Reachable(w, s)
    ensures RoundsInv(w, s)
  {
    forall t, step | Inv(w, t) && RoundsInv(w, t) && Enabled(w, t, step) ensures RoundsInv(w, Next(w, t, step)) {
      RoundsKept(w, t, step);
    }
    ReachableInduction(w, t => RoundsInv(w, t), s);
  }

  /**
   A node not completed when the life began is completed after exactly as many rounds as its longest path of
   nodes not completed then.
   */
  lemma CompletedInRoundOfRest(w: World, s: State, n: NodeId)
    requires Valid(w) && Reachable(w, s) && s.control.LoopHead? && n !in s.base
    ensures var rest := Rest(w.Graph(), s.base);
            n in s.live.completedNodes <==> !Doomed(rest, n) && Height(rest, n) <= s.rounds
  {
    ReachableRounds(w, s);
    var rest := Rest(w.Graph(), s.base);
    assert n in s.live.completedNodes <==> Settled(rest, n, s.rounds);
    DoomedIffUnbounded(rest, n);
    if !Doomed(rest, n) { SettledIffHeight(rest, n, s.rounds); }
  }

  lemma {:induction false} FilterAll(nodes: seq<NodeId>)
    ensures Filter(nodes, n => n !in []) == nodes
  {
    if nodes != [] {
      FilterAll(nodes[..|nodes| - 1]);
      assert nodes == nodes[..|nodes| - 1] + [Last(nodes)];
    }
  }

  lemma RestOfNothing(g: Graph)
    ensures Rest(g, []) == g
  {
    FilterAll(g.nodes);
    forall n | n in g.deps ensures Rest(g, []).deps[n] == g.deps[n] { FilterAll(g.deps[n]); }
  }

  /** From a fresh start, a node is completed after exactly as many rounds as its longest dependency path has nodes. */
  lemma CompletedInRoundOfHeight(w: World, s: State, n: NodeId)
    requires Valid(w) && Reachable(w, s) && s.control.LoopHead? && s.base == []
    ensures n in s.live.completedNodes <==> !Doomed(w.Graph(), n) && Height(w.Graph(), n) <= s.rounds
  {
    CompletedInRoundOfRest(w, s, n);
    RestOfNothing(w.Graph());
  }

  lemma RestSettlesSooner(g: Graph, base: seq<NodeId>, n: NodeId, k: nat)
    requires Settled(g, n, k) && n !in base
    ensures Settled(Rest(g, base), n, k)
  {
    var rest := Rest(g, base);
    forall p | PathFrom(rest, n, p) ensures |p| <= k && Last(p) in rest.nodes {
      RestPath(g, base, p);
    }
  }

  ghost predicate RestEdge(g: Graph, base: seq<NodeId>, n: NodeId, d: NodeId) {
    n in g.nodes && d in g.DepsOf(n) && d !in base
  }

  lemma RestPath(g: Graph, base: seq<NodeId>, p: seq<NodeId>)
    requires Path(Rest(g, base), p) && p[0] !in base
    ensures Path(g, p) && Last(p) !in base
  {
    forall i | 0 <= i < |p| - 1 ensures RestEdge(g, base, p[i], p[i + 1]) {
      RestIs(g, base, p[i]);
    }
    if |p| > 1 { assert RestEdge(g, base, p[|p| - 2], p[|p| - 1]); }
  }

  /** A restart never makes a node complete later than without it. */
  lemma CompletedByRoundOfHeight(w: World, s: State, n: NodeId)
    requires Valid(w) && Reachable(w, s) && s.control.LoopHead?
    requires !Doomed(w.Graph(), n) && Height(w.Graph(), n) <= s.rounds
    ensures n in s.live.completedNodes
  {
    ReachableRounds(w, s);
    SettledIffHeight(w.Graph(), n, s.rounds);
    if n !in s.base { RestSettlesSooner(w.Graph(), s.base, n, s.rounds); }
  }

  // ---------------------------------------------------------------- endings

  /** Every answer a node may give is a success. */
  ghost predicate Succeeding(w: World) {
    forall n, d, inputs, outcome :: w.may(n, d, inputs, outcome) ==> outcome.Succeeded?
  }

  predicate Successful(p: Phase) {
    match p
    case Running(_) => true
    case Returned(_, outcome) => outcome.Succeeded?
    case Reading(ok) => ok
    case Replied(ok) => ok
    case Writing(ok) => ok
    case Done(ok) => ok
  }

  ghost predicate AllSuccessful(tasks: map<NodeId, Phase>) {
    forall n :: n in tasks ==> Successful(tasks[n])
  }

  ghost predicate AllCompleted(w: World, c: ExecutionContext) {
    forall n :: n in Keys(w.definition) ==> n in c.completedNodes
  }

  ghost predicate NothingReady(g: Graph, completed: seq<NodeId>) {
    forall n :: !Ready(g, completed, n)
  }

  ghost predicate EndingOk(w: World, c: ExecutionContext, ending: Ending) {
    match ending
    case Completed(_) => AllCompleted(w, c) && Ended(w, c) == ending
    case Threw(_) => AllCompleted(w, c) && Ended(w, c) == ending
    case Circular(blocked) =>
      && NothingReady(w.Graph(), c.completedNodes) && !AllCompleted(w, c)
      && blocked == BlockedNodes(c, w.Graph().deps)
    case NodesFailed(failed) => failed != [] && !Succeeding(w)
  }

  ghost predicate OutcomeInv(w: World, s: State) {
    && (Succeeding(w) ==> AllSuccessful(s.tasks))
    && (s.control.Finishing? || s.control.Over? ==> EndingOk(w, s.live, s.control.ending))
  }

  lemma CountDecides(w: World, c: ExecutionContext)
    requires Valid(w) && Sound(w, c)
    ensures AllCompleted(w, c) <==> |c.completedNodes| >= |c.allNodes|
  {
    var all := Keys(w.definition);
    if AllCompleted(w, c) { Pigeonhole(all, c.completedNodes); }
    forall n | n in all && n !in c.completedNodes ensures |c.completedNodes| < |all| {
      NoDupSnoc(c.completedNodes, n);
      Pigeonhole(c.completedNodes + [n], all);
    }
  }

  lemma StartOutcome(w: World, s: State, ready: seq<NodeId>)
    requires forall n :: n in ready ==> CanStart(w, s.live, n)
    ensures AllSuccessful(StartTasks(w, s.live, ready))
  {
    StartTasksShape(w, s.live, ready);
  }

  lemma BeginOutcome(w: World, s: State)
    requires Valid(w) && Sound(w, s.live) && OutcomeInv(w, s) && Enabled(w, s, BeginRound)
    ensures OutcomeInv(w, Next(w, s, BeginRound))
  {
    CountDecides(w, s.live);
    ReadyNodesAreReady(w, s.live);
    if Unfinished(s) {
      var ready := ReadyNodes(w, s);
      StartOutcome(w, s, ready);
      if ready == [] {
        assert NothingReady(w.Graph(), s.live.completedNodes);
        assert EndingOk(w, s.live, Circular(BlockedNodes(s.live, w.Graph().deps)));
      }
    } else {
      assert EndingOk(w, s.live, Ended(w, s.live));
    }
  }

  lemma FailureIsReported(tasks: map<NodeId, Phase>, ready: seq<NodeId>)
    requires AllSuccessful(tasks)
    ensures Filter(ready, n => n in tasks && tasks[n].Done? && !tasks[n].success) == []
  {
    var failed := Filter(ready, n => n in tasks && tasks[n].Done? && !tasks[n].success);
    assert forall n :: n in failed ==> n in tasks && !Successful(tasks[n]);
    HasMember(failed);
  }

  lemma JoinOutcome(w: World, s: State)
    requires OutcomeInv(w, s) && Enabled(w, s, Join)
    ensures OutcomeInv(w, Next(w, s, Join))
  {
    if Succeeding(w) { FailureIsReported(s.tasks, s.control.ready); }
  }

  lemma ReturnOutcome(w: World, s: State, n: NodeId, outcome: Outcome)
    requires OutcomeInv(w, s) && Enabled(w, s, Return(n, outcome))
    ensures OutcomeInv(w, Next(w, s, Return(n, outcome)))
  {}

  lemma TasksStaySuccessful(tasks: map<NodeId, Phase>, n: NodeId, p: Phase)
    requires AllSuccessful(tasks) && Successful(p)
    ensures AllSuccessful(tasks[n := p])
  {}

  lemma ApplyOutcome(w: World, s: State)
    requires OutcomeInv(w, s) && Enabled(w, s, Apply)
    ensures OutcomeInv(w, Next(w, s, Apply)) || s.control.Finishing? || s.control.Over?
  {
    var o := s.queue[0].owner;
    if o.Task? && o.node in s.tasks && Succeeding(w) {
      assert Successful(s.tasks[o.node]);
      TasksStaySuccessful(s.tasks, o.node, Moved(s.tasks[o.node]));
    }
  }

  lemma UpdateOutcome(w: World, s: State, n: NodeId)
    requires OutcomeInv(w, s) && Enabled(w, s, Update(n))
    ensures OutcomeInv(w, Next(w, s, Update(n)))
  {
    if Succeeding(w) {
      assert Successful(s.tasks[n]);
      TasksStaySuccessful(s.tasks, n, Next(w, s, Update(n)).tasks[n]);
    }
  }

  lemma SaveOutcome(w: World, s: State, o: Owner)
    requires OutcomeInv(w, s) && Enabled(w, s, Save(o)) && !s.control.Finishing? && !s.control.Over?
    ensures OutcomeInv(w, Next(w, s, Save(o)))
  {
    if Succeeding(w) && o.Task? {
      assert Successful(s.tasks[o.node]);
      TasksStaySuccessful(s.tasks, o.node, Writing(s.tasks[o.node].success));
    }
  }

  lemma RestingQueue(w: World, s: State)
    requires Shape(w, s) && QueueOk(s) && (s.control.Finishing? || s.control.Over?)
    ensures s.queue == []
  {
    RestIsQuiet(s);
    QuietQueue(s, s);
  }

  lemma OutcomeKept(w: World, s: State, step: Step)
    requires Valid(w) && Inv(w, s) && OutcomeInv(w, s) && Enabled(w, s, step)
    ensures OutcomeInv(w, Next(w, s, step))
  {
    match step
    case Boot =>
    case Crash(_) =>
    case Apply =>
      if s.control.Finishing? || s.control.Over? { RestingQueue(w, s); } else { ApplyOutcome(w, s); }
    case BeginRound => BeginOutcome(w, s);
    case Join => JoinOutcome(w, s);
    case Return(n, outcome) => ReturnOutcome(w, s, n, outcome);
    case Update(n) => UpdateOutcome(w, s, n);
    case Save(o) => SavesInRounds(w, s, o); SaveOutcome(w, s, o);
    case MarkNext =>
    case NextRound =>
    case Finish =>
  }

  lemma ReachableOutcome(w: World, s: State)
    requires Valid(w) && Reachable(w, s)
    ensures OutcomeInv(w, s)
  {
    forall t, step | Inv(w, t) && OutcomeInv(w, t) && Enabled(w, t, step) ensures OutcomeInv(w, Next(w, t, step)) {
      OutcomeKept(w, t, step);
    }
    ReachableInduction(w, t => OutcomeInv(w, t), s);
  }

  /**
   Unless a node fails, the circular-dependency error is the ending exactly when some node reaches a cycle or
   a dependency outside the workflow, and the error lists exactly those nodes, each with its doomed dependencies.
   */
  lemma StuckExactlyWhenDoomed(w: World, s: State)
    requires Valid(w) && Reachable(w, s) && s.control.Over?
    ensures Succeeding(w) ==> !s.control.ending.NodesFailed?
    ensures !s.control.ending.NodesFailed? ==>
              (s.control.ending.Circular? <==> exists n :: n in Keys(w.definition) && Doomed(w.Graph(), n))
    ensures s.control.ending.Circular? ==>
              forall n :: IsBlocked(s.control.ending.blocked, n) <==> n in Keys(w.definition) && Doomed(w.Graph(), n)
    ensures s.control.ending.Circular? ==> WaitsForDoomed(w.Graph(), s.control.ending.blocked)
  {
    ReachableInv(w, s);
    ReachableOutcome(w, s);
    if !s.control.ending.NodesFailed? { EndingMeansDoomed(w, s.live, s.control.ending); }
    if s.control.ending.Circular? {
      CircularNamesDoomed(w, s.live, s.control.ending);
      forall n ensures IsBlocked(s.control.ending.blocked, n) <==> n in Keys(w.definition) && Doomed(w.Graph(), n) {
        CircularMeansDoomed(w, s.live, s.control.ending, n);
      }
    }
  }

  lemma LeftoversAreDoomed(w: World, c: ExecutionContext, n: NodeId)
    requires Valid(w) && Sound(w, c) && NothingReady(w.Graph(), c.completedNodes) && n in Keys(w.definition)
    ensures n !in c.completedNodes <==> Doomed(w.Graph(), n)
  {
    StuckMeansDoomed(w.Graph(), c.completedNodes, n);
  }

  lemma CompletedIsNotDoomed(w: World, c: ExecutionContext, n: NodeId)
    requires Sound(w, c) && n in c.completedNodes
    ensures !Doomed(w.Graph(), n)
  {
    var i :| 0 <= i < |c.completedNodes| && c.completedNodes[i] == n;
    TopologicalSettles(w.Graph(), c.completedNodes, i);
  }

  lemma CircularMeansDoomed(w: World, c: ExecutionContext, ending: Ending, n: NodeId)
    requires Valid(w) && Sound(w, c) && EndingOk(w, c, ending) && ending.Circular?
    ensures IsBlocked(ending.blocked, n) <==> n in Keys(w.definition) && Doomed(w.Graph(), n)
  {
    BlockedAreLeftovers(c, w.Graph().deps, n);
    if n in Keys(w.definition) { LeftoversAreDoomed(w, c, n); }
  }

  lemma MissingIsDoomed(g: Graph, n: NodeId)
    requires n !in g.nodes
    ensures Doomed(g, n)
  {
    assert PathFrom(g, n, [n]) && Last([n]) == n;
  }

  /** What each named node waits for are its doomed dependencies. */
  ghost predicate WaitsForDoomed(g: Graph, blocked: seq<Blocked>) {
    forall b, d :: b in blocked ==> (d in b.missingDeps <==> d in g.DepsOf(b.nodeId) && Doomed(g, d))
  }

  lemma CircularNamesDoomed(w: World, c: ExecutionContext, ending: Ending)
    requires Valid(w) && Sound(w, c) && EndingOk(w, c, ending) && ending.Circular?
    ensures WaitsForDoomed(w.Graph(), ending.blocked)
  {
    forall b, d | b in ending.blocked
      ensures d in b.missingDeps <==> d in w.Graph().DepsOf(b.nodeId) && Doomed(w.Graph(), d)
    {
      BlockedAreLeftovers(c, w.Graph().deps, d);
      if d in Keys(w.definition) {
        LeftoversAreDoomed(w, c, d);
      } else {
        MissingIsDoomed(w.Graph(), d);
        if d in c.completedNodes { CompletedIsNotDoomed(w, c, d); }
      }
    }
  }

  lemma EndingMeansDoomed(w: World, c: ExecutionContext, ending: Ending)
    requires Valid(w) && Sound(w, c) && EndingOk(w, c, ending) && !ending.NodesFailed?
    ensures ending.Circular? <==> exists n :: n in Keys(w.definition) && Doomed(w.Graph(), n)
  {
    if ending.Circular? {
      var n :| n in Keys(w.definition) && n !in c.completedNodes;
      LeftoversAreDoomed(w, c, n);
    } else {
      forall n | n in Keys(w.definition) ensures !Doomed(w.Graph(), n) {
        CompletedIsNotDoomed(w, c, n);
      }
    }
  }
}
