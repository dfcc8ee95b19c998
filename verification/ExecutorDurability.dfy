/** A node completed in the store stays completed, in order, and is never started again in any later life. */
module ExecutorDurability {
  import opened Wrappers
  import opened Graphs
  import opened Context
  import opened Executor
  import opened ExecutorInvariant
  import opened ExecutorRuns
  import opened ExecutorOutcome

  function CompletedIn(v: Option<StoredContext>): seq<NodeId> {
    if v.Some? then OrEmpty(v.value.completedNodes) else []
  }

  /** From the store through the pending writes to memory, the completed list only grows. */
  predicate Chain(completed: seq<NodeId>, queue: seq<Command>, live: seq<NodeId>)
    decreases |queue|
  {
    if queue == [] then completed <= live
    else if queue[0].Set? then
      var next := OrEmpty(queue[0].value.completedNodes);
      completed <= next && Chain(next, queue[1..], live)
    else Chain(completed, queue[1..], live)
  }

  lemma {:induction false} ChainSnoc(completed: seq<NodeId>, queue: seq<Command>, live: seq<NodeId>, live': seq<NodeId>,
                                    c: Command)
    requires Chain(completed, queue, live) && live <= live' && (c.Set? ==> OrEmpty(c.value.completedNodes) == live')
    ensures Chain(completed, queue + [c], live')
    decreases |queue|
  {
    if queue == [] {
      assert (queue + [c])[1..] == [];
      assert Chain(live', [], live') && Chain(completed, [], live');
    } else {
      assert (queue + [c])[1..] == queue[1..] + [c];
      ChainSnoc(if queue[0].Set? then OrEmpty(queue[0].value.completedNodes) else completed, queue[1..], live, live', c);
    }
  }

  lemma {:induction false} ChainCut(stored: Option<StoredContext>, queue: seq<Command>, live: seq<NodeId>, k: nat)
    requires Chain(CompletedIn(stored), queue, live) && k <= |queue|
    ensures CompletedIn(stored) <= CompletedIn(ApplyAll(stored, queue[..k])) <= live
    decreases |queue|
  {
    if k > 0 {
      assert queue[..k][1..] == queue[1..][..k - 1];
      ChainCut(ApplyCommand(stored, queue[0]), queue[1..], live, k - 1);
    } else if queue != [] {
      ChainCut(ApplyCommand(stored, queue[0]), queue[1..], live, 0);
    }
  }

  ghost predicate ChainInv(s: State) {
    !s.control.Down? ==> Chain(CompletedIn(s.stored), s.queue, s.live.completedNodes)
  }

  lemma UpdateChain(w: World, s: State, n: NodeId)
    requires ChainInv(s) && Enabled(w, s, Update(n))
    ensures ChainInv(Next(w, s, Update(n)))
  {
    ChainSnoc(CompletedIn(s.stored), s.queue, s.live.completedNodes, s.live.completedNodes, Get(Task(n)));
  }

  lemma SaveChain(w: World, s: State, o: Owner)
    requires ChainInv(s) && Enabled(w, s, Save(o)) && !s.control.Down?
    ensures ChainInv(Next(w, s, Save(o)))
  {
    ChainSnoc(CompletedIn(s.stored), s.queue, s.live.completedNodes, s.live.completedNodes, Set(o, Serialize(s.live)));
  }

  lemma MarkChain(w: World, s: State)
    requires ChainInv(s) && Enabled(w, s, MarkNext) && Shape(w, s)
    ensures ChainInv(Next(w, s, MarkNext))
  {
    MarkNextShape(w, s);
    ChainSnoc(CompletedIn(s.stored), s.queue, s.live.completedNodes, Next(w, s, MarkNext).live.completedNodes, Get(Main));
  }

  lemma ApplyChain(w: World, s: State)
    requires ChainInv(s) && Enabled(w, s, Apply) && !s.control.Down?
    ensures ChainInv(Next(w, s, Apply))
  {
    assert Next(w, s, Apply).live == s.live;
  }

  lemma BootChain(w: World, s: State)
    requires Valid(w) && AllSound(w, s) && Enabled(w, s, Boot)
    ensures ChainInv(Next(w, s, Boot))
  {
    if s.stored.Some? {
      LoadSound(w, s.stored.value);
      assert Serialize(Deserialize(s.stored.value)) == s.stored.value;
    } else {
      var s' := Next(w, s, Boot);
      assert s'.queue[1..] == [] && Chain([], [], []);
    }
  }

  lemma ChainKept(w: World, s: State, step: Step)
    requires Valid(w) && Inv(w, s) && ChainInv(s) && Enabled(w, s, step)
    ensures ChainInv(Next(w, s, step))
  {
    match step
    case Boot => BootChain(w, s);
    case Crash(_) =>
    case Apply => AppliesWhenUp(w, s); ApplyChain(w, s);
    case Update(n) => UpdateChain(w, s, n);
    case Save(o) => SavesInRounds(w, s, o); SaveChain(w, s, o);
    case MarkNext => MarkChain(w, s);
    case BeginRound =>
    case Return(_, _) =>
    case Join =>
    case NextRound =>
    case Finish =>
  }

  lemma ReachableChain(w: World, s: State)
    requires Valid(w) && Reachable(w, s)
    ensures ChainInv(s)
  {
    forall t, step | Inv(w, t) && ChainInv(t) && Enabled(w, t, step) ensures ChainInv(Next(w, t, step)) {
      ChainKept(w, t, step);
    }
    ReachableInduction(w, t => ChainInv(t), s);
  }

  lemma AppliesWhenUp(w: World, s: State)
    requires Shape(w, s) && QueueOk(s) && Enabled(w, s, Apply)
    ensures !s.control.Down?
  {
    assert s.queue[0] in s.queue;
  }

  lemma ApplyGrows(w: World, s: State)
    requires ChainInv(s) && Enabled(w, s, Apply) && !s.control.Down?
    ensures CompletedIn(s.stored) <= CompletedIn(Next(w, s, Apply).stored)
  {
    ChainCut(s.stored, s.queue, s.live.completedNodes, 1);
    assert s.queue[..1][1..] == [];
  }

  lemma CrashGrows(w: World, s: State, applied: nat)
    requires ChainInv(s) && Enabled(w, s, Crash(applied))
    ensures CompletedIn(s.stored) <= CompletedIn(Next(w, s, Crash(applied)).stored)
  {
    ChainCut(s.stored, s.queue, s.live.completedNodes, applied);
  }

  lemma StoreUntouched(w: World, s: State, step: Step)
    requires Enabled(w, s, step) && !step.Apply? && !step.Crash?
    ensures Next(w, s, step).stored == s.stored
  {}

  lemma StoreGrows(w: World, s: State, step: Step)
    requires Valid(w) && Inv(w, s) && ChainInv(s) && Enabled(w, s, step)
    ensures CompletedIn(s.stored) <= CompletedIn(Next(w, s, step).stored)
  {
    if step.Apply? {
      AppliesWhenUp(w, s);
      ApplyGrows(w, s);
    } else if step.Crash? {
      CrashGrows(w, s, step.applied);
    } else {
      StoreUntouched(w, s, step);
    }
  }

  /** Along any run, crashes included, the stored completed list only grows, at its end. */
  lemma {:induction false} CompletionIsDurable(w: World, run: seq<State>)
    requires Valid(w) && IsRun(w, run) && Inv(w, run[0]) && ChainInv(run[0])
    ensures CompletedIn(run[0].stored) <= CompletedIn(Last(run).stored)
    ensures Inv(w, Last(run)) && ChainInv(Last(run))
    decreases |run|
  {
    if |run| > 1 {
      var front := run[..|run| - 1];
      RunPrefix(w, run);
      CompletionIsDurable(w, front);
      assert Follows(w, run[|run| - 2], run[|run| - 1]);
      var step :| Enabled(w, Last(front), step) && Last(run) == Next(w, Last(front), step);
      StoreGrows(w, Last(front), step);
      ChainKept(w, Last(front), step);
      InvKept(w, Last(front), step);
    }
  }

  /** No completed node is executed again: not in this life, nor after any number of crashes and restarts. */
  lemma CompletedIsNeverRestarted(w: World, run: seq<State>, n: NodeId)
    requires Valid(w) && IsRun(w, run) && Reachable(w, run[0]) && n in CompletedIn(run[0].stored)
    requires Last(run).control.Round? || Last(run).control.LoopHead?
    ensures n in Last(run).live.completedNodes && n !in Last(run).tasks && n !in ReadyNodes(w, Last(run))
  {
    ReachableInv(w, run[0]);
    ReachableChain(w, run[0]);
    CompletionIsDurable(w, run);
    var s := Last(run);
    ChainCut(s.stored, s.queue, s.live.completedNodes, 0);
    assert n in s.live.completedNodes;
    ReadyNodesAreReady(w, s.live);
    if n in s.tasks { RoundNodeIsReady(w, s, n); }
  }
}
