/** What holds in every reachable state: updates survive, no step is blocked, and a run ends. */
module ExecutorRuns {
  import opened Wrappers
  import opened Flow
  import opened Graphs
  import opened Context
  import opened Executor
  import opened ExecutorInvariant

  /** Reached from a machine with an empty store, through any interleaving, crashes and restarts. */
  ghost predicate Reachable(w: World, s: State) {
    exists run :: IsRun(w, run) && run[0] == Initial(w) && Last(run) == s
  }

  lemma RunPrefix(w: World, run: seq<State>)
    requires IsRun(w, run) && |run| > 1
    ensures IsRun(w, run[..|run| - 1])
  {
    var front := run[..|run| - 1];
    forall i | 0 <= i < |front| - 1 ensures Follows(w, front[i], front[i + 1]) {
      assert Follows(w, run[i], run[i + 1]);
    }
  }

  lemma {:induction false} RunKeepsInv(w: World, run: seq<State>)
    requires Valid(w) && IsRun(w, run) && Inv(w, run[0])
    ensures Inv(w, Last(run))
    decreases |run|
  {
    if |run| > 1 {
      var front := run[..|run| - 1];
      RunPrefix(w, run);
      RunKeepsInv(w, front);
      assert Follows(w, run[|run| - 2], run[|run| - 1]);
      var step :| Enabled(w, Last(front), step) && Last(run) == Next(w, Last(front), step);
      InvKept(w, Last(front), step);
    }
  }

  lemma ReachableInv(w: World, s: State)
    requires Valid(w) && Reachable(w, s)
    ensures Inv(w, s)
  {
    var run :| IsRun(w, run) && run[0] == Initial(w) && Last(run) == s;
    InitialInv(w);
    RunKeepsInv(w, run);
  }

  lemma InitialInv(w: World)
    ensures Inv(w, Initial(w))
  {}

  /** Induction over reachable states, on top of the invariant. */
  lemma ReachableInduction(w: World, P: State -> bool, s: State)
    requires Valid(w) && Reachable(w, s) && P(Initial(w))
    requires forall t, step :: Inv(w, t) && P(t) && Enabled(w, t, step) ==> P(Next(w, t, step))
    ensures P(s)
  {
    var run :| IsRun(w, run) && run[0] == Initial(w) && Last(run) == s;
    InitialInv(w);
    RunInduction(w, P, run);
  }

  lemma {:induction false} RunInduction(w: World, P: State -> bool, run: seq<State>)
    requires Valid(w) && IsRun(w, run) && Inv(w, run[0]) && P(run[0])
    requires forall t, step :: Inv(w, t) && P(t) && Enabled(w, t, step) ==> P(Next(w, t, step))
    ensures P(Last(run))
    decreases |run|
  {
    if |run| > 1 {
      var front := run[..|run| - 1];
      RunPrefix(w, run);
      RunInduction(w, P, front);
      RunKeepsInv(w, front);
      assert Follows(w, run[|run| - 2], run[|run| - 1]);
      var step :| Enabled(w, Last(front), step) && Last(run) == Next(w, Last(front), step);
    }
  }

  // ---------------------------------------------------------------- no lost update

  lemma QuietIsStored(s: State)
    requires QueueOk(s) && Fresh(s) && Quiet(s) && !s.control.Down?
    ensures s.queue == [] && s.stored == Some(Serialize(s.live))
  {
    QuietQueue(s, s);
  }

  lemma SoundReloads(w: World, c: ExecutionContext)
    requires Valid(w) && Sound(w, c)
    ensures Deserialize(Serialize(c)) == c
  {
    StoreRoundTrip(c);
  }

  /** While no `updateNode` and no `markNodeCompleted` is under way, the store holds the context in memory. */
  lemma NoLostUpdate(w: World, s: State)
    requires Valid(w) && Reachable(w, s) && !s.control.Down? && Quiet(s)
    ensures s.queue == [] && s.stored == Some(Serialize(s.live))
    ensures Deserialize(s.stored.value) == s.live
  {
    ReachableInv(w, s);
    QuietIsStored(s);
    SoundReloads(w, s.live);
  }

  /** Even a crash in mid-update stores only contexts whose completed nodes were all recorded, in order. */
  lemma StoredSnapshotsAreSound(w: World, s: State, applied: nat)
    requires Valid(w) && Reachable(w, s) && applied <= |s.queue|
    ensures var v := ApplyAll(s.stored, s.queue[..applied]);
            v.Some? ==> Sound(w, Deserialize(v.value))
  {
    ReachableInv(w, s);
    ApplyAllSound(w, s.stored, s.queue[..applied]);
    var v := ApplyAll(s.stored, s.queue[..applied]);
    if v.Some? { LoadSound(w, v.value); }
  }

  // ---------------------------------------------------------------- ready means resolvable

  lemma AncestorIsCompleted(w: World, c: seq<NodeId>, n: NodeId)
    requires EntrySafe(w) && Topological(w.Graph(), c) && Ready(w.Graph(), c, n)
    requires n in Keys(w.definition) && n != ENTRYPOINT_ID && Sourceless(w.Node(n).inputs)
    ensures ENTRYPOINT_ID in c
  {
    var p :| PathFrom(w.Graph(), n, p) && |p| > 1 && Last(p) == ENTRYPOINT_ID;
    ReachableIsListed(w.Graph(), c, n, p);
  }

  lemma NeedsAreThese(n: NodeId, d: NodeDef, c: seq<NodeId>)
    requires AllIn(Dependencies(d.inputs), c) && (n != ENTRYPOINT_ID && Sourceless(d.inputs) ==> ENTRYPOINT_ID in c)
    ensures forall id :: id in Needs(n, d) ==> id in c
  {}

  lemma DependenciesAreListed(w: World, c: seq<NodeId>, n: NodeId)
    requires ValidRecord(w.definition) && Ready(w.Graph(), c, n)
    ensures n in Keys(w.definition) && AllIn(Dependencies(w.Node(n).inputs), c)
  {
    NodeDependencies(w, n);
  }

  lemma NeedsAreListed(w: World, c: seq<NodeId>, n: NodeId)
    requires ValidRecord(w.definition) && EntrySafe(w) && Topological(w.Graph(), c) && Ready(w.Graph(), c, n)
    ensures n in Keys(w.definition) && forall id :: id in Needs(n, w.Node(n)) ==> id in c
  {
    DependenciesAreListed(w, c, n);
    if n != ENTRYPOINT_ID && Sourceless(w.Node(n).inputs) { AncestorIsCompleted(w, c, n); }
    NeedsAreThese(n, w.Node(n), c);
  }

  lemma NeedsAreCompleted(w: World, c: ExecutionContext, n: NodeId)
    requires Valid(w) && Sound(w, c) && Ready(w.Graph(), c.completedNodes, n)
    ensures forall id :: id in Needs(n, w.Node(n)) ==> id in c.completedNodes
  {
    NeedsAreListed(w, c.completedNodes, n);
  }

  lemma NodeDependencies(w: World, n: NodeId)
    requires ValidRecord(w.definition) && n in Keys(w.definition)
    ensures w.Graph().DepsOf(n) == Dependencies(w.Node(n).inputs)
  {
    var i :| 0 <= i < |w.definition| && Keys(w.definition)[i] == n;
    LookupUnique(w.definition, i);
    GraphDependencies(w.definition, i);
  }

  /** Resolving the inputs of a ready node never throws. */
  lemma ReadyIsResolvable(w: World, c: ExecutionContext, n: NodeId)
    requires Valid(w) && Sound(w, c) && Ready(w.Graph(), c.completedNodes, n)
    ensures CanStart(w, c, n)
  {
    NeedsAreCompleted(w, c, n);
    if n != ENTRYPOINT_ID {
      ResolvesIffNeedsRecorded(OutputsOf(c.nodeExecutions), n, w.Node(n));
    }
  }

  /** The inputs of a ready node do not depend on what other unfinished nodes record meanwhile. */
  lemma ReadyIsIndependent(w: World, c: ExecutionContext, n: NodeId, m: NodeId, e: NodeExecution)
    requires Valid(w) && Sound(w, c) && Ready(w.Graph(), c.completedNodes, n) && m !in c.completedNodes
    ensures ResolveInputs(c.(nodeExecutions := c.nodeExecutions[m := e]), n, w.Node(n)) == ResolveInputs(c, n, w.Node(n))
  {
    NeedsAreCompleted(w, c, n);
    if n != ENTRYPOINT_ID {
      ResolveReadsNeeds(OutputsOf(c.nodeExecutions), OutputsOf(c.nodeExecutions[m := e]), n, w.Node(n));
    }
  }

  // ---------------------------------------------------------------- progress

  predicate Works(step: Step) {
    !step.Boot? && !step.Crash?
  }

  ghost predicate CanWork(w: World, s: State) {
    exists step :: Works(step) && Enabled(w, s, step)
  }

  ghost predicate Answers(w: World, n: NodeId, d: NodeDef, inputs: Inputs) {
    exists outcome :: w.may(n, d, inputs, outcome)
  }

  lemma CanDo(w: World, s: State, step: Step)
    requires Works(step) && Enabled(w, s, step)
    ensures CanWork(w, s)
  {}

  /** Every node answers every input somehow. */
  ghost predicate Total(w: World) {
    forall n, d, inputs :: Answers(w, n, d, inputs)
  }

  lemma RunningProgress(w: World, s: State, n: NodeId)
    requires Shape(w, s) && Total(w) && s.control.Round? && n in s.tasks && s.tasks[n].Running?
    ensures CanWork(w, s)
  {
    RoundNodeIsReady(w, s, n);
    assert Answers(w, n, w.Node(n), s.tasks[n].inputs);
    var outcome :| w.may(n, w.Node(n), s.tasks[n].inputs, outcome);
    CanDo(w, s, Return(n, outcome));
  }

  lemma QueueProgress(w: World, s: State)
    requires Inv(w, s) && s.queue != [] && !s.control.Down?
    ensures CanWork(w, s)
  {
    assert s.queue[0] in s.queue;
    CanDo(w, s, Apply);
  }

  lemma ReturnedProgress(w: World, s: State, n: NodeId)
    requires s.control.Round? && n in s.tasks && s.tasks[n].Returned?
    ensures CanWork(w, s)
  {
    CanDo(w, s, Update(n));
  }

  lemma RepliedProgress(w: World, s: State, n: NodeId)
    requires n in s.tasks && s.tasks[n].Replied?
    ensures CanWork(w, s)
  {
    CanDo(w, s, Save(Task(n)));
  }

  lemma NobodyWaits(s: State, n: NodeId)
    requires QueueOk(s) && s.queue == [] && n in s.tasks
    ensures !s.tasks[n].Reading? && !s.tasks[n].Writing?
  {
    assert SyncOf(s, Task(n)) != AwaitRead && SyncOf(s, Task(n)) != AwaitWrite;
  }

  lemma RoundProgress(w: World, s: State)
    requires Shape(w, s) && QueueOk(s) && Total(w) && s.control.Round? && s.queue == []
    ensures CanWork(w, s)
  {
    if n :| n in s.tasks && !s.tasks[n].Done? {
      NobodyWaits(s, n);
      match s.tasks[n]
      case Running(_) => RunningProgress(w, s, n);
      case Returned(_, _) => ReturnedProgress(w, s, n);
      case Replied(_) => RepliedProgress(w, s, n);
    } else {
      CanDo(w, s, Join);
    }
  }

  /** Until the run is over some step is possible, whatever the interleaving so far. */
  lemma Progress(w: World, s: State)
    requires Valid(w) && Total(w) && Reachable(w, s) && !s.control.Down? && !s.control.Over?
    ensures CanWork(w, s)
  {
    ReachableInv(w, s);
    if s.queue != [] {
      QueueProgress(w, s);
    } else {
      assert SyncOf(s, Main) != AwaitRead && SyncOf(s, Main) != AwaitWrite;
      match s.control
      case Round(_) => RoundProgress(w, s);
      case LoopHead =>
        ReadyNodesAreReady(w, s.live);
        forall n | n in ReadyNodes(w, s) ensures CanStart(w, s.live, n) { ReadyIsResolvable(w, s.live, n); }
        CanDo(w, s, BeginRound);
      case Marking(ready, next, mark) =>
        if mark.ToMark? {
          CanDo(w, s, if next < |ready| then MarkNext else NextRound);
        } else {
          CanDo(w, s, Save(Main));
        }
      case Finishing(_) => CanDo(w, s, Finish);
    }
  }
}
