/** Every step of the executor keeps the invariant, and some step is always possible until the end. */
module ExecutorInvariant {
  import opened Wrappers
  import opened Graphs
  import opened Context
  import opened Executor

  // ---------------------------------------------------------------- shape of the control state

  /** A task that moves within its round keeps the round's shape. */
  lemma TaskMoves(tasks: map<NodeId, Phase>, ready: seq<NodeId>, executions: map<NodeId, NodeExecution>, n: NodeId, p: Phase)
    requires n in tasks && TaskPerNode(tasks, ready) && TasksRecorded(tasks, executions)
    requires Settling(p) && p.success ==> Recorded(executions, n)
    ensures TaskPerNode(tasks[n := p], ready) && TasksRecorded(tasks[n := p], executions)
  {}

  lemma RoundKeepsShape(w: World, s: State, s': State)
    requires Shape(w, s) && s.control.Round? && s'.control == s.control && s'.live == s.live
    requires TaskPerNode(s'.tasks, s.control.ready) && TasksRecorded(s'.tasks, s.live.nodeExecutions)
    ensures Shape(w, s')
  {}

  lemma ReturnTasks(w: World, s: State, n: NodeId, outcome: Outcome)
    requires Enabled(w, s, Return(n, outcome))
    requires TaskPerNode(s.tasks, s.control.ready) && TasksRecorded(s.tasks, s.live.nodeExecutions)
    ensures var s' := Next(w, s, Return(n, outcome));
            && s'.control == s.control && s'.live == s.live
            && TaskPerNode(s'.tasks, s.control.ready) && TasksRecorded(s'.tasks, s.live.nodeExecutions)
  {
    TaskMoves(s.tasks, s.control.ready, s.live.nodeExecutions, n, Returned(s.tasks[n].inputs, outcome));
  }

  lemma ReturnShape(w: World, s: State, n: NodeId, outcome: Outcome)
    requires Enabled(w, s, Return(n, outcome)) && Shape(w, s)
    ensures Shape(w, Next(w, s, Return(n, outcome)))
  {
    ReturnTasks(w, s, n, outcome);
    RoundKeepsShape(w, s, Next(w, s, Return(n, outcome)));
  }

  lemma RecordMoves(tasks: map<NodeId, Phase>, executions: map<NodeId, NodeExecution>, n: NodeId, e: NodeExecution)
    requires n in tasks && !Settling(tasks[n]) && TasksRecorded(tasks, executions)
    ensures TasksRecorded(tasks, executions[n := e])
  {}

  lemma RecordAndMove(tasks: map<NodeId, Phase>, ready: seq<NodeId>, executions: map<NodeId, NodeExecution>,
                      n: NodeId, outcome: Outcome)
    requires n in tasks && tasks[n].Returned? && TaskPerNode(tasks, ready) && TasksRecorded(tasks, executions)
    ensures var e := Execution(tasks[n].inputs, outcome);
            var tasks' := tasks[n := Reading(e.success)];
            TaskPerNode(tasks', ready) && TasksRecorded(tasks', executions[n := e])
  {
    var e := Execution(tasks[n].inputs, outcome);
    RecordMoves(tasks, executions, n, e);
    TaskMoves(tasks, ready, executions[n := e], n, Reading(e.success));
  }

  lemma UpdateShape(w: World, s: State, n: NodeId)
    requires Enabled(w, s, Update(n)) && Shape(w, s)
    ensures Shape(w, Next(w, s, Update(n)))
  {
    RecordAndMove(s.tasks, s.control.ready, s.live.nodeExecutions, n, s.tasks[n].outcome);
  }

  lemma SaveShape(w: World, s: State, o: Owner)
    requires Enabled(w, s, Save(o)) && Shape(w, s)
    ensures Shape(w, Next(w, s, Save(o)))
  {
    if o.Task? {
      TaskMoves(s.tasks, s.control.ready, s.live.nodeExecutions, o.node, Writing(s.tasks[o.node].success));
    }
  }

  lemma TaskMovesOn(tasks: map<NodeId, Phase>, ready: seq<NodeId>, executions: map<NodeId, NodeExecution>, n: NodeId)
    requires n in tasks && TaskPerNode(tasks, ready) && TasksRecorded(tasks, executions)
    ensures var tasks' := tasks[n := Moved(tasks[n])]; TaskPerNode(tasks', ready) && TasksRecorded(tasks', executions)
  {
    TaskMoves(tasks, ready, executions, n, Moved(tasks[n]));
  }

  lemma TaskReplyShape(w: World, s: State, n: NodeId)
    requires Shape(w, s)
    ensures Shape(w, Reply(s, Task(n)))
  {
    if n in s.tasks { TaskMovesOn(s.tasks, s.control.ready, s.live.nodeExecutions, n); }
  }

  lemma MainReplyShape(w: World, s: State)
    requires Shape(w, s)
    ensures Shape(w, Reply(s, Main))
  {
    var s' := Reply(s, Main);
    assert s'.live == s.live && s'.tasks == s.tasks;
    if s.control.Marking? {
      assert s'.control.Marking? && s'.control.ready == s.control.ready && Marked(s'.control) == Marked(s.control);
    }
  }

  lemma ReplyShape(w: World, s: State, o: Owner)
    requires Shape(w, s)
    ensures Shape(w, Reply(s, o))
  {
    if o.Task? { TaskReplyShape(w, s, o.node); } else { MainReplyShape(w, s); }
  }

  lemma ReadyNodesAreReady(w: World, c: ExecutionContext)
    requires Valid(w) && Sound(w, c)
    ensures var ready := FindReadyNodes(c, w.Graph().deps);
            NoDup(ready) && forall n :: n in ready <==> Ready(w.Graph(), c.completedNodes, n)
  {
    assert Graph(c.allNodes, w.Graph().deps) == w.Graph();
  }

  lemma StartTasksShape(w: World, live: ExecutionContext, ready: seq<NodeId>)
    requires forall n :: n in ready ==> CanStart(w, live, n)
    ensures var tasks := StartTasks(w, live, ready);
            TaskPerNode(tasks, ready) && (forall n :: n in tasks ==> tasks[n].Running?)
  {}

  lemma NewRoundShape(g: Graph, live: ExecutionContext, tasks: map<NodeId, Phase>, ready: seq<NodeId>)
    requires AllReady(g, live.completedNodes, ready) && TaskPerNode(tasks, ready) && forall n :: n in tasks ==> tasks[n].Running?
    ensures RoundShape(g, live, tasks, ready)
  {}

  lemma BeginRoundShape(w: World, s: State)
    requires Valid(w) && Sound(w, s.live) && Enabled(w, s, BeginRound) && Shape(w, s)
    ensures Shape(w, Next(w, s, BeginRound))
  {
    if Unfinished(s) && ReadyNodes(w, s) != [] {
      ReadyNodesAreReady(w, s.live);
      StartTasksShape(w, s.live, ReadyNodes(w, s));
      NewRoundShape(w.Graph(), s.live, StartTasks(w, s.live, ReadyNodes(w, s)), ReadyNodes(w, s));
    }
  }

  lemma RoundEnds(g: Graph, live: ExecutionContext, tasks: map<NodeId, Phase>, ready: seq<NodeId>)
    requires RoundShape(g, live, tasks, ready)
    requires forall n :: n in ready ==> n in tasks && tasks[n].Done? && tasks[n].success
    ensures MarkShape(g, live, ready, 0)
  {
    assert Before(live, 0) == live.completedNodes;
  }

  lemma JoinShape(w: World, s: State)
    requires Enabled(w, s, Join) && Shape(w, s)
    ensures Shape(w, Next(w, s, Join))
  {
    if Next(w, s, Join).control.Marking? { RoundEnds(w.Graph(), s.live, s.tasks, s.control.ready); }
  }

  lemma MarkOne(g: Graph, before: seq<NodeId>, ready: seq<NodeId>, i: nat)
    requires AllReady(g, before, ready) && i < |ready|
    ensures var c := before + ready[..i];
            && Ready(g, c, ready[i]) && before + ready[..i + 1] == c + [ready[i]]
            && Add(c, ready[i]) == c + [ready[i]]
            && (c + [ready[i]])[..|c| + 1 - (i + 1)] == before
            && ready[i] in ready
  {
    assert ready[i] in ready;
    assert Ready(g, before, ready[i]);
    assert ready[i] !in ready[..i];
  }

  lemma MarkAdvances(g: Graph, live: ExecutionContext, ready: seq<NodeId>, i: nat)
    requires MarkShape(g, live, ready, i) && i < |ready|
    ensures var c, n := live.completedNodes, ready[i];
            && MarkShape(g, live.(completedNodes := Add(c, n)), ready, i + 1)
            && Ready(g, c, n) && Recorded(live.nodeExecutions, n) && Add(c, n) == c + [n]
  {
    MarkOne(g, Before(live, i), ready, i);
  }

  lemma MarkNextShape(w: World, s: State)
    requires Enabled(w, s, MarkNext) && Shape(w, s)
    ensures Shape(w, Next(w, s, MarkNext))
    ensures var c, n := s.live.completedNodes, s.control.ready[s.control.next];
            Ready(w.Graph(), c, n) && Recorded(s.live.nodeExecutions, n) &&
            Next(w, s, MarkNext).live.completedNodes == c + [n]
  {
    MarkAdvances(w.Graph(), s.live, s.control.ready, s.control.next);
  }

  lemma ShapeKept(w: World, s: State, step: Step)
    requires Valid(w) && Inv(w, s) && Enabled(w, s, step)
    ensures Shape(w, Next(w, s, step))
  {
    match step
    case Boot =>
    case Crash(applied) =>
    case Apply =>
      ReplyShape(w, s.(stored := ApplyCommand(s.stored, s.queue[0]), queue := s.queue[1..]), s.queue[0].owner);
    case BeginRound => BeginRoundShape(w, s);
    case Return(n, outcome) => ReturnShape(w, s, n, outcome);
    case Update(n) => UpdateShape(w, s, n);
    case Save(o) => SaveShape(w, s, o);
    case Join => JoinShape(w, s);
    case MarkNext => MarkNextShape(w, s);
    case NextRound =>
    case Finish =>
  }

  // ---------------------------------------------------------------- everything remembered is sound

  lemma ReplyTasks(s: State, o: Owner)
    ensures Reply(s, o).tasks == if o.Task? && o.node in s.tasks then s.tasks[o.node := Moved(s.tasks[o.node])] else s.tasks
  {}

  lemma ReplyFrame(s: State, o: Owner)
    ensures var s' := Reply(s, o);
            s'.stored == s.stored && s'.queue == s.queue && s'.live == s.live && (s'.control.Down? <==> s.control.Down?)
  {}

  lemma QueueSoundSnoc(w: World, queue: seq<Command>, c: Command)
    requires QueueSound(w, queue) && (c.Set? ==> SoundStored(w, c.value))
    ensures QueueSound(w, queue + [c])
  {}

  lemma QueueSoundTail(w: World, queue: seq<Command>)
    requires QueueSound(w, queue) && queue != []
    ensures QueueSound(w, queue[1..])
    ensures queue[0].Set? ==> SoundStored(w, queue[0].value)
  {
    assert queue[0] in queue;
    assert forall c :: c in queue[1..] ==> c in queue;
  }

  lemma SaveFrame(w: World, s: State, o: Owner)
    requires Shape(w, s) && Enabled(w, s, Save(o))
    ensures var s' := Next(w, s, Save(o));
            && !s.control.Down? && !s'.control.Down? && (s'.control.AwaitInit? <==> s.control.AwaitInit?)
            && s'.live == s.live && s'.stored == s.stored && s'.queue == s.queue + [Set(o, Serialize(s.live))]
  {}

  lemma SaveSound(w: World, s: State, o: Owner)
    requires Valid(w) && AllSound(w, s) && Enabled(w, s, Save(o)) && Shape(w, s)
    ensures AllSound(w, Next(w, s, Save(o)))
  {
    SaveFrame(w, s, o);
    SerializeSound(w, s.live);
    QueueSoundSnoc(w, s.queue, Set(o, Serialize(s.live)));
  }

  lemma RecordKeeps(executions: map<NodeId, NodeExecution>, c: seq<NodeId>, all: seq<NodeId>, n: NodeId, e: NodeExecution)
    requires AllRecorded(executions, c) && n !in c && Within(executions, all) && n in all
    ensures AllRecorded(executions[n := e], c) && Within(executions[n := e], all)
  {}

  lemma RoundNodeIsReady(w: World, s: State, n: NodeId)
    requires Shape(w, s) && s.control.Round? && n in s.tasks
    ensures Ready(w.Graph(), s.live.completedNodes, n) && n in Keys(w.definition)
  {
    assert n in s.control.ready;
  }

  lemma UpdateSound(w: World, s: State, n: NodeId)
    requires Valid(w) && AllSound(w, s) && Enabled(w, s, Update(n)) && Shape(w, s)
    ensures AllSound(w, Next(w, s, Update(n)))
  {
    RoundNodeIsReady(w, s, n);
    var s' := Next(w, s, Update(n));
    RecordKeeps(s.live.nodeExecutions, s.live.completedNodes, s.live.allNodes, n, s'.live.nodeExecutions[n]);
    QueueSoundSnoc(w, s.queue, Get(Task(n)));
  }

  lemma MarkNextSound(w: World, s: State)
    requires Valid(w) && AllSound(w, s) && Enabled(w, s, MarkNext) && Shape(w, s)
    ensures AllSound(w, Next(w, s, MarkNext))
  {
    MarkNextShape(w, s);
    var s' := Next(w, s, MarkNext);
    TopologicalSnoc(w.Graph(), s.live.completedNodes, s.control.ready[s.control.next]);
    NoDupSnoc(s.live.completedNodes, s.control.ready[s.control.next]);
    assert Sound(w, s'.live);
  }

  lemma BootSound(w: World, s: State)
    requires Valid(w) && AllSound(w, s) && Enabled(w, s, Boot)
    ensures AllSound(w, Next(w, s, Boot))
  {
    if s.stored.None? {
      assert Sound(w, FreshContext(w.definition, w.options));
      SerializeSound(w, FreshContext(w.definition, w.options));
    } else {
      LoadSound(w, s.stored.value);
    }
  }

  lemma ApplySound(w: World, s: State)
    requires AllSound(w, s) && Enabled(w, s, Apply) && QueueOk(s)
    ensures AllSound(w, Next(w, s, Apply))
  {
    QueueSoundTail(w, s.queue);
  }

  lemma SoundKept(w: World, s: State, step: Step)
    requires Valid(w) && Inv(w, s) && Enabled(w, s, step)
    ensures AllSound(w, Next(w, s, step))
  {
    match step
    case Boot => BootSound(w, s);
    case Crash(applied) =>
      ApplyAllSound(w, s.stored, s.queue[..applied]);
    case Apply => ApplySound(w, s);
    case BeginRound =>
    case Return(n, outcome) =>
    case Update(n) => UpdateSound(w, s, n);
    case Save(o) => SaveSound(w, s, o);
    case Join =>
    case MarkNext => MarkNextSound(w, s);
    case NextRound =>
    case Finish =>
  }

  // ---------------------------------------------------------------- one command per waiting owner

  ghost predicate SameSyncBut(s: State, s': State, owner: Owner) {
    forall o :: o != owner ==> SyncOf(s', o) == SyncOf(s, o)
  }

  ghost predicate SameSync(s: State, s': State) {
    forall o :: SyncOf(s', o) == SyncOf(s, o)
  }

  function Waiting(c: Command): Sync {
    if c.Get? then AwaitRead else AwaitWrite
  }

  lemma Enqueued(s: State, s': State, c: Command)
    requires QueueOk(s) && s'.queue == s.queue + [c] && SameSyncBut(s, s', c.owner)
    requires SyncOf(s, c.owner).NotSyncing? || SyncOf(s, c.owner).MustWrite?
    requires SyncOf(s', c.owner) == Waiting(c)
    ensures QueueOk(s')
  {
    forall d | d in s.queue ensures d.owner != c.owner {}
    assert c in s'.queue;
    forall o | SyncOf(s', o) == AwaitRead || SyncOf(s', o) == AwaitWrite
      ensures exists d :: d in s'.queue && d.owner == o
    {
      if o != c.owner {
        var d :| d in s.queue && d.owner == o;
        assert d in s'.queue;
      }
    }
  }

  lemma Dequeued(s: State, s': State)
    requires QueueOk(s) && s.queue != [] && s'.queue == s.queue[1..] && SameSyncBut(s, s', s.queue[0].owner)
    requires SyncOf(s', s.queue[0].owner).NotSyncing? || SyncOf(s', s.queue[0].owner).MustWrite?
    ensures QueueOk(s')
  {
    var head := s.queue[0];
    forall d | d in s'.queue ensures d in s.queue && d.owner != head.owner {
      var i :| 0 <= i < |s'.queue| && s'.queue[i] == d;
      assert s.queue[i + 1] == d;
    }
    forall o | SyncOf(s', o) == AwaitRead || SyncOf(s', o) == AwaitWrite
      ensures exists d :: d in s'.queue && d.owner == o
    {
      var d :| d in s.queue && d.owner == o;
      assert d != head;
      assert d in s'.queue;
    }
  }

  lemma Requeued(s: State, s': State)
    requires QueueOk(s) && s'.queue == s.queue && SameSync(s, s')
    ensures QueueOk(s')
  {}

  lemma QuietQueue(s: State, s': State)
    requires QueueOk(s) && s'.queue == s.queue
    requires Quiet(s) && Quiet(s')
    ensures QueueOk(s') && s.queue == []
  {
    assert forall c :: c in s.queue ==> !SyncOf(s, c.owner).NotSyncing?;
    HasMember(s.queue);
  }

  /** The owner of the first command moves past its await. */
  lemma MainReplySync(s: State)
    requires SyncOf(s, Main).AwaitRead? || SyncOf(s, Main).AwaitWrite?
    ensures var s' := Reply(s, Main);
            && SameSyncBut(s, s', Main) && s'.queue == s.queue && s'.live == s.live
            && SyncOf(s', Main) == if SyncOf(s, Main).AwaitRead? then MustWrite else NotSyncing
  {}

  lemma TaskReplySync(s: State, n: NodeId)
    requires SyncOf(s, Task(n)).AwaitRead? || SyncOf(s, Task(n)).AwaitWrite?
    ensures var s' := Reply(s, Task(n));
            && SameSyncBut(s, s', Task(n)) && s'.queue == s.queue && s'.live == s.live
            && SyncOf(s', Task(n)) == if SyncOf(s, Task(n)).AwaitRead? then MustWrite else NotSyncing
  {}

  lemma ReplySync(s: State)
    requires QueueOk(s) && s.queue != []
    ensures var c := s.queue[0];
            var s' := Reply(s.(stored := ApplyCommand(s.stored, c), queue := s.queue[1..]), c.owner);
            && SameSyncBut(s, s', c.owner) && s'.queue == s.queue[1..] && s'.live == s.live
            && SyncOf(s', c.owner) == if c.Get? then MustWrite else NotSyncing
  {
    var c := s.queue[0];
    assert c in s.queue;
    var t := s.(stored := ApplyCommand(s.stored, c), queue := s.queue[1..]);
    assert forall o :: SyncOf(t, o) == SyncOf(s, o);
    match c.owner
    case Main => MainReplySync(t);
    case Task(n) => TaskReplySync(t, n);
  }

  // How each step moves the owners.

  lemma ReturnSync(w: World, s: State, n: NodeId, outcome: Outcome)
    requires Enabled(w, s, Return(n, outcome))
    ensures SameSync(s, Next(w, s, Return(n, outcome)))
  {}

  lemma UpdateSync(w: World, s: State, n: NodeId)
    requires Enabled(w, s, Update(n))
    ensures var s' := Next(w, s, Update(n));
            SameSyncBut(s, s', Task(n)) && SyncOf(s, Task(n)).NotSyncing? && SyncOf(s', Task(n)) == AwaitRead
  {}

  lemma MarkNextSync(w: World, s: State)
    requires Enabled(w, s, MarkNext)
    ensures var s' := Next(w, s, MarkNext);
            SameSyncBut(s, s', Main) && SyncOf(s, Main).NotSyncing? && SyncOf(s', Main) == AwaitRead
  {}

  lemma SaveSync(w: World, s: State, o: Owner)
    requires Enabled(w, s, Save(o))
    ensures var s' := Next(w, s, Save(o)); SameSyncBut(s, s', o) && SyncOf(s', o) == AwaitWrite && s'.live == s.live
  {}

  ghost predicate Quiet(s: State) {
    forall o :: SyncOf(s, o).NotSyncing?
  }

  /** Nobody is inside `sync()` outside of marking and of the middle of a round. */
  predicate AtRest(s: State) {
    && !s.control.AwaitInit? && (s.control.Marking? ==> s.control.mark.ToMark?)
    && forall n :: n in s.tasks ==> s.tasks[n].Running? || s.tasks[n].Done?
  }

  lemma RestIsQuiet(s: State)
    requires AtRest(s)
    ensures Quiet(s)
  {}

  lemma QuietSync(w: World, s: State, step: Step)
    requires Shape(w, s) && Enabled(w, s, step) && (step.BeginRound? || step.Join? || step.NextRound? || step.Finish?)
    ensures var s' := Next(w, s, step);
            s'.queue == s.queue && s'.stored == s.stored && s'.live == s.live && Quiet(s) && Quiet(s')
  {
    var s' := Next(w, s, step);
    assert AtRest(s);
    assert AtRest(s');
    RestIsQuiet(s);
    RestIsQuiet(s');
  }

  lemma QueueKept(w: World, s: State, step: Step)
    requires Shape(w, s) && QueueOk(s) && Enabled(w, s, step)
    ensures QueueOk(Next(w, s, step))
  {
    var s' := Next(w, s, step);
    match step
    case Boot => BootQueue(w, s);
    case Crash(applied) =>
    case Apply => ReplySync(s); Dequeued(s, s');
    case Return(n, outcome) => ReturnSync(w, s, n, outcome); Requeued(s, s');
    case Update(n) => UpdateSync(w, s, n); Enqueued(s, s', Get(Task(n)));
    case Save(o) => SaveSync(w, s, o); Enqueued(s, s', Set(o, Serialize(s.live)));
    case MarkNext => MarkNextSync(w, s); Enqueued(s, s', Get(Main));
    case BeginRound => QuietSync(w, s, step); QuietQueue(s, s');
    case Join => QuietSync(w, s, step); QuietQueue(s, s');
    case NextRound => QuietSync(w, s, step); QuietQueue(s, s');
    case Finish => QuietSync(w, s, step); QuietQueue(s, s');
  }

  lemma BootQueue(w: World, s: State)
    requires Enabled(w, s, Boot)
    ensures QueueOk(Next(w, s, Boot))
  {
    var s' := Next(w, s, Boot);
    if s.stored.None? { assert s'.queue[0] in s'.queue && s'.queue[0].owner == Main; }
  }

  // ---------------------------------------------------------------- no update is lost

  lemma SaveFresh(w: World, s: State, o: Owner)
    requires Enabled(w, s, Save(o))
    ensures var s' := Next(w, s, Save(o)); Latest(s') == Some(Serialize(s'.live))
  {
    ApplyAllSnoc(s.stored, s.queue, Set(o, Serialize(s.live)));
  }

  lemma ApplyFresh(w: World, s: State)
    requires Enabled(w, s, Apply) && QueueOk(s) && Fresh(s)
    ensures Fresh(Next(w, s, Apply))
  {
    var s', c := Next(w, s, Apply), s.queue[0];
    ReplySync(s);
    assert Latest(s') == Latest(s);
    if c.Get? {
      assert SyncOf(s', c.owner) == MustWrite;
    } else {
      assert c in s.queue;
      forall o | SyncOf(s, o) == AwaitRead || SyncOf(s, o) == MustWrite ensures SyncOf(s', o) == SyncOf(s, o) {}
    }
  }

  lemma SameFresh(s: State, s': State)
    requires Fresh(s) && SameSync(s, s') && !s.control.Down?
    requires s'.queue == s.queue && s'.stored == s.stored && s'.live == s.live
    ensures Fresh(s')
  {
    if WriteDue(s) {
      var o :| SyncOf(s, o) == AwaitRead || SyncOf(s, o) == MustWrite;
      assert SyncOf(s', o) == SyncOf(s, o);
    }
  }

  lemma BootFresh(w: World, s: State)
    requires Valid(w) && AllSound(w, s) && Enabled(w, s, Boot)
    ensures Fresh(Next(w, s, Boot))
  {
    var s' := Next(w, s, Boot);
    if s.stored.Some? {
      LoadSound(w, s.stored.value);
    } else {
      ApplyAllSnoc(None, [], s'.queue[0]);
      assert [] + [s'.queue[0]] == s'.queue;
    }
  }

  lemma FreshKept(w: World, s: State, step: Step)
    requires Valid(w) && Inv(w, s) && Enabled(w, s, step)
    ensures Fresh(Next(w, s, step))
  {
    var s' := Next(w, s, step);
    match step
    case Boot => BootFresh(w, s);
    case Crash(applied) =>
    case Apply => ApplyFresh(w, s);
    case Return(n, outcome) => ReturnSync(w, s, n, outcome); SameFresh(s, s');
    case Update(n) => UpdateSync(w, s, n);
    case Save(o) => SaveFresh(w, s, o);
    case MarkNext => MarkNextSync(w, s);
    case BeginRound => QuietSync(w, s, step); SameFresh(s, s');
    case Join => QuietSync(w, s, step); SameFresh(s, s');
    case NextRound => QuietSync(w, s, step); SameFresh(s, s');
    case Finish => QuietSync(w, s, step); SameFresh(s, s');
  }

  lemma InvKept(w: World, s: State, step: Step)
    requires Valid(w) && Inv(w, s) && Enabled(w, s, step)
    ensures Inv(w, Next(w, s, step))
  {
    SoundKept(w, s, step);
    ShapeKept(w, s, step);
    QueueKept(w, s, step);
    FreshKept(w, s, step);
  }
}
