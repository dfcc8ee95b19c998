/**
 What a record means, whatever the nodes do: nodes may fail and may answer differently each time. At any time the
 recorded inputs of a node are what the outputs recorded beside them give, and the rest is one of its answers.
 */
module ExecutorRecords {
  import opened Wrappers
  import opened Flow
  import opened Graphs
  import opened Context
  import opened Executor
  import opened ExecutorInvariant
  import opened ExecutorRuns

  /** All that `n` needs is completed, and gives it these inputs. */
  ghost predicate Gives(w: World, c: ExecutionContext, n: NodeId, inputs: Inputs) {
    && n in Keys(w.definition)
    && (forall id :: id in Needs(n, w.Node(n)) ==> id in c.completedNodes)
    && ResolveInputs(c, n, w.Node(n)) == Ok(inputs)
  }

  /** The record of a node that answered `inputs` with `outcome`. */
  ghost predicate Records(e: NodeExecution, inputs: Inputs, outcome: Outcome) {
    match outcome
    case Succeeded(output) => e == NodeExecution(true, inputs, Some(output), None)
    case Failed(error) => e == NodeExecution(false, inputs, None, Some(error))
  }

  ghost predicate IsAnswer(w: World, n: NodeId, e: NodeExecution)
    requires n in Keys(w.definition)
  {
    exists outcome :: w.may(n, w.Node(n), e.inputs, outcome) && Records(e, e.inputs, outcome)
  }

  ghost predicate RecordOk(w: World, c: ExecutionContext, n: NodeId, e: NodeExecution) {
    Gives(w, c, n, e.inputs) && IsAnswer(w, n, e)
  }

  ghost predicate Consistent(w: World, c: ExecutionContext) {
    forall n :: n in c.nodeExecutions ==> RecordOk(w, c, n, c.nodeExecutions[n])
  }

  ghost predicate TaskOk(w: World, c: ExecutionContext, n: NodeId, p: Phase) {
    && (p.Running? || p.Returned? ==> Gives(w, c, n, p.inputs))
    && (p.Returned? ==> w.may(n, w.Node(n), p.inputs, p.outcome))
  }

  ghost predicate TasksOk(w: World, c: ExecutionContext, tasks: map<NodeId, Phase>) {
    forall n :: n in tasks ==> TaskOk(w, c, n, tasks[n])
  }

  ghost predicate StoredOk(w: World, stored: Option<StoredContext>) {
    stored.Some? ==> Consistent(w, Deserialize(stored.value))
  }

  ghost predicate WritesOk(w: World, queue: seq<Command>) {
    forall c :: c in queue && c.Set? ==> Consistent(w, Deserialize(c.value))
  }

  ghost predicate LiveOk(w: World, s: State) {
    s.control.Down? || Consistent(w, s.live)
  }

  ghost predicate RecordsInv(w: World, s: State) {
    LiveOk(w, s) && TasksOk(w, s.live, s.tasks) && StoredOk(w, s.stored) && WritesOk(w, s.queue)
  }

  // ---------------------------------------------------------------- each step

  /** Recording a node that is not completed leaves the inputs of every other node alone. */
  lemma RecordingGives(w: World, c: ExecutionContext, n: NodeId, e: NodeExecution, m: NodeId, inputs: Inputs)
    requires Sound(w, c) && n !in c.completedNodes && Gives(w, c, m, inputs)
    ensures Gives(w, c.(nodeExecutions := c.nodeExecutions[n := e]), m, inputs)
  {
    if m != ENTRYPOINT_ID {
      forall id | id in Needs(m, w.Node(m)) ensures id in c.nodeExecutions && id != n { assert Recorded(c.nodeExecutions, id); }
      ResolveReadsNeeds(OutputsOf(c.nodeExecutions), OutputsOf(c.nodeExecutions[n := e]), m, w.Node(m));
    }
  }

  lemma RecordingConsistent(w: World, c: ExecutionContext, n: NodeId, e: NodeExecution)
    requires Sound(w, c) && n !in c.completedNodes && Consistent(w, c) && RecordOk(w, c, n, e)
    ensures Consistent(w, c.(nodeExecutions := c.nodeExecutions[n := e]))
  {
    var c' := c.(nodeExecutions := c.nodeExecutions[n := e]);
    forall m | m in c'.nodeExecutions ensures RecordOk(w, c', m, c'.nodeExecutions[m]) {
      if m != n { assert RecordOk(w, c, m, c.nodeExecutions[m]); }
      RecordingGives(w, c, n, e, m, c'.nodeExecutions[m].inputs);
    }
  }

  lemma RecordingTasks(w: World, c: ExecutionContext, n: NodeId, e: NodeExecution, tasks: map<NodeId, Phase>, p: Phase)
    requires Sound(w, c) && n !in c.completedNodes && TasksOk(w, c, tasks) && !p.Running? && !p.Returned?
    ensures TasksOk(w, c.(nodeExecutions := c.nodeExecutions[n := e]), tasks[n := p])
  {
    var c' := c.(nodeExecutions := c.nodeExecutions[n := e]);
    forall m | m in tasks && m != n ensures TaskOk(w, c', m, tasks[m]) {
      assert TaskOk(w, c, m, tasks[m]);
      if tasks[m].Running? || tasks[m].Returned? { RecordingGives(w, c, n, e, m, tasks[m].inputs); }
    }
  }

  lemma ReturnedIsRecord(w: World, c: ExecutionContext, n: NodeId, p: Phase)
    requires TaskOk(w, c, n, p) && p.Returned?
    ensures RecordOk(w, c, n, Execution(p.inputs, p.outcome))
  {
    assert Records(Execution(p.inputs, p.outcome), p.inputs, p.outcome);
  }

  lemma UpdateFrame(w: World, s: State, n: NodeId)
    requires Enabled(w, s, Update(n))
    ensures var s', e := Next(w, s, Update(n)), Execution(s.tasks[n].inputs, s.tasks[n].outcome);
            && s'.live == s.live.(nodeExecutions := s.live.nodeExecutions[n := e])
            && s'.tasks == s.tasks[n := Reading(e.success)]
            && s'.queue == s.queue + [Get(Task(n))] && s'.stored == s.stored && s'.control == s.control
  {}

  lemma UpdateRecords(w: World, s: State, n: NodeId)
    requires Sound(w, s.live) && n !in s.live.completedNodes && RecordsInv(w, s) && Enabled(w, s, Update(n))
    ensures RecordsInv(w, Next(w, s, Update(n)))
  {
    var p := s.tasks[n];
    var e := Execution(p.inputs, p.outcome);
    assert TaskOk(w, s.live, n, p);
    ReturnedIsRecord(w, s.live, n, p);
    RecordingConsistent(w, s.live, n, e);
    RecordingTasks(w, s.live, n, e, s.tasks, Reading(e.success));
    WriteAdded(w, s.queue, Get(Task(n)));
    UpdateFrame(w, s, n);
  }

  lemma BeginRecords(w: World, s: State)
    requires Valid(w) && Sound(w, s.live) && RecordsInv(w, s) && Enabled(w, s, BeginRound)
    ensures RecordsInv(w, Next(w, s, BeginRound))
  {
    if Unfinished(s) {
      ReadyNodesAreReady(w, s.live);
      StartGives(w, s.live, ReadyNodes(w, s));
    }
  }

  lemma StartGives(w: World, c: ExecutionContext, ready: seq<NodeId>)
    requires Valid(w) && Sound(w, c)
    requires forall n :: n in ready ==> Ready(w.Graph(), c.completedNodes, n)
    requires forall n :: n in ready ==> CanStart(w, c, n)
    ensures TasksOk(w, c, StartTasks(w, c, ready))
  {
    forall n | n in ready ensures TaskOk(w, c, n, StartTasks(w, c, ready)[n]) {
      NeedsAreCompleted(w, c, n);
    }
  }

  lemma TaskStaysOk(w: World, c: ExecutionContext, tasks: map<NodeId, Phase>, n: NodeId, p: Phase)
    requires TasksOk(w, c, tasks) && TaskOk(w, c, n, p)
    ensures TasksOk(w, c, tasks[n := p])
  {}

  lemma ReturnRecords(w: World, s: State, n: NodeId, outcome: Outcome)
    requires RecordsInv(w, s) && Enabled(w, s, Return(n, outcome))
    ensures RecordsInv(w, Next(w, s, Return(n, outcome)))
  {
    assert TaskOk(w, s.live, n, s.tasks[n]);
    TaskStaysOk(w, s.live, s.tasks, n, Returned(s.tasks[n].inputs, outcome));
  }

  lemma WriteAdded(w: World, queue: seq<Command>, c: Command)
    requires WritesOk(w, queue) && (c.Set? ==> Consistent(w, Deserialize(c.value)))
    ensures WritesOk(w, queue + [c])
  {}

  lemma WriteTaken(w: World, queue: seq<Command>)
    requires WritesOk(w, queue) && queue != []
    ensures WritesOk(w, queue[1..]) && (queue[0].Set? ==> Consistent(w, Deserialize(queue[0].value)))
  {
    assert queue[0] in queue;
    assert forall c :: c in queue[1..] ==> c in queue;
  }

  lemma SaveRecords(w: World, s: State, o: Owner)
    requires Valid(w) && Sound(w, s.live) && RecordsInv(w, s) && Enabled(w, s, Save(o)) && !s.control.Down?
    ensures RecordsInv(w, Next(w, s, Save(o)))
  {
    SoundReloads(w, s.live);
    WriteAdded(w, s.queue, Set(o, Serialize(s.live)));
    if o.Task? { TaskStaysOk(w, s.live, s.tasks, o.node, Writing(s.tasks[o.node].success)); }
  }

  lemma MarkingGives(w: World, c: ExecutionContext, n: NodeId)
    requires Consistent(w, c)
    ensures Consistent(w, c.(completedNodes := Add(c.completedNodes, n)))
  {
    var c' := c.(completedNodes := Add(c.completedNodes, n));
    forall m | m in c'.nodeExecutions ensures RecordOk(w, c', m, c'.nodeExecutions[m]) {
      assert RecordOk(w, c, m, c.nodeExecutions[m]);
    }
  }

  lemma MarkRecords(w: World, s: State)
    requires RecordsInv(w, s) && Enabled(w, s, MarkNext) && s.tasks == map[]
    ensures RecordsInv(w, Next(w, s, MarkNext))
  {
    MarkingGives(w, s.live, s.control.ready[s.control.next]);
    WriteAdded(w, s.queue, Get(Main));
  }

  lemma MovedTasksOk(w: World, c: ExecutionContext, tasks: map<NodeId, Phase>, n: NodeId)
    requires TasksOk(w, c, tasks) && n in tasks
    ensures TasksOk(w, c, tasks[n := Moved(tasks[n])])
  {
    assert TaskOk(w, c, n, tasks[n]);
  }

  lemma ApplyRecords(w: World, s: State)
    requires RecordsInv(w, s) && Enabled(w, s, Apply)
    ensures RecordsInv(w, Next(w, s, Apply))
  {
    WriteTaken(w, s.queue);
    var t := s.(stored := ApplyCommand(s.stored, s.queue[0]), queue := s.queue[1..]);
    ReplyFrame(t, s.queue[0].owner);
    ReplyTasks(t, s.queue[0].owner);
    if s.queue[0].owner.Task? && s.queue[0].owner.node in s.tasks {
      MovedTasksOk(w, s.live, s.tasks, s.queue[0].owner.node);
    }
  }

  lemma {:induction false} ApplyAllRecords(w: World, stored: Option<StoredContext>, queue: seq<Command>)
    requires StoredOk(w, stored) && WritesOk(w, queue)
    ensures StoredOk(w, ApplyAll(stored, queue))
    decreases |queue|
  {
    if queue != [] {
      WriteTaken(w, queue);
      ApplyAllRecords(w, ApplyCommand(stored, queue[0]), queue[1..]);
    }
  }

  lemma CrashRecords(w: World, s: State, applied: nat)
    requires RecordsInv(w, s) && Enabled(w, s, Crash(applied))
    ensures RecordsInv(w, Next(w, s, Crash(applied)))
  {
    assert forall c :: c in s.queue[..applied] ==> c in s.queue;
    ApplyAllRecords(w, s.stored, s.queue[..applied]);
  }

  lemma BootRecords(w: World, s: State)
    requires Valid(w) && AllSound(w, s) && RecordsInv(w, s) && Enabled(w, s, Boot)
    ensures RecordsInv(w, Next(w, s, Boot))
  {
    BootSound(w, s);
    if s.stored.None? { SoundReloads(w, FreshContext(w.definition, w.options)); }
  }

  lemma RecordsKept(w: World, s: State, step: Step)
    requires Valid(w) && Inv(w, s) && RecordsInv(w, s) && Enabled(w, s, step)
    ensures RecordsInv(w, Next(w, s, step))
  {
    match step
    case Boot => BootRecords(w, s);
    case Crash(applied) => CrashRecords(w, s, applied);
    case Apply => ApplyRecords(w, s);
    case BeginRound => BeginRecords(w, s);
    case Return(n, outcome) => ReturnRecords(w, s, n, outcome);
    case Update(n) => RoundNodeIsReady(w, s, n); UpdateRecords(w, s, n);
    case Save(o) => SaveFrame(w, s, o); SaveRecords(w, s, o);
    case Join =>
    case MarkNext => MarkRecords(w, s);
    case NextRound =>
    case Finish =>
  }

  // ---------------------------------------------------------------- theorems

  lemma ReachableRecords(w: World, s: State)
    requires Valid(w) && Reachable(w, s)
    ensures RecordsInv(w, s)
  {
    forall t, step | Inv(w, t) && RecordsInv(w, t) && Enabled(w, t, step) ensures RecordsInv(w, Next(w, t, step)) {
      RecordsKept(w, t, step);
    }
    ReachableInduction(w, t => RecordsInv(w, t), s);
  }

  /** `inputs` are those of the run for the entrypoint, and what the recorded outputs give for any other node. */
  ghost predicate HasInputs(w: World, executions: map<NodeId, NodeExecution>, n: NodeId, inputs: Inputs)
    requires n in Keys(w.definition)
  {
    if n == ENTRYPOINT_ID then inputs == w.options.inputs
    else ValidRecord(w.Node(n).inputs) ==> MeansAll(OutputsOf(executions), w.Node(n).inputs, inputs)
  }

  /** Every record holds one answer of its node to the inputs that the records beside it give. */
  ghost predicate Explained(w: World, executions: map<NodeId, NodeExecution>) {
    forall n :: n in executions ==>
      n in Keys(w.definition) && HasInputs(w, executions, n, executions[n].inputs) && IsAnswer(w, n, executions[n])
  }

  lemma ConsistentIsExplained(w: World, c: ExecutionContext)
    requires Sound(w, c) && Consistent(w, c)
    ensures Explained(w, c.nodeExecutions)
  {
    forall n | n in c.nodeExecutions
      ensures n in Keys(w.definition) && HasInputs(w, c.nodeExecutions, n, c.nodeExecutions[n].inputs)
      ensures IsAnswer(w, n, c.nodeExecutions[n])
    {
      assert RecordOk(w, c, n, c.nodeExecutions[n]);
      if n != ENTRYPOINT_ID && ValidRecord(w.Node(n).inputs) { ResolvedMeans(OutputsOf(c.nodeExecutions), w.Node(n).inputs); }
    }
  }

  /**
   In memory and in the store, at any time, under any interleaving, crashes and restarts, and whatever the nodes
   answer: a record is never of inputs that the other records do not explain.
   */
  lemma RecordsAreExplained(w: World, s: State)
    requires Valid(w) && Reachable(w, s)
    ensures !s.control.Down? ==> Explained(w, s.live.nodeExecutions)
    ensures s.stored.Some? ==> Explained(w, s.stored.value.nodeExecutions)
  {
    ReachableInv(w, s);
    ReachableRecords(w, s);
    if !s.control.Down? { ConsistentIsExplained(w, s.live); }
    if s.stored.Some? {
      LoadSound(w, s.stored.value);
      ConsistentIsExplained(w, Deserialize(s.stored.value));
    }
  }
}
