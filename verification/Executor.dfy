/**
 The executor as a state machine over its awaits. A state holds the stored context, the Redis
 commands issued and not yet applied (in issue order), the context in memory, where the main
 function stands, and how far each node of the current round has come. The process can
 crash anywhere, losing any suffix of the issued commands, and be started again.
 */
module Executor {
  import opened Wrappers
  import opened Flow
  import opened Graphs
  import opened Context

  datatype Outcome = Succeeded(output: Output) | Failed(error: string)

  /** What stays fixed over a run and its restarts; `may` tells how a node may answer its inputs. */
  datatype World = World(
    definition: Definition,
    options: Options,
    may: (NodeId, NodeDef, Inputs, Outcome) -> bool)
  {
    function Graph(): Graph {
      GraphOf(definition)
    }

    function Node(n: NodeId): NodeDef
      requires n in Keys(definition)
    {
      Lookup(definition, n).value
    }
  }

  datatype Owner = Main | Task(node: NodeId)

  datatype Command = Get(owner: Owner) | Set(owner: Owner, value: StoredContext)

  /** How far the promise of one node has come; the last four phases are the steps of `updateNode`. */
  datatype Phase =
    | Running(inputs: Inputs)
    | Returned(inputs: Inputs, outcome: Outcome)
    | Reading(success: bool)
    | Replied(success: bool)
    | Writing(success: bool)
    | Done(success: bool)

  /** The steps of one `markNodeCompleted`. */
  datatype Mark = ToMark | MarkReading | MarkReplied | MarkWriting

  datatype Ending =
    | Completed(result: Json)
    | NodesFailed(failed: seq<NodeId>)
    | Circular(blocked: seq<Blocked>)
    | Threw(error: ResolveError)

  datatype Control =
    | Down
    | AwaitInit
    | LoopHead
    | Round(ready: seq<NodeId>)
    | Marking(ready: seq<NodeId>, next: nat, mark: Mark)
    | Finishing(ending: Ending)
    | Over(ending: Ending)

  datatype Event =
    | WorkflowStarted
    | NodeStarted(node: NodeId)
    | NodeCompleted(node: NodeId)
    | NodeFailed(node: NodeId)
    | WorkflowCompleted(result: Json)
    | WorkflowFailed

  /** `events`, `base` and `rounds` record the current life of the process only. */
  datatype State = State(
    stored: Option<StoredContext>,
    queue: seq<Command>,
    live: ExecutionContext,
    control: Control,
    tasks: map<NodeId, Phase>,
    events: seq<Event>,
    base: seq<NodeId>,
    rounds: nat)

  datatype Step =
    | Boot
    | Crash(applied: nat)
    | Apply
    | BeginRound
    | Return(node: NodeId, outcome: Outcome)
    | Update(node: NodeId)
    | Save(owner: Owner)
    | Join
    | MarkNext
    | NextRound
    | Finish

  function Initial(w: World): State {
    State(None, [], FreshContext(w.definition, w.options), Down, map[], [], [], 0)
  }

  // ---------------------------------------------------------------- steps

  predicate CanStart(w: World, live: ExecutionContext, n: NodeId) {
    n in Keys(w.definition) && ResolveInputs(live, n, w.Node(n)).Ok?
  }

  function ReadyNodes(w: World, s: State): seq<NodeId> {
    FindReadyNodes(s.live, w.Graph().deps)
  }

  predicate Unfinished(s: State) {
    |s.live.completedNodes| < |s.live.allNodes|
  }

  /** Where an owner stands inside `sync()`. */
  datatype Sync = NotSyncing | AwaitRead | MustWrite | AwaitWrite

  function SyncOf(s: State, o: Owner): Sync {
    match o
    case Main => (
      match s.control
      case AwaitInit => AwaitWrite
      case Marking(_, _, MarkReading) => AwaitRead
      case Marking(_, _, MarkReplied) => MustWrite
      case Marking(_, _, MarkWriting) => AwaitWrite
      case _ => NotSyncing)
    case Task(n) =>
      if n !in s.tasks then NotSyncing
      else
        match s.tasks[n]
        case Reading(_) => AwaitRead
        case Replied(_) => MustWrite
        case Writing(_) => AwaitWrite
        case _ => NotSyncing
  }

  predicate Enabled(w: World, s: State, step: Step) {
    match step
    case Boot => s.control.Down?
    case Crash(applied) => !s.control.Down? && applied <= |s.queue|
    case Apply => s.queue != [] && (s.queue[0].Get? ==> s.stored.Some?)
    case BeginRound =>
      s.control.LoopHead? && (Unfinished(s) ==> forall n :: n in ReadyNodes(w, s) ==> CanStart(w, s.live, n))
    case Return(n, outcome) =>
      && s.control.Round? && n in s.tasks && s.tasks[n].Running? && n in Keys(w.definition)
      && w.may(n, w.Node(n), s.tasks[n].inputs, outcome)
    case Update(n) => s.control.Round? && n in s.tasks && s.tasks[n].Returned?
    case Save(o) => SyncOf(s, o).MustWrite?
    case Join => s.control.Round? && forall n :: n in s.tasks ==> s.tasks[n].Done?
    case MarkNext => s.control.Marking? && s.control.mark.ToMark? && s.control.next < |s.control.ready|
    case NextRound => s.control.Marking? && s.control.mark.ToMark? && s.control.next == |s.control.ready|
    case Finish => s.control.Finishing?
  }

  function StartEvents(ready: seq<NodeId>): seq<Event> {
    seq(|ready|, i requires 0 <= i < |ready| => NodeStarted(ready[i]))
  }

  function StartTasks(w: World, live: ExecutionContext, ready: seq<NodeId>): map<NodeId, Phase>
    requires forall n :: n in ready ==> CanStart(w, live, n)
  {
    map n | n in ready :: assert CanStart(w, live, n); Running(ResolveInputs(live, n, w.Node(n)).value)
  }

  function Execution(inputs: Inputs, outcome: Outcome): NodeExecution {
    match outcome
    case Succeeded(output) => NodeExecution(true, inputs, Some(output), None)
    case Failed(error) => NodeExecution(false, inputs, None, Some(error))
  }

  function Moved(p: Phase): Phase {
    match p
    case Reading(ok) => Replied(ok)
    case Writing(ok) => Done(ok)
    case _ => p
  }

  /** The reply to a command reaches its owner, which runs on to its next await. */
  function Reply(s: State, o: Owner): State {
    match o
    case Main => (
      match s.control
      case AwaitInit => s.(control := LoopHead, events := [WorkflowStarted])
      case Marking(ready, i, MarkReading) => s.(control := Marking(ready, i, MarkReplied))
      case Marking(ready, i, MarkWriting) => s.(control := Marking(ready, i + 1, ToMark))
      case _ => s)
    case Task(n) => if n in s.tasks then s.(tasks := s.tasks[n := Moved(s.tasks[n])]) else s
  }

  function ApplyCommand(stored: Option<StoredContext>, c: Command): Option<StoredContext> {
    if c.Set? then Some(c.value) else stored
  }

  function ApplyAll(stored: Option<StoredContext>, queue: seq<Command>): Option<StoredContext>
    decreases |queue|
  {
    if queue == [] then stored else ApplyAll(ApplyCommand(stored, queue[0]), queue[1..])
  }

  function Written(s: State, o: Owner): State {
    match o
    case Main => if s.control.Marking? then s.(control := s.control.(mark := MarkWriting)) else s
    case Task(n) => if n in s.tasks && s.tasks[n].Replied? then s.(tasks := s.tasks[n := Writing(s.tasks[n].success)]) else s
  }

  function Ended(w: World, live: ExecutionContext): Ending {
    match FinalOutput(w.definition, OutputsOf(live.nodeExecutions))
    case Ok(result) => Completed(result)
    case Err(error) => Threw(error)
  }

  function Next(w: World, s: State, step: Step): State
    requires Enabled(w, s, step)
  {
    match step
    case Boot => (
      match s.stored
      case None =>
        var live := FreshContext(w.definition, w.options);
        State(None, [Set(Main, Serialize(live))], live, AwaitInit, map[], [], [], 0)
      case Some(v) =>
        var live := Deserialize(v);
        State(s.stored, [], live, LoopHead, map[], [WorkflowStarted], live.completedNodes, 0))
    case Crash(applied) =>
      State(ApplyAll(s.stored, s.queue[..applied]), [], s.live, Down, map[], [], [], 0)
    case Apply =>
      Reply(s.(stored := ApplyCommand(s.stored, s.queue[0]), queue := s.queue[1..]), s.queue[0].owner)
    case BeginRound =>
      if !Unfinished(s) then s.(control := Finishing(Ended(w, s.live)))
      else
        var ready := ReadyNodes(w, s);
        if ready == [] then s.(control := Finishing(Circular(BlockedNodes(s.live, w.Graph().deps))))
        else s.(control := Round(ready), tasks := StartTasks(w, s.live, ready), events := s.events + StartEvents(ready))
    case Return(n, outcome) =>
      s.(tasks := s.tasks[n := Returned(s.tasks[n].inputs, outcome)],
         events := s.events + [if outcome.Succeeded? then NodeCompleted(n) else NodeFailed(n)])
    case Update(n) =>
      var execution := Execution(s.tasks[n].inputs, s.tasks[n].outcome);
      s.(live := s.live.(nodeExecutions := s.live.nodeExecutions[n := execution]),
         tasks := s.tasks[n := Reading(execution.success)],
         queue := s.queue + [Get(Task(n))])
    case Save(o) =>
      Written(s.(queue := s.queue + [Set(o, Serialize(s.live))]), o)
    case Join =>
      var failed := Filter(s.control.ready, n => n in s.tasks && s.tasks[n].Done? && !s.tasks[n].success);
      s.(tasks := map[],
         control := if failed != [] then Finishing(NodesFailed(failed)) else Marking(s.control.ready, 0, ToMark))
    case MarkNext =>
      s.(live := s.live.(completedNodes := Add(s.live.completedNodes, s.control.ready[s.control.next])),
         control := s.control.(mark := MarkReading),
         queue := s.queue + [Get(Main)])
    case NextRound => s.(control := LoopHead, rounds := s.rounds + 1)
    case Finish =>
      s.(control := Over(s.control.ending),
         events := s.events + [if s.control.ending.Completed? then WorkflowCompleted(s.control.ending.result)
                               else WorkflowFailed])
  }

  /** A run: every state follows from the previous one by an enabled step. */
  ghost predicate IsRun(w: World, run: seq<State>) {
    && run != []
    && forall i :: 0 <= i < |run| - 1 ==> Follows(w, run[i], run[i + 1])
  }

  ghost predicate Follows(w: World, s: State, s': State) {
    exists step :: Enabled(w, s, step) && s' == Next(w, s, step)
  }

  // ---------------------------------------------------------------- the invariant

  /** A node without source for some input must have the entrypoint among its ancestors. */
  ghost predicate EntrySafe(w: World) {
    forall n :: n in Keys(w.definition) && n != ENTRYPOINT_ID && Sourceless(w.Node(n).inputs) ==>
      exists p :: PathFrom(w.Graph(), n, p) && |p| > 1 && Last(p) == ENTRYPOINT_ID
  }

  ghost predicate Valid(w: World) {
    ValidRecord(w.definition) && EntrySafe(w)
  }

  predicate Recorded(executions: map<NodeId, NodeExecution>, n: NodeId) {
    n in executions && executions[n].success && executions[n].output.Some?
  }

  ghost predicate AllRecorded(executions: map<NodeId, NodeExecution>, nodes: seq<NodeId>) {
    forall n :: n in nodes ==> Recorded(executions, n)
  }

  /** Each node was completed once, after all its dependencies. */
  ghost predicate Ordered(g: Graph, completed: seq<NodeId>) {
    NoDup(completed) && Topological(g, completed)
  }

  ghost predicate Within(executions: map<NodeId, NodeExecution>, nodes: seq<NodeId>) {
    forall n :: n in executions ==> n in nodes
  }

  /** Completed nodes have a successful recorded execution and follow all their dependencies. */
  ghost predicate Sound(w: World, c: ExecutionContext) {
    && c.allNodes == Keys(w.definition)
    && c.workflowInputs == w.options.inputs
    && Ordered(w.Graph(), c.completedNodes)
    && AllRecorded(c.nodeExecutions, c.completedNodes)
    && Within(c.nodeExecutions, c.allNodes)
  }

  ghost predicate SoundStored(w: World, v: StoredContext) {
    exists c :: v == Serialize(c) && Sound(w, c)
  }

  lemma SerializeSound(w: World, c: ExecutionContext)
    requires Valid(w) && Sound(w, c)
    ensures SoundStored(w, Serialize(c))
  {}

  lemma LoadSound(w: World, v: StoredContext)
    requires Valid(w) && SoundStored(w, v)
    ensures Sound(w, Deserialize(v)) && Serialize(Deserialize(v)) == v
  {
    var c :| v == Serialize(c) && Sound(w, c);
    StoreRoundTrip(c);
  }

  /** Everything remembered anywhere is sound. */
  ghost predicate AllSound(w: World, s: State) {
    && (!s.control.Down? ==> Sound(w, s.live))
    && (s.stored.Some? ==> SoundStored(w, s.stored.value))
    && (!s.control.Down? && !s.control.AwaitInit? ==> s.stored.Some?)
    && QueueSound(w, s.queue)
  }

  ghost predicate QueueSound(w: World, queue: seq<Command>) {
    forall c :: c in queue && c.Set? ==> SoundStored(w, c.value)
  }

  predicate Settling(p: Phase) {
    p.Reading? || p.Replied? || p.Writing? || p.Done?
  }

  /** Number of nodes of the round already added to the completed set. */
  function Marked(c: Control): nat
    requires c.Marking?
  {
    c.next + if c.mark.ToMark? then 0 else 1
  }

  /** The nodes of a round were all ready when it began. */
  ghost predicate AllReady(g: Graph, completed: seq<NodeId>, ready: seq<NodeId>) {
    && NoDup(ready) && ready != []
    && forall n :: n in ready ==> Ready(g, completed, n)
  }

  /** There is one task per node of the round. */
  ghost predicate TaskPerNode(tasks: map<NodeId, Phase>, ready: seq<NodeId>) {
    forall n :: n in tasks <==> n in ready
  }

  /** A settled task has recorded its execution. */
  ghost predicate TasksRecorded(tasks: map<NodeId, Phase>, executions: map<NodeId, NodeExecution>) {
    forall n :: n in tasks && Settling(tasks[n]) && tasks[n].success ==> Recorded(executions, n)
  }

  ghost predicate RoundShape(g: Graph, live: ExecutionContext, tasks: map<NodeId, Phase>, ready: seq<NodeId>) {
    && AllReady(g, live.completedNodes, ready)
    && TaskPerNode(tasks, ready)
    && TasksRecorded(tasks, live.nodeExecutions)
  }

  /** While a round is marked, its first `marked` nodes have been added to those completed before it. */
  ghost predicate MarkShape(g: Graph, live: ExecutionContext, ready: seq<NodeId>, marked: nat) {
    && marked <= |ready| && marked <= |live.completedNodes|
    && AllRecorded(live.nodeExecutions, ready)
    && AllReady(g, Before(live, marked), ready)
    && Before(live, marked) + ready[..marked] == live.completedNodes
  }

  /** The nodes completed before the round whose nodes are being marked. */
  function Before(live: ExecutionContext, marked: nat): seq<NodeId>
    requires marked <= |live.completedNodes|
  {
    live.completedNodes[..|live.completedNodes| - marked]
  }

  ghost predicate Shape(w: World, s: State) {
    match s.control
    case Round(ready) => RoundShape(w.Graph(), s.live, s.tasks, ready)
    case Marking(ready, i, mark) => s.tasks == map[] && MarkShape(w.Graph(), s.live, ready, Marked(s.control))
    case _ => s.tasks == map[]
  }

  /** The command an owner waits for; the main function and each task wait for at most one. */
  ghost predicate QueueOk(s: State) {
    && (forall c :: c in s.queue ==> SyncOf(s, c.owner) == if c.Get? then AwaitRead else AwaitWrite)
    && (forall i, j :: 0 <= i < j < |s.queue| ==> s.queue[i].owner != s.queue[j].owner)
    && (forall o :: SyncOf(s, o) == AwaitRead || SyncOf(s, o) == AwaitWrite ==> exists c :: c in s.queue && c.owner == o)
  }

  /** What Redis will hold once everything issued is applied. */
  function Latest(s: State): Option<StoredContext> {
    ApplyAll(s.stored, s.queue)
  }

  /** An owner has changed the context in memory and not yet issued the write of it. */
  ghost predicate WriteDue(s: State) {
    exists o :: SyncOf(s, o) == AwaitRead || SyncOf(s, o) == MustWrite
  }

  ghost predicate Fresh(s: State) {
    !s.control.Down? && !WriteDue(s) ==> Latest(s) == Some(Serialize(s.live))
  }

  ghost predicate Inv(w: World, s: State) {
    AllSound(w, s) && Shape(w, s) && QueueOk(s) && Fresh(s)
  }

  lemma {:induction false} ApplyAllSnoc(stored: Option<StoredContext>, queue: seq<Command>, c: Command)
    ensures ApplyAll(stored, queue + [c]) == ApplyCommand(ApplyAll(stored, queue), c)
    decreases |queue|
  {
    if queue != [] {
      assert (queue + [c])[1..] == queue[1..] + [c];
      ApplyAllSnoc(ApplyCommand(stored, queue[0]), queue[1..], c);
    } else {
      assert ([c])[1..] == [];
    }
  }

  lemma {:induction false} ApplyAllSound(w: World, stored: Option<StoredContext>, queue: seq<Command>)
    requires stored.Some? ==> SoundStored(w, stored.value)
    requires QueueSound(w, queue)
    ensures ApplyAll(stored, queue).Some? ==> SoundStored(w, ApplyAll(stored, queue).value)
    ensures stored.Some? ==> ApplyAll(stored, queue).Some?
    decreases |queue|
  {
    if queue != [] { ApplyAllSound(w, ApplyCommand(stored, queue[0]), queue[1..]); }
  }
}
