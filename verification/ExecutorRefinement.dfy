/**
 The concurrent executor refines plain recursive evaluation over the dependency graph: whatever the
 interleaving, the crashes and the restarts, it records and returns the values of that evaluation.
 */
module ExecutorRefinement {
  import opened Wrappers
  import opened Flow
  import opened Graphs
  import opened Context
  import opened Executor
  import opened ExecutorInvariant
  import opened ExecutorRuns
  import opened ExecutorOutcome

  /** What each node computes from its inputs. */
  type Program = (NodeId, NodeDef, Inputs) -> Output

  ghost predicate Runs(w: World, program: Program) {
    forall n, d, inputs, outcome :: w.may(n, d, inputs, outcome) ==> outcome == Succeeded(program(n, d, inputs))
  }

  ghost predicate Evaluable(w: World, n: NodeId) {
    n in Keys(w.definition) && !Doomed(w.Graph(), n)
  }

  lemma DependencyIsEvaluable(w: World, n: NodeId, d: NodeId)
    requires Valid(w) && Evaluable(w, n) && d in Dependencies(w.Node(n).inputs)
    ensures Evaluable(w, d) && Height(w.Graph(), d) < Height(w.Graph(), n)
  {
    NodeDependencies(w, n);
    DependencyIsLower(w.Graph(), n, d);
  }

  lemma EntrypointIsEvaluable(w: World, n: NodeId)
    requires Valid(w) && Evaluable(w, n) && n != ENTRYPOINT_ID && Sourceless(w.Node(n).inputs)
    ensures Evaluable(w, ENTRYPOINT_ID) && Height(w.Graph(), ENTRYPOINT_ID) < Height(w.Graph(), n)
  {
    var p :| PathFrom(w.Graph(), n, p) && |p| > 1 && Last(p) == ENTRYPOINT_ID;
    ReachableIsLower(w.Graph(), n, p);
    var h := Height(w.Graph(), ENTRYPOINT_ID);
  }

  lemma NeedsAreLower(w: World, n: NodeId)
    requires Valid(w) && Evaluable(w, n)
    ensures forall d :: d in Needs(n, w.Node(n)) ==> Evaluable(w, d) && Height(w.Graph(), d) < Height(w.Graph(), n)
  {
    forall d | d in Needs(n, w.Node(n)) ensures Evaluable(w, d) && Height(w.Graph(), d) < Height(w.Graph(), n) {
      if d in Dependencies(w.Node(n).inputs) { DependencyIsEvaluable(w, n, d); } else { EntrypointIsEvaluable(w, n); }
    }
  }

  /** The output of a node by plain recursion: evaluate what it needs, then run it. */
  ghost function Value(w: World, program: Program, n: NodeId): Output
    requires Valid(w) && Evaluable(w, n)
    decreases Height(w.Graph(), n), 1
  {
    program(n, w.Node(n), ValueInputs(w, program, n))
  }

  ghost function ValueInputs(w: World, program: Program, n: NodeId): Inputs
    requires Valid(w) && Evaluable(w, n)
    decreases Height(w.Graph(), n), 0
  {
    if n == ENTRYPOINT_ID then w.options.inputs
    else
      NeedsAreLower(w, n);
      var needed := map d | d in Needs(n, w.Node(n)) :: Some(Value(w, program, d));
      ResolvesIffNeedsRecorded(needed, n, w.Node(n));
      ResolveEntries(needed, w.Node(n).inputs).value
  }

  /** Every node of the workflow with the value of its evaluation. */
  ghost function Values(w: World, program: Program): Outputs
    requires Valid(w) && forall n :: n in Keys(w.definition) ==> !Doomed(w.Graph(), n)
  {
    map n | n in Keys(w.definition) :: Some(Value(w, program, n))
  }

  // ---------------------------------------------------------------- invariant

  ghost predicate ValuedAt(w: World, program: Program, n: NodeId, e: NodeExecution)
    requires Valid(w)
  {
    Evaluable(w, n) && e == NodeExecution(true, ValueInputs(w, program, n), Some(Value(w, program, n)), None)
  }

  ghost predicate Valued(w: World, program: Program, executions: map<NodeId, NodeExecution>)
    requires Valid(w)
  {
    forall n :: n in executions ==> ValuedAt(w, program, n, executions[n])
  }

  ghost predicate TaskValued(w: World, program: Program, n: NodeId, p: Phase)
    requires Valid(w)
  {
    && Evaluable(w, n)
    && (p.Running? || p.Returned? ==> p.inputs == ValueInputs(w, program, n))
    && (p.Returned? ==> p.outcome == Succeeded(Value(w, program, n)))
  }

  ghost predicate TasksValued(w: World, program: Program, tasks: map<NodeId, Phase>)
    requires Valid(w)
  {
    forall n :: n in tasks ==> TaskValued(w, program, n, tasks[n])
  }

  ghost predicate StoredValued(w: World, program: Program, v: StoredContext)
    requires Valid(w)
  {
    Valued(w, program, v.nodeExecutions)
  }

  ghost predicate QueueValued(w: World, program: Program, queue: seq<Command>)
    requires Valid(w)
  {
    forall c :: c in queue && c.Set? ==> StoredValued(w, program, c.value)
  }

  /** Everything recorded anywhere, stored or about to be stored, has the value of the evaluation. */
  ghost predicate ValuesInv(w: World, program: Program, s: State)
    requires Valid(w)
  {
    && (!s.control.Down? ==> Valued(w, program, s.live.nodeExecutions))
    && (s.stored.Some? ==> StoredValued(w, program, s.stored.value))
    && QueueValued(w, program, s.queue)
    && TasksValued(w, program, s.tasks)
  }

  /** The inputs a ready node resolves from the context are those of the evaluation. */
  lemma ReadyInputsAreValues(w: World, program: Program, c: ExecutionContext, n: NodeId)
    requires Valid(w) && Sound(w, c) && Valued(w, program, c.nodeExecutions)
    requires Ready(w.Graph(), c.completedNodes, n)
    ensures Evaluable(w, n) && ResolveInputs(c, n, w.Node(n)) == Ok(ValueInputs(w, program, n))
  {
    ReadyIsEvaluable(w, c, n);
    NeedsAreCompleted(w, c, n);
    if n != ENTRYPOINT_ID {
      NeedsAreLower(w, n);
      var needed := map d | d in Needs(n, w.Node(n)) :: Some(Value(w, program, d));
      ResolvesIffNeedsRecorded(needed, n, w.Node(n));
      ResolveReadsNeeds(OutputsOf(c.nodeExecutions), needed, n, w.Node(n));
    }
  }

  lemma ReadyIsEvaluable(w: World, c: ExecutionContext, n: NodeId)
    requires Sound(w, c) && Ready(w.Graph(), c.completedNodes, n)
    ensures Evaluable(w, n)
  {
    TopologicalSnoc(w.Graph(), c.completedNodes, n);
    TopologicalSettles(w.Graph(), c.completedNodes + [n], |c.completedNodes|);
  }

  lemma StartValued(w: World, program: Program, c: ExecutionContext, ready: seq<NodeId>)
    requires Valid(w) && Sound(w, c) && Valued(w, program, c.nodeExecutions)
    requires forall n :: n in ready ==> Ready(w.Graph(), c.completedNodes, n)
    requires forall n :: n in ready ==> CanStart(w, c, n)
    ensures TasksValued(w, program, StartTasks(w, c, ready))
  {
    forall n | n in ready ensures TaskValued(w, program, n, StartTasks(w, c, ready)[n]) {
      ReadyInputsAreValues(w, program, c, n);
    }
  }

  lemma BeginValues(w: World, program: Program, s: State)
    requires Valid(w) && Sound(w, s.live) && ValuesInv(w, program, s) && Enabled(w, s, BeginRound)
    ensures ValuesInv(w, program, Next(w, s, BeginRound))
  {
    if Unfinished(s) {
      ReadyNodesAreReady(w, s.live);
      StartValued(w, program, s.live, ReadyNodes(w, s));
    }
  }

  lemma TaskStaysValued(w: World, program: Program, tasks: map<NodeId, Phase>, n: NodeId, p: Phase)
    requires Valid(w) && TasksValued(w, program, tasks) && TaskValued(w, program, n, p)
    ensures TasksValued(w, program, tasks[n := p])
  {}

  lemma ReturnValues(w: World, program: Program, s: State, n: NodeId, outcome: Outcome)
    requires Valid(w) && Runs(w, program) && ValuesInv(w, program, s) && Enabled(w, s, Return(n, outcome))
    ensures ValuesInv(w, program, Next(w, s, Return(n, outcome)))
  {
    assert TaskValued(w, program, n, s.tasks[n]);
    TaskStaysValued(w, program, s.tasks, n, Returned(s.tasks[n].inputs, outcome));
  }

  lemma RecordValued(w: World, program: Program, executions: map<NodeId, NodeExecution>, n: NodeId, p: Phase)
    requires Valid(w) && Valued(w, program, executions) && TaskValued(w, program, n, p) && p.Returned?
    ensures Valued(w, program, executions[n := Execution(p.inputs, p.outcome)])
  {
    assert ValuedAt(w, program, n, Execution(p.inputs, p.outcome));
  }

  lemma QueueStaysValued(w: World, program: Program, queue: seq<Command>, c: Command)
    requires Valid(w) && QueueValued(w, program, queue) && (c.Set? ==> StoredValued(w, program, c.value))
    ensures QueueValued(w, program, queue + [c])
  {}

  lemma UpdateValues(w: World, program: Program, s: State, n: NodeId)
    requires Valid(w) && ValuesInv(w, program, s) && Enabled(w, s, Update(n))
    ensures ValuesInv(w, program, Next(w, s, Update(n)))
  {
    var s' := Next(w, s, Update(n));
    assert TaskValued(w, program, n, s.tasks[n]);
    RecordValued(w, program, s.live.nodeExecutions, n, s.tasks[n]);
    TaskStaysValued(w, program, s.tasks, n, s'.tasks[n]);
    QueueStaysValued(w, program, s.queue, Get(Task(n)));
  }

  lemma SaveValues(w: World, program: Program, s: State, o: Owner)
    requires Valid(w) && ValuesInv(w, program, s) && Enabled(w, s, Save(o)) && !s.control.Down?
    ensures ValuesInv(w, program, Next(w, s, Save(o)))
  {
    QueueStaysValued(w, program, s.queue, Set(o, Serialize(s.live)));
    if o.Task? {
      assert TaskValued(w, program, o.node, s.tasks[o.node]);
      TaskStaysValued(w, program, s.tasks, o.node, Writing(s.tasks[o.node].success));
    }
  }

  lemma QueueTailValued(w: World, program: Program, queue: seq<Command>)
    requires Valid(w) && QueueValued(w, program, queue) && queue != []
    ensures QueueValued(w, program, queue[1..])
    ensures queue[0].Set? ==> StoredValued(w, program, queue[0].value)
  {
    assert queue[0] in queue;
    assert forall c :: c in queue[1..] ==> c in queue;
  }

  lemma MovedIsValued(w: World, program: Program, n: NodeId, p: Phase)
    requires Valid(w) && TaskValued(w, program, n, p)
    ensures TaskValued(w, program, n, Moved(p))
  {}

  lemma MovedTasksValued(w: World, program: Program, tasks: map<NodeId, Phase>, n: NodeId)
    requires Valid(w) && TasksValued(w, program, tasks) && n in tasks
    ensures TasksValued(w, program, tasks[n := Moved(tasks[n])])
  {
    assert TaskValued(w, program, n, tasks[n]);
    MovedIsValued(w, program, n, tasks[n]);
    TaskStaysValued(w, program, tasks, n, Moved(tasks[n]));
  }

  lemma ApplyValues(w: World, program: Program, s: State)
    requires Valid(w) && ValuesInv(w, program, s) && Enabled(w, s, Apply)
    ensures ValuesInv(w, program, Next(w, s, Apply))
  {
    QueueTailValued(w, program, s.queue);
    var t := s.(stored := ApplyCommand(s.stored, s.queue[0]), queue := s.queue[1..]);
    ReplyFrame(t, s.queue[0].owner);
    ReplyTasks(t, s.queue[0].owner);
    if s.queue[0].owner.Task? && s.queue[0].owner.node in s.tasks {
      MovedTasksValued(w, program, s.tasks, s.queue[0].owner.node);
    }
  }

  lemma {:induction false} ApplyAllValued(w: World, program: Program, stored: Option<StoredContext>, queue: seq<Command>)
    requires Valid(w) && QueueValued(w, program, queue)
    requires stored.Some? ==> StoredValued(w, program, stored.value)
    ensures ApplyAll(stored, queue).Some? ==> StoredValued(w, program, ApplyAll(stored, queue).value)
    decreases |queue|
  {
    if queue != [] {
      QueueTailValued(w, program, queue);
      ApplyAllValued(w, program, ApplyCommand(stored, queue[0]), queue[1..]);
    }
  }

  lemma CrashValues(w: World, program: Program, s: State, applied: nat)
    requires Valid(w) && ValuesInv(w, program, s) && Enabled(w, s, Crash(applied))
    ensures ValuesInv(w, program, Next(w, s, Crash(applied)))
  {
    assert QueueValued(w, program, s.queue[..applied]);
    ApplyAllValued(w, program, s.stored, s.queue[..applied]);
  }

  lemma BootValues(w: World, program: Program, s: State)
    requires Valid(w) && ValuesInv(w, program, s) && Enabled(w, s, Boot)
    ensures ValuesInv(w, program, Next(w, s, Boot))
  {
    var s' := Next(w, s, Boot);
    assert s.stored.Some? ==> s'.live.nodeExecutions == s.stored.value.nodeExecutions;
    assert Valued(w, program, s'.live.nodeExecutions);
  }

  lemma ValuesKept(w: World, program: Program, s: State, step: Step)
    requires Valid(w) && Runs(w, program) && Inv(w, s) && ValuesInv(w, program, s) && Enabled(w, s, step)
    ensures ValuesInv(w, program, Next(w, s, step))
  {
    match step
    case Boot => BootValues(w, program, s);
    case Crash(applied) => CrashValues(w, program, s, applied);
    case Apply => ApplyValues(w, program, s);
    case BeginRound => BeginValues(w, program, s);
    case Return(n, outcome) => ReturnValues(w, program, s, n, outcome);
    case Update(n) => UpdateValues(w, program, s, n);
    case Save(o) => SavesInRounds(w, s, o); SaveValues(w, program, s, o);
    case Join =>
    case MarkNext => QueueStaysValued(w, program, s.queue, Get(Main));
    case NextRound =>
    case Finish =>
  }

  // ---------------------------------------------------------------- theorems

  lemma ReachableValues(w: World, program: Program, s: State)
    requires Valid(w) && Runs(w, program) && Reachable(w, s)
    ensures ValuesInv(w, program, s)
  {
    forall t, step | Inv(w, t) && ValuesInv(w, program, t) && Enabled(w, t, step)
      ensures ValuesInv(w, program, Next(w, t, step))
    {
      ValuesKept(w, program, t, step);
    }
    ReachableInduction(w, t => Valid(w) && ValuesInv(w, program, t), s);
  }

  /** At any time, in memory and in the store, a record of a node holds the inputs and the value of its evaluation. */
  lemma RecordedIsValue(w: World, program: Program, s: State, n: NodeId)
    requires Valid(w) && Runs(w, program) && Reachable(w, s)
    ensures !s.control.Down? && n in s.live.nodeExecutions ==>
              Evaluable(w, n) && s.live.nodeExecutions[n] ==
              NodeExecution(true, ValueInputs(w, program, n), Some(Value(w, program, n)), None)
    ensures s.stored.Some? && n in s.stored.value.nodeExecutions ==>
              Evaluable(w, n) && s.stored.value.nodeExecutions[n] ==
              NodeExecution(true, ValueInputs(w, program, n), Some(Value(w, program, n)), None)
  {
    ReachableValues(w, program, s);
  }

  ghost predicate Acyclic(w: World) {
    forall n :: n in Keys(w.definition) ==> !Doomed(w.Graph(), n)
  }

  /** The ending of the evaluation: a function of the workflow, its inputs and its nodes alone. */
  ghost function Expected(w: World, program: Program): Ending
    requires Valid(w) && Acyclic(w)
  {
    match FinalOutput(w.definition, Values(w, program))
    case Ok(result) => Completed(result)
    case Err(error) => Threw(error)
  }

  lemma ResultIdsAreKeys(definition: Definition)
    ensures forall id :: id in ResultNodeIds(definition) ==> id in Keys(definition)
  {
    forall id | id in ResultNodeIds(definition) ensures id in Keys(definition) {
      ResultNodesAre(definition, id);
      var e :| e in definition && e.key == id;
      var i :| 0 <= i < |definition| && definition[i] == e;
      assert Keys(definition)[i] == id;
    }
  }

  ghost predicate ShowsValue(w: World, program: Program, id: NodeId, shown: Json)
    requires Valid(w)
  {
    Evaluable(w, id) && shown == JObject(Value(w, program, id))
  }

  /** Each result node, and nothing else, shows its value under its id. */
  ghost predicate ShowsResults(w: World, program: Program, result: Json)
    requires Valid(w)
  {
    && result.JObject?
    && (forall id :: id in result.fields <==> IsResultNode(w.definition, id))
    && forall id :: id in result.fields ==> ShowsValue(w, program, id, result.fields[id])
  }

  /** The ending in terms of the values: a lone result node is looked up under the fixed id, or the run throws. */
  ghost predicate EndsWithValues(w: World, program: Program, ending: Ending)
    requires Valid(w)
  {
    if !OneResult(w.definition) then ending.Completed? && ShowsResults(w, program, ending.result)
    else if RESULT_NODE_ID in Keys(w.definition) then ending.Completed? && ShowsValue(w, program, RESULT_NODE_ID, ending.result)
    else ending == Threw(NodeNotFound(RESULT_NODE_ID))
  }

  lemma ShownIsValue(w: World, program: Program, id: NodeId, shown: Json)
    requires Valid(w) && Acyclic(w) && id in Keys(w.definition) && Shows(Some(Value(w, program, id)), shown)
    ensures ShowsValue(w, program, id, shown)
  {}

  /**
   Evaluation has a result exactly when there are none or several result nodes, or a node under the fixed id; and
   then the result is the value of that node, or the values of all result nodes under their ids.
   */
  lemma ExpectedCompletesIff(w: World, program: Program)
    requires Valid(w) && Acyclic(w)
    ensures Expected(w, program).Completed? <==> !OneResult(w.definition) || RESULT_NODE_ID in Keys(w.definition)
    ensures EndsWithValues(w, program, Expected(w, program))
  {
    var values := Values(w, program);
    var r := FinalOutput(w.definition, values);
    FinalOutputIs(w.definition, values);
    AllResultsHaveValues(w, program);
    if r.Ok? {
      if OneResult(w.definition) {
        ShownIsValue(w, program, RESULT_NODE_ID, r.value);
      } else {
        forall id | id in r.value.fields ensures ShowsValue(w, program, id, r.value.fields[id]) {
          ShownIsValue(w, program, id, r.value.fields[id]);
        }
      }
    }
  }

  lemma AllResultsHaveValues(w: World, program: Program)
    requires Valid(w) && Acyclic(w)
    ensures ResultsRecorded(w.definition, Values(w, program))
  {
    ResultIdsAreKeys(w.definition);
    forall id | IsResultNode(w.definition, id) ensures id in Values(w, program) { ResultNodesAre(w.definition, id); }
  }

  /** A definition that shows it: the only result node has another id, and no run of it can complete. */
  lemma LoneResultElsewhereThrows(w: World, program: Program, details: Details)
    requires w.definition == [Entry("out", NodeDef("result", [], details))]
    ensures Valid(w) && Acyclic(w) && Expected(w, program) == Threw(NodeNotFound(RESULT_NODE_ID))
  {
    LoneNodeIsAcyclic(w);
    var kept := Filter(w.definition, (e: Entry<NodeDef>) => e.value.kind == "result");
    assert w.definition[0] in kept && |kept| == 1;
    assert RESULT_NODE_ID != "out" by { assert |RESULT_NODE_ID| != |"out"|; }
    OneResultIff(w.definition);
    ExpectedCompletesIff(w, program);
  }

  lemma LoneNodeIsAcyclic(w: World)
    requires |w.definition| == 1 && w.definition[0].value.inputs == []
    ensures Valid(w) && Acyclic(w)
  {
    var n, g := w.definition[0].key, w.Graph();
    assert Keys(w.definition) == [n];
    NodeDependencies(w, n);
    assert g.DepsOf(n) == [];
    SettledStep(g, n, 0);
    DoomedIffUnbounded(g, n);
  }

  lemma OutputsAreValues(w: World, program: Program, c: ExecutionContext)
    requires Valid(w) && Acyclic(w) && Sound(w, c) && Valued(w, program, c.nodeExecutions) && AllCompleted(w, c)
    ensures OutputsOf(c.nodeExecutions) == Values(w, program)
  {
    forall n | n in Keys(w.definition) ensures n in c.nodeExecutions {
      assert Recorded(c.nodeExecutions, n);
    }
  }

  /**
   Schedule refinement and crash-resume equivalence: every run over an acyclic workflow of succeeding
   deterministic nodes, however interleaved and however often interrupted, ends as plain evaluation does.
   */
  lemma EveryScheduleEvaluates(w: World, program: Program, s: State)
    requires Valid(w) && Runs(w, program) && Acyclic(w) && Reachable(w, s) && s.control.Over?
    ensures s.control.ending == Expected(w, program) && EndsWithValues(w, program, s.control.ending)
    ensures OutputsOf(s.live.nodeExecutions) == Values(w, program)
  {
    ReachableInv(w, s);
    ReachableValues(w, program, s);
    ReachableOutcome(w, s);
    assert Succeeding(w);
    EndingMeansDoomed(w, s.live, s.control.ending);
    OutputsAreValues(w, program, s.live);
    ExpectedCompletesIff(w, program);
  }
}
