/** The events one life of the process emits form a sentence of a fixed grammar. */
module ExecutorTrace {
  import opened Wrappers
  import opened Graphs
  import opened Context
  import opened Executor
  import opened ExecutorInvariant
  import opened ExecutorRuns
  import opened ExecutorOutcome

  predicate Terminal(e: Event) {
    e.WorkflowCompleted? || e.WorkflowFailed?
  }

  ghost predicate DependenciesDone(g: Graph, base: seq<NodeId>, earlier: seq<Event>, n: NodeId) {
    forall d :: d in g.DepsOf(n) ==> d in base || NodeCompleted(d) in earlier
  }

  predicate NotEnded(earlier: seq<Event>, n: NodeId) {
    NodeStarted(n) in earlier && NodeCompleted(n) !in earlier && NodeFailed(n) !in earlier
  }

  /**
   What may follow the events so far in a life that began with `base` already completed: the start comes
   first and once, nothing follows the end, a node starts once and after its dependencies completed, and
   a node ends once and after it started.
   */
  ghost predicate Allowed(g: Graph, base: seq<NodeId>, earlier: seq<Event>, e: Event) {
    && (e.WorkflowStarted? <==> earlier == [])
    && (earlier != [] ==> !Terminal(Last(earlier)))
    && match e
       case NodeStarted(n) =>
         n in g.nodes && n !in base && NodeStarted(n) !in earlier && DependenciesDone(g, base, earlier, n)
       case NodeCompleted(n) => NotEnded(earlier, n)
       case NodeFailed(n) => NotEnded(earlier, n)
       case _ => true
  }

  ghost predicate Grammar(g: Graph, base: seq<NodeId>, events: seq<Event>) {
    forall j :: 0 <= j < |events| ==> Allowed(g, base, events[..j], events[j])
  }

  lemma Emit(g: Graph, base: seq<NodeId>, events: seq<Event>, e: Event)
    requires Grammar(g, base, events) && Allowed(g, base, events, e)
    ensures Grammar(g, base, events + [e])
  {
    var events' := events + [e];
    forall j | 0 <= j < |events'| ensures Allowed(g, base, events'[..j], events'[j]) {
      assert events'[..j] == events[..j];
      if j == |events| { assert events[..j] == events; }
    }
  }

  // ---------------------------------------------------------------- events and state

  /** Whether a node has emitted its last event, and which. */
  function EndOf(p: Phase): Option<bool> {
    match p
    case Running(_) => None
    case Returned(_, outcome) => Some(outcome.Succeeded?)
    case Reading(ok) => Some(ok)
    case Replied(ok) => Some(ok)
    case Writing(ok) => Some(ok)
    case Done(ok) => Some(ok)
  }

  ghost predicate LinkRest(events: seq<Event>, base: seq<NodeId>, completed: seq<NodeId>, ready: seq<NodeId>) {
    && (forall n :: NodeStarted(n) in events <==> n !in base && (n in completed || n in ready))
    && (forall n :: NodeCompleted(n) in events <==> n !in base && (n in completed || n in ready))
    && (forall n :: NodeFailed(n) !in events)
  }

  ghost predicate LinkRound(events: seq<Event>, base: seq<NodeId>, completed: seq<NodeId>, tasks: map<NodeId, Phase>) {
    && (forall n :: NodeStarted(n) in events <==> n !in base && (n in completed || n in tasks))
    && (forall n :: NodeCompleted(n) in events <==>
          n !in base && (n in completed || (n in tasks && EndOf(tasks[n]) == Some(true))))
    && (forall n :: NodeFailed(n) in events <==> n in tasks && EndOf(tasks[n]) == Some(false))
  }

  /** Every node that started has ended. */
  ghost predicate AllEnded(events: seq<Event>) {
    forall n :: NodeStarted(n) in events ==> NodeCompleted(n) in events || NodeFailed(n) in events
  }

  /** Every node not completed at the start of the life has run successfully. */
  ghost predicate AllRan(nodes: seq<NodeId>, base: seq<NodeId>, events: seq<Event>) {
    forall n :: n in nodes && n !in base ==> NodeStarted(n) in events && NodeCompleted(n) in events
  }

  ghost predicate Open(events: seq<Event>) {
    events != [] && !Terminal(Last(events))
  }

  ghost predicate Subset(a: seq<NodeId>, b: seq<NodeId>) {
    forall n :: n in a ==> n in b
  }

  /** The ending names exactly the nodes that failed in this life, if any did. */
  ghost predicate FailuresAre(events: seq<Event>, ending: Ending) {
    match ending
    case NodesFailed(failed) => failed != [] && forall n :: n in failed <==> NodeFailed(n) in events
    case _ => forall n :: NodeFailed(n) !in events
  }

  /** A life that has nothing left to do but emit its last event. */
  ghost predicate LinkEnd(nodes: seq<NodeId>, base: seq<NodeId>, events: seq<Event>, ending: Ending) {
    AllEnded(events) && FailuresAre(events, ending) && (ending.Completed? ==> AllRan(nodes, base, events))
  }

  function EndingEvent(ending: Ending): Event {
    if ending.Completed? then WorkflowCompleted(ending.result) else WorkflowFailed
  }

  ghost predicate Linked(w: World, s: State) {
    match s.control
    case Down => s.events == []
    case AwaitInit => s.events == [] && s.base == []
    case LoopHead => Open(s.events) && LinkRest(s.events, s.base, s.live.completedNodes, [])
    case Round(_) => Open(s.events) && LinkRound(s.events, s.base, s.live.completedNodes, s.tasks)
    case Marking(ready, _, _) => Open(s.events) && LinkRest(s.events, s.base, s.live.completedNodes, ready)
    case Finishing(ending) => Open(s.events) && LinkEnd(w.Graph().nodes, s.base, s.events, ending)
    case Over(ending) =>
      s.events != [] && LinkEnd(w.Graph().nodes, s.base, s.events, ending) && Last(s.events) == EndingEvent(ending)
  }

  ghost predicate TraceInv(w: World, s: State) {
    && Grammar(w.Graph(), s.base, s.events)
    && Linked(w, s)
    && (!s.control.Down? ==> Subset(s.base, s.live.completedNodes))
  }

  // ---------------------------------------------------------------- preservation

  lemma EmitStarted(g: Graph, base: seq<NodeId>)
    ensures Grammar(g, base, [WorkflowStarted]) && Open([WorkflowStarted])
    ensures LinkRest([WorkflowStarted], base, base, [])
  {}

  ghost predicate AddsStarts(events: seq<Event>, events': seq<Event>, ready: seq<NodeId>) {
    && (forall n :: NodeStarted(n) in events' <==> NodeStarted(n) in events || n in ready)
    && (forall n :: NodeCompleted(n) in events' <==> NodeCompleted(n) in events)
    && (forall n :: NodeFailed(n) in events' <==> NodeFailed(n) in events)
  }

  lemma AddOneStart(events: seq<Event>, before: seq<Event>, front: seq<NodeId>, n: NodeId)
    requires AddsStarts(events, before, front)
    ensures AddsStarts(events, before + [NodeStarted(n)], front + [n])
  {}

  lemma StartIsAllowed(g: Graph, base: seq<NodeId>, completed: seq<NodeId>, events: seq<Event>, before: seq<Event>,
                       front: seq<NodeId>, n: NodeId)
    requires LinkRest(events, base, completed, []) && Subset(base, completed)
    requires AddsStarts(events, before, front) && Open(before) && Ready(g, completed, n) && n !in front
    ensures Allowed(g, base, before, NodeStarted(n))
  {}

  lemma EmitOneStart(g: Graph, base: seq<NodeId>, completed: seq<NodeId>, events: seq<Event>, before: seq<Event>,
                     front: seq<NodeId>, n: NodeId)
    requires LinkRest(events, base, completed, []) && Subset(base, completed)
    requires Grammar(g, base, before) && Open(before) && AddsStarts(events, before, front)
    requires Ready(g, completed, n) && n !in front
    ensures var after := before + [NodeStarted(n)];
            Emitted(g, base, events, after, front + [n])
  {
    StartIsAllowed(g, base, completed, events, before, front, n);
    Emit(g, base, before, NodeStarted(n));
    AddOneStart(events, before, front, n);
  }

  lemma StartEventsSnoc(events: seq<Event>, ready: seq<NodeId>)
    requires ready != []
    ensures events + StartEvents(ready) == events + StartEvents(ready[..|ready| - 1]) + [NodeStarted(Last(ready))]
  {}

  ghost predicate Emitted(g: Graph, base: seq<NodeId>, events: seq<Event>, events': seq<Event>, ready: seq<NodeId>) {
    Grammar(g, base, events') && Open(events') && AddsStarts(events, events', ready)
  }

  lemma {:induction false} EmitStarts(g: Graph, base: seq<NodeId>, completed: seq<NodeId>, events: seq<Event>,
                                     ready: seq<NodeId>, k: nat)
    requires Grammar(g, base, events) && Open(events) && LinkRest(events, base, completed, [])
    requires Subset(base, completed) && AllReady(g, completed, ready) && k <= |ready|
    ensures Emitted(g, base, events, events + StartEvents(ready[..k]), ready[..k])
    decreases k
  {
    if k == 0 {
      assert events + StartEvents(ready[..0]) == events;
    } else {
      EmitStarts(g, base, completed, events, ready, k - 1);
      StartEventsStep(events, ready, k);
      NextIsReady(g, completed, ready, k - 1);
      EmitOneStart(g, base, completed, events, events + StartEvents(ready[..k - 1]), ready[..k - 1], ready[k - 1]);
    }
  }

  lemma StartEventsStep(events: seq<Event>, ready: seq<NodeId>, k: nat)
    requires 0 < k <= |ready|
    ensures ready[..k] == ready[..k - 1] + [ready[k - 1]]
    ensures events + StartEvents(ready[..k]) == events + StartEvents(ready[..k - 1]) + [NodeStarted(ready[k - 1])]
  {
    StartEventsSnoc(events, ready[..k]);
    assert ready[..k][..k - 1] == ready[..k - 1];
  }

  lemma NextIsReady(g: Graph, completed: seq<NodeId>, ready: seq<NodeId>, i: nat)
    requires AllReady(g, completed, ready) && i < |ready|
    ensures Ready(g, completed, ready[i]) && ready[i] !in ready[..i]
  {
    assert ready[i] in ready;
  }

  lemma LinkStarts(events: seq<Event>, events': seq<Event>, base: seq<NodeId>, completed: seq<NodeId>,
                   ready: seq<NodeId>, tasks: map<NodeId, Phase>)
    requires LinkRest(events, base, completed, []) && Subset(base, completed)
    requires TaskPerNode(tasks, ready) && (forall n :: n in tasks ==> tasks[n].Running?)
    requires forall n :: n in ready ==> n !in completed
    requires AddsStarts(events, events', ready)
    ensures LinkRound(events', base, completed, tasks)
  {}

  lemma RestMeansEnded(events: seq<Event>, base: seq<NodeId>, completed: seq<NodeId>)
    requires LinkRest(events, base, completed, [])
    ensures AllEnded(events)
    ensures forall nodes :: Subset(nodes, completed) ==> AllRan(nodes, base, events)
  {}

  lemma StartRoundTrace(w: World, s: State, ready: seq<NodeId>)
    requires TraceInv(w, s) && s.control.LoopHead? && AllReady(w.Graph(), s.live.completedNodes, ready)
    requires forall n :: n in ready ==> CanStart(w, s.live, n)
    ensures TraceInv(w, s.(control := Round(ready), tasks := StartTasks(w, s.live, ready),
                           events := s.events + StartEvents(ready)))
  {
    var completed := s.live.completedNodes;
    StartTasksShape(w, s.live, ready);
    assert ready[..|ready|] == ready;
    EmitStarts(w.Graph(), s.base, completed, s.events, ready, |ready|);
    LinkStarts(s.events, s.events + StartEvents(ready), s.base, completed, ready, StartTasks(w, s.live, ready));
  }

  lemma StopTrace(w: World, s: State, ending: Ending)
    requires TraceInv(w, s) && s.control.LoopHead? && !ending.NodesFailed?
    requires ending.Completed? ==> AllCompleted(w, s.live)
    ensures TraceInv(w, s.(control := Finishing(ending)))
  {
    RestMeansEnded(s.events, s.base, s.live.completedNodes);
    if ending.Completed? { assert Subset(w.Graph().nodes, s.live.completedNodes); }
  }

  lemma BeginTrace(w: World, s: State)
    requires Valid(w) && Sound(w, s.live) && TraceInv(w, s) && Enabled(w, s, BeginRound)
    ensures TraceInv(w, Next(w, s, BeginRound))
  {
    var ready := ReadyNodes(w, s);
    CountDecides(w, s.live);
    if !Unfinished(s) {
      StopTrace(w, s, Ended(w, s.live));
    } else if ready == [] {
      StopTrace(w, s, Circular(BlockedNodes(s.live, w.Graph().deps)));
    } else {
      ReadyNodesAreReady(w, s.live);
      StartRoundTrace(w, s, ready);
    }
  }

  function EndEvent(n: NodeId, outcome: Outcome): Event {
    if outcome.Succeeded? then NodeCompleted(n) else NodeFailed(n)
  }

  lemma LinkReturn(events: seq<Event>, base: seq<NodeId>, completed: seq<NodeId>, tasks: map<NodeId, Phase>,
                   n: NodeId, inputs: Inputs, outcome: Outcome)
    requires LinkRound(events, base, completed, tasks) && n in tasks && tasks[n].Running?
    requires n !in base && n !in completed
    ensures LinkRound(events + [EndEvent(n, outcome)], base, completed, tasks[n := Returned(inputs, outcome)])
    ensures NotEnded(events, n)
  {}

  lemma EndIsAllowed(g: Graph, base: seq<NodeId>, events: seq<Event>, n: NodeId, outcome: Outcome)
    requires Open(events) && NotEnded(events, n)
    ensures Allowed(g, base, events, EndEvent(n, outcome)) && Open(events + [EndEvent(n, outcome)])
  {}

  lemma ReturnTrace(w: World, s: State, n: NodeId, outcome: Outcome)
    requires TraceInv(w, s) && n !in s.live.completedNodes && Enabled(w, s, Return(n, outcome))
    ensures TraceInv(w, Next(w, s, Return(n, outcome)))
  {
    LinkReturn(s.events, s.base, s.live.completedNodes, s.tasks, n, s.tasks[n].inputs, outcome);
    EndIsAllowed(w.Graph(), s.base, s.events, n, outcome);
    Emit(w.Graph(), s.base, s.events, EndEvent(n, outcome));
  }

  lemma LinkMoves(events: seq<Event>, base: seq<NodeId>, completed: seq<NodeId>, tasks: map<NodeId, Phase>, n: NodeId, p: Phase)
    requires LinkRound(events, base, completed, tasks) && n in tasks && EndOf(p) == EndOf(tasks[n])
    ensures LinkRound(events, base, completed, tasks[n := p])
  {}

  lemma UpdateTrace(w: World, s: State, n: NodeId)
    requires TraceInv(w, s) && Enabled(w, s, Update(n))
    ensures TraceInv(w, Next(w, s, Update(n)))
  {
    LinkMoves(s.events, s.base, s.live.completedNodes, s.tasks, n, Next(w, s, Update(n)).tasks[n]);
  }

  lemma SaveTaskTrace(w: World, s: State, n: NodeId)
    requires TraceInv(w, s) && s.control.Round? && Enabled(w, s, Save(Task(n)))
    ensures TraceInv(w, Next(w, s, Save(Task(n))))
  {
    LinkMoves(s.events, s.base, s.live.completedNodes, s.tasks, n, Writing(s.tasks[n].success));
  }

  lemma SaveMainTrace(w: World, s: State)
    requires TraceInv(w, s) && Enabled(w, s, Save(Main))
    ensures TraceInv(w, Next(w, s, Save(Main)))
  {}

  lemma SaveTrace(w: World, s: State, o: Owner)
    requires TraceInv(w, s) && Shape(w, s) && Enabled(w, s, Save(o))
    ensures TraceInv(w, Next(w, s, Save(o)))
  {
    match o
    case Main => SaveMainTrace(w, s);
    case Task(n) => TaskOfSave(w, s, n); SaveTaskTrace(w, s, n);
  }

  lemma EndSurvives(p: Phase)
    ensures EndOf(Moved(p)) == EndOf(p)
  {}

  lemma TaskReplyTrace(w: World, s: State, n: NodeId)
    requires TraceInv(w, s) && s.control.Round? && n in s.tasks
    ensures TraceInv(w, Reply(s, Task(n)))
  {
    EndSurvives(s.tasks[n]);
    LinkMoves(s.events, s.base, s.live.completedNodes, s.tasks, n, Moved(s.tasks[n]));
  }

  lemma InitReplyTrace(w: World, s: State)
    requires TraceInv(w, s) && s.control.AwaitInit? && s.live.completedNodes == []
    ensures TraceInv(w, Reply(s, Main))
  {
    EmitStarted(w.Graph(), s.base);
  }

  lemma MarkReplyTrace(w: World, s: State)
    requires TraceInv(w, s) && !s.control.AwaitInit?
    ensures TraceInv(w, Reply(s, Main))
  {}

  lemma MainReplyTrace(w: World, s: State)
    requires TraceInv(w, s) && (s.control.AwaitInit? ==> s.live.completedNodes == [])
    ensures TraceInv(w, Reply(s, Main))
  {
    if s.control.AwaitInit? { InitReplyTrace(w, s); } else { MarkReplyTrace(w, s); }
  }

  ghost predicate FreshInit(s: State) {
    s.control.AwaitInit? ==> s.live.completedNodes == []
  }

  lemma ApplyTrace(w: World, s: State)
    requires TraceInv(w, s) && Shape(w, s) && QueueOk(s) && FreshInit(s) && Enabled(w, s, Apply)
    ensures TraceInv(w, Next(w, s, Apply))
  {
    var c := s.queue[0];
    assert c in s.queue;
    var t := s.(stored := ApplyCommand(s.stored, c), queue := s.queue[1..]);
    match c.owner
    case Main => MainReplyTrace(w, t);
    case Task(n) => TaskReplyTrace(w, t, n);
  }

  lemma LinkJoin(events: seq<Event>, base: seq<NodeId>, completed: seq<NodeId>, tasks: map<NodeId, Phase>, ready: seq<NodeId>)
    requires LinkRound(events, base, completed, tasks) && TaskPerNode(tasks, ready)
    requires forall n :: n in tasks ==> tasks[n].Done?
    ensures AllEnded(events)
    ensures (forall n :: n in tasks ==> tasks[n].success) ==> LinkRest(events, base, completed, ready)
    ensures forall n :: NodeFailed(n) in events <==> n in ready && FailedTask(tasks, n)
  {}

  predicate FailedTask(tasks: map<NodeId, Phase>, n: NodeId) {
    n in tasks && tasks[n].Done? && !tasks[n].success
  }

  lemma JoinTrace(w: World, s: State)
    requires TraceInv(w, s) && Shape(w, s) && Enabled(w, s, Join)
    ensures TraceInv(w, Next(w, s, Join))
  {
    LinkJoin(s.events, s.base, s.live.completedNodes, s.tasks, s.control.ready);
    assert forall n :: FailedTask(s.tasks, n) <==> n in s.tasks && s.tasks[n].Done? && !s.tasks[n].success;
  }

  lemma LinkMark(events: seq<Event>, base: seq<NodeId>, completed: seq<NodeId>, ready: seq<NodeId>, n: NodeId)
    requires LinkRest(events, base, completed, ready) && n in ready
    ensures LinkRest(events, base, completed + [n], ready)
  {}

  lemma MarkTrace(w: World, s: State)
    requires TraceInv(w, s) && Shape(w, s) && Enabled(w, s, MarkNext)
    ensures TraceInv(w, Next(w, s, MarkNext))
  {
    MarkNextShape(w, s);
    LinkMark(s.events, s.base, s.live.completedNodes, s.control.ready, s.control.ready[s.control.next]);
  }

  lemma NextTrace(w: World, s: State)
    requires TraceInv(w, s) && Shape(w, s) && Enabled(w, s, NextRound)
    ensures TraceInv(w, Next(w, s, NextRound))
  {
    var ready := s.control.ready;
    assert ready[..|ready|] == ready;
    assert forall n :: n in ready ==> n in s.live.completedNodes;
  }

  lemma LastEventRuns(events: seq<Event>, base: seq<NodeId>, nodes: seq<NodeId>, ending: Ending)
    ensures AllEnded(events) ==> AllEnded(events + [EndingEvent(ending)])
    ensures AllRan(nodes, base, events) ==> AllRan(nodes, base, events + [EndingEvent(ending)])
  {}

  lemma LastEventFails(events: seq<Event>, ending: Ending)
    requires FailuresAre(events, ending)
    ensures FailuresAre(events + [EndingEvent(ending)], ending)
  {
    assert forall n :: NodeFailed(n) in events + [EndingEvent(ending)] <==> NodeFailed(n) in events;
  }

  lemma LastEventLinks(nodes: seq<NodeId>, base: seq<NodeId>, events: seq<Event>, ending: Ending)
    requires LinkEnd(nodes, base, events, ending)
    ensures LinkEnd(nodes, base, events + [EndingEvent(ending)], ending)
  {
    LastEventRuns(events, base, nodes, ending);
    LastEventFails(events, ending);
  }

  lemma FinishTrace(w: World, s: State)
    requires TraceInv(w, s) && Enabled(w, s, Finish)
    ensures TraceInv(w, Next(w, s, Finish))
  {
    var ending := s.control.ending;
    Emit(w.Graph(), s.base, s.events, EndingEvent(ending));
    LastEventLinks(w.Graph().nodes, s.base, s.events, ending);
  }

  lemma BootTrace(w: World, s: State)
    requires Enabled(w, s, Boot)
    ensures TraceInv(w, Next(w, s, Boot)) && FreshInit(Next(w, s, Boot))
  {
    EmitStarted(w.Graph(), Next(w, s, Boot).base);
  }

  ghost predicate FullTraceInv(w: World, s: State) {
    TraceInv(w, s) && FreshInit(s)
  }

  lemma TraceKept(w: World, s: State, step: Step)
    requires Valid(w) && Inv(w, s) && FullTraceInv(w, s) && Enabled(w, s, step)
    ensures TraceInv(w, Next(w, s, step))
  {
    match step
    case Boot => BootTrace(w, s);
    case Crash(_) =>
    case Apply => ApplyTrace(w, s);
    case BeginRound => BeginTrace(w, s);
    case Return(n, outcome) => RoundNodeIsReady(w, s, n); ReturnTrace(w, s, n, outcome);
    case Update(n) => UpdateTrace(w, s, n);
    case Save(o) => SaveTrace(w, s, o);
    case Join => JoinTrace(w, s);
    case MarkNext => MarkTrace(w, s);
    case NextRound => NextTrace(w, s);
    case Finish => FinishTrace(w, s);
  }

  lemma FreshInitKept(w: World, s: State, step: Step)
    requires FreshInit(s) && Enabled(w, s, step)
    ensures FreshInit(Next(w, s, step))
  {
    assert Next(w, s, step).control.AwaitInit? ==> step.Boot? || Next(w, s, step).live == s.live;
  }

  lemma TaskOfSave(w: World, s: State, n: NodeId)
    requires Shape(w, s) && Enabled(w, s, Save(Task(n)))
    ensures s.control.Round?
  {}

  lemma ReachableTrace(w: World, s: State)
    requires Valid(w) && Reachable(w, s)
    ensures TraceInv(w, s)
  {
    forall t, step | Inv(w, t) && FullTraceInv(w, t) && Enabled(w, t, step) ensures FullTraceInv(w, Next(w, t, step)) {
      TraceKept(w, t, step);
      FreshInitKept(w, t, step);
    }
    ReachableInduction(w, t => FullTraceInv(w, t), s);
  }

  // ---------------------------------------------------------------- theorems

  /** Every prefix of every life's trace obeys the grammar. */
  lemma EveryTraceIsGrammatical(w: World, s: State)
    requires Valid(w) && Reachable(w, s)
    ensures Grammar(w.Graph(), s.base, s.events)
  {
    ReachableTrace(w, s);
  }

  /** In a grammatical trace no event about a node occurs twice, and a node has one end only. */
  lemma NodeEventsAreUnique(g: Graph, base: seq<NodeId>, events: seq<Event>, i: nat, j: nat)
    requires Grammar(g, base, events) && i < j < |events|
    requires !events[i].WorkflowStarted? && !Terminal(events[i])
    ensures events[i] != events[j]
    ensures !events[i].NodeStarted? && !events[j].NodeStarted? && !Terminal(events[j]) && !events[j].WorkflowStarted? ==>
              events[i].node != events[j].node
  {
    assert Allowed(g, base, events[..j], events[j]);
    assert events[..j][i] == events[i];
  }

  lemma OverIsLinked(w: World, s: State)
    requires TraceInv(w, s) && s.control.Over?
    ensures Grammar(w.Graph(), s.base, s.events) && s.events != [] && Last(s.events) == EndingEvent(s.control.ending)
    ensures LinkEnd(Keys(w.definition), s.base, s.events, s.control.ending)
  {}

  /** A finished life: one terminal event, last; every started node ended; success means every node ran. */
  lemma FinishedTrace(w: World, s: State)
    requires Valid(w) && Reachable(w, s) && s.control.Over?
    ensures s.events != [] && s.events[0] == WorkflowStarted
    ensures forall i :: 0 <= i < |s.events| ==> (Terminal(s.events[i]) <==> i == |s.events| - 1)
    ensures AllEnded(s.events)
    ensures Last(s.events) == match s.control.ending
                              case Completed(result) => WorkflowCompleted(result)
                              case _ => WorkflowFailed
    ensures Last(s.events).WorkflowCompleted? ==> AllRan(Keys(w.definition), s.base, s.events)
  {
    ReachableTrace(w, s);
    OverIsLinked(w, s);
    GrammarEnds(w.Graph(), s.base, s.events);
  }

  lemma NamesFailures(events: seq<Event>, ending: Ending, n: NodeId)
    requires FailuresAre(events, ending)
    ensures ending.NodesFailed? <==> exists m :: NodeFailed(m) in events
    ensures ending.NodesFailed? ==> (n in ending.failed <==> NodeFailed(n) in events)
  {
    if ending.NodesFailed? {
      assert ending.failed[0] in ending.failed;
      assert NodeFailed(ending.failed[0]) in events;
    }
  }

  /** A life ends in "nodes failed" exactly when a node failed in it, and then names exactly those nodes. */
  lemma FailureIsNamed(w: World, s: State, n: NodeId)
    requires Valid(w) && Reachable(w, s) && s.control.Over?
    ensures s.control.ending.NodesFailed? <==> exists m :: NodeFailed(m) in s.events
    ensures s.control.ending.NodesFailed? ==> (n in s.control.ending.failed <==> NodeFailed(n) in s.events)
  {
    ReachableTrace(w, s);
    OverIsLinked(w, s);
    assert FailuresAre(s.events, s.control.ending);
    NamesFailures(s.events, s.control.ending, n);
  }

  /** No event but the last is an end, since something was allowed to follow it. */
  lemma NotLastIsOpen(g: Graph, base: seq<NodeId>, events: seq<Event>, i: nat)
    requires Grammar(g, base, events) && i < |events| - 1
    ensures !Terminal(events[i])
  {
    assert Allowed(g, base, events[..i + 1], events[i + 1]);
    assert Last(events[..i + 1]) == events[i];
  }

  lemma GrammarEnds(g: Graph, base: seq<NodeId>, events: seq<Event>)
    requires Grammar(g, base, events) && events != []
    ensures events[0] == WorkflowStarted
    ensures forall i :: 0 <= i < |events| - 1 ==> !Terminal(events[i])
  {
    assert Allowed(g, base, events[..0], events[0]);
    forall i | 0 <= i < |events| - 1 ensures !Terminal(events[i]) { NotLastIsOpen(g, base, events, i); }
  }
}
