/**
 The executor's loop over the live objects, one node after another: the schedule without overlap.
 It meets the ending that the state machine proves for every schedule.
 */
module SequentialExecutor {
  import opened Wrappers
  import opened Graphs
  import opened Context
  import opened Executor
  import opened ExecutorInvariant
  import opened ExecutorRuns
  import opened ExecutorRecords
  import opened ExecutorOutcome
  import opened ExecutorRefinement

  type Answer = (NodeId, NodeDef, Inputs) -> Outcome

  ghost function WorldOf(definition: Definition, options: Options, answer: Answer): World {
    World(definition, options, (n, d, inputs, outcome) => outcome == answer(n, d, inputs))
  }

  /** Nothing but the executions of unfinished nodes changed. */
  ghost predicate SameProgress(c: ExecutionContext, c': ExecutionContext) {
    c' == c.(nodeExecutions := c'.nodeExecutions)
  }

  /** Every node of the round has a record, and `failed` are those whose record is a failure. */
  ghost predicate RoundRecorded(executions: map<NodeId, NodeExecution>, ready: seq<NodeId>, failed: seq<NodeId>) {
    && (forall n :: n in ready ==> n in executions && (executions[n].success ==> executions[n].output.Some?))
    && (forall n :: n in failed <==> n in ready && n in executions && !executions[n].success)
  }

  ghost predicate RecordsOne(before: map<NodeId, NodeExecution>, after: map<NodeId, NodeExecution>, n: NodeId, success: bool) {
    && n in after && after == before[n := after[n]]
    && after[n].success == success && (success ==> after[n].output.Some?)
  }

  class WorkflowExecutor {
    const answer: Answer

    constructor (answer: Answer)
      ensures this.answer == answer
    {
      this.answer := answer;
    }

    /** Runs one ready node and records its execution. */
    method ExecuteNode(m: ManagedExecutionContext, nodeId: NodeId, definition: Definition, ghost w: World, ghost program: Program)
      returns (success: bool, ghost inputs: Inputs)
      requires Valid(w) && w == WorldOf(definition, w.options, answer)
      requires m.Mirrored() && Sound(w, m.context) && Ready(w.Graph(), m.context.completedNodes, nodeId)
      modifies m, m.service
      ensures m.Mirrored() && Sound(w, m.context) && SameProgress(old(m.context), m.context)
      ensures RecordsOne(old(m.context.nodeExecutions), m.context.nodeExecutions, nodeId, success)
      ensures nodeId in Keys(w.definition) && HasInputs(w, old(m.context.nodeExecutions), nodeId, inputs)
      ensures Records(m.context.nodeExecutions[nodeId], inputs, answer(nodeId, w.Node(nodeId), inputs))
      ensures !success ==> !Succeeding(w)
      ensures Runs(w, program) && Valued(w, program, old(m.context.nodeExecutions)) ==>
                Valued(w, program, m.context.nodeExecutions)
    {
      ghost var c := m.context;
      ReadyIsResolvable(w, c, nodeId);
      var node := Lookup(definition, nodeId).value;
      var resolved := m.Resolve(nodeId, node);
      inputs := resolved.value;
      var outcome := answer(nodeId, node, resolved.value);
      var updated := m.UpdateNode(nodeId, Execution(resolved.value, outcome));
      RecordKeeps(c.nodeExecutions, c.completedNodes, c.allNodes, nodeId, Execution(inputs, outcome));
      assert w.may(nodeId, node, inputs, outcome);
      if Runs(w, program) && Valued(w, program, c.nodeExecutions) { RecordAnswer(w, program, c, nodeId, inputs, outcome); }
      success := outcome.Succeeded?;
    }

    /** Runs the ready nodes and records their executions; returns exactly those that failed. */
    method ExecuteReadyNodes(m: ManagedExecutionContext, ready: seq<NodeId>, definition: Definition,
                             ghost w: World, ghost program: Program)
      returns (failed: seq<NodeId>)
      requires Valid(w) && w == WorldOf(definition, w.options, answer)
      requires m.Mirrored() && Sound(w, m.context)
      requires AllReady(w.Graph(), m.context.completedNodes, ready)
      modifies m, m.service
      ensures m.Mirrored() && SameProgress(old(m.context), m.context) && Sound(w, m.context)
      ensures RoundRecorded(m.context.nodeExecutions, ready, failed)
      ensures failed != [] ==> !Succeeding(w)
      ensures Runs(w, program) && Valued(w, program, old(m.context.nodeExecutions)) ==>
                Valued(w, program, m.context.nodeExecutions)
    {
      ghost var c0 := m.context;
      ghost var valued := Runs(w, program) && Valued(w, program, c0.nodeExecutions);
      failed := [];
      for i := 0 to |ready|
        invariant m.Mirrored() && SameProgress(c0, m.context) && Sound(w, m.context)
        invariant RoundRecorded(m.context.nodeExecutions, ready[..i], failed)
        invariant failed != [] ==> !Succeeding(w)
        invariant valued ==> Valued(w, program, m.context.nodeExecutions)
      {
        assert ready[i] in ready;
        ghost var before := m.context.nodeExecutions;
        var success, _ := ExecuteNode(m, ready[i], definition, w, program);
        RecordedNext(before, m.context.nodeExecutions, ready, i, failed, success);
        if !success {
          failed := failed + [ready[i]];
        }
      }
      assert ready[..|ready|] == ready;
    }

    method MarkAll(m: ManagedExecutionContext, ready: seq<NodeId>, ghost w: World)
      requires Valid(w) && m.Mirrored() && Sound(w, m.context)
      requires AllReady(w.Graph(), m.context.completedNodes, ready) && AllRecorded(m.context.nodeExecutions, ready)
      modifies m, m.service
      ensures m.Mirrored() && Sound(w, m.context)
      ensures m.context == old(m.context).(completedNodes := old(m.context.completedNodes) + ready)
    {
      ghost var c0 := m.context;
      for i := 0 to |ready|
        invariant m.Mirrored() && Sound(w, m.context)
        invariant m.context == c0.(completedNodes := c0.completedNodes + ready[..i])
      {
        MarkOne(w.Graph(), c0.completedNodes, ready, i);
        ghost var c := m.context.completedNodes;
        TopologicalSnoc(w.Graph(), c, ready[i]);
        NoDupSnoc(c, ready[i]);
        var marked := m.MarkNodeCompleted(ready[i]);
      }
      assert ready[..|ready|] == ready;
    }

    /** One pass of the loop: runs the ready nodes and, unless one failed, marks them all completed. */
    method ExecuteRound(m: ManagedExecutionContext, ready: seq<NodeId>, definition: Definition,
                        ghost w: World, ghost program: Program)
      returns (failed: seq<NodeId>)
      requires Valid(w) && w == WorldOf(definition, w.options, answer)
      requires m.Mirrored() && Sound(w, m.context)
      requires AllReady(w.Graph(), m.context.completedNodes, ready)
      modifies m, m.service
      ensures m.Mirrored() && Sound(w, m.context)
      ensures m.context.completedNodes == old(m.context.completedNodes) + if failed == [] then ready else []
      ensures failed != [] ==> EndingOk(w, m.context, NodesFailed(failed))
      ensures Runs(w, program) && Valued(w, program, old(m.context.nodeExecutions)) ==>
                Valued(w, program, m.context.nodeExecutions)
    {
      failed := ExecuteReadyNodes(m, ready, definition, w, program);
      if failed == [] {
        NoneFailed(m.context.nodeExecutions, ready);
        MarkAll(m, ready, w);
      }
    }

    method ExecuteWorkflow(m: ManagedExecutionContext, definition: Definition, ghost w: World, ghost program: Program)
      returns (ending: Ending)
      requires Valid(w) && w == WorldOf(definition, w.options, answer)
      requires m.Mirrored() && Sound(w, m.context)
      modifies m, m.service
      ensures m.Mirrored() && Sound(w, m.context) && EndingOk(w, m.context, ending)
      ensures old(m.context.completedNodes) <= m.context.completedNodes
      ensures Runs(w, program) && Acyclic(w) && Valued(w, program, old(m.context.nodeExecutions)) ==>
                && ending == Expected(w, program) && EndsWithValues(w, program, ending)
                && OutputsOf(m.context.nodeExecutions) == Values(w, program)
    {
      ghost var c0 := m.context;
      ghost var valued := Runs(w, program) && Valued(w, program, c0.nodeExecutions);
      var dependencies := BuildDependencyGraph(definition);
      while |m.context.completedNodes| < |m.context.allNodes|
        invariant m.Mirrored() && Sound(w, m.context)
        invariant c0.completedNodes <= m.context.completedNodes
        invariant valued ==> Valued(w, program, m.context.nodeExecutions)
        decreases |Keys(definition)| - |m.context.completedNodes|
      {
        CountDecides(w, m.context);
        ReadyNodesAreReady(w, m.context);
        var ready := FindReadyNodes(m.context, dependencies);
        if ready == [] {
          ending := Circular(BlockedNodes(m.context, dependencies));
          Settle(w, program, m.context, ending, valued);
          return;
        }
        var failed := ExecuteRound(m, ready, definition, w, program);
        if failed != [] {
          ending := NodesFailed(failed);
          Settle(w, program, m.context, ending, valued);
          return;
        }
      }
      CountDecides(w, m.context);
      var output := ExtractFinalOutput(definition, m.context);
      ending := match output case Ok(result) => Completed(result) case Err(error) => Threw(error);
      Settle(w, program, m.context, ending, valued);
    }
  }

  lemma RecordedNext(before: map<NodeId, NodeExecution>, after: map<NodeId, NodeExecution>, ready: seq<NodeId>, i: nat,
                     failed: seq<NodeId>, success: bool)
    requires i < |ready| && NoDup(ready) && RoundRecorded(before, ready[..i], failed)
    requires RecordsOne(before, after, ready[i], success)
    ensures RoundRecorded(after, ready[..i + 1], if success then failed else failed + [ready[i]])
  {
    assert ready[..i + 1] == ready[..i] + [ready[i]];
    assert ready[i] !in ready[..i];
  }

  lemma NoneFailed(executions: map<NodeId, NodeExecution>, ready: seq<NodeId>)
    requires RoundRecorded(executions, ready, [])
    ensures AllRecorded(executions, ready)
  {}

  lemma RecordAnswer(w: World, program: Program, c: ExecutionContext, n: NodeId, inputs: Inputs, outcome: Outcome)
    requires Valid(w) && Runs(w, program) && Sound(w, c) && Valued(w, program, c.nodeExecutions)
    requires Ready(w.Graph(), c.completedNodes, n) && ResolveInputs(c, n, w.Node(n)) == Ok(inputs)
    requires w.may(n, w.Node(n), inputs, outcome)
    ensures Valued(w, program, c.nodeExecutions[n := Execution(inputs, outcome)])
  {
    ReadyInputsAreValues(w, program, c, n);
    RecordValued(w, program, c.nodeExecutions, n, Returned(inputs, outcome));
  }

  lemma Settle(w: World, program: Program, c: ExecutionContext, ending: Ending, valued: bool)
    requires Valid(w) && Sound(w, c) && EndingOk(w, c, ending)
    requires valued ==> Runs(w, program) && Valued(w, program, c.nodeExecutions)
    ensures valued && Acyclic(w) ==>
              && ending == Expected(w, program) && EndsWithValues(w, program, ending)
              && OutputsOf(c.nodeExecutions) == Values(w, program)
  {
    if valued && Acyclic(w) {
      assert Succeeding(w);
      EndingMeansDoomed(w, c, ending);
      OutputsAreValues(w, program, c);
      ExpectedCompletesIff(w, program);
    }
  }
}
