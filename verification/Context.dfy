/**
 The execution context of a run, how node inputs are read out of it, and its mirror in Redis.
 A JavaScript Set is the duplicate-free list of its members in insertion order.
 A property whose value is undefined counts as absent.
 */
module Context {
  import opened Wrappers
  import opened Strings
  import opened Flow
  import opened Graphs

  type Output = map<string, Json>
  type Inputs = map<string, Json>

  /** An input names a source, "node.field" or "node", or carries a literal value. */
  datatype InputDef = InputDef(source: Option<string>, value: Option<Json>)

  /** The parts of a node only its implementation reads. */
  datatype Details = Details(
    config: map<string, Json>,
    tools: seq<RunnerTool>,
    memory: Option<RunnerMemory>,
    outputs: map<string, RunnerOutput>)

  datatype NodeDef = NodeDef(kind: string, inputs: Record<InputDef>, details: Details)

  type Definition = Record<NodeDef>

  datatype NodeExecution = NodeExecution(
    success: bool, inputs: Inputs, output: Option<Output>, error: Option<string>)

  datatype Options = Options(
    workflowId: string, sessionId: string, triggerId: string, inputs: Inputs)

  datatype ExecutionContext = ExecutionContext(
    workflowId: string,
    sessionId: string,
    triggerId: string,
    workflowInputs: Inputs,
    nodeExecutions: map<NodeId, NodeExecution>,
    completedNodes: seq<NodeId>,
    allNodes: seq<NodeId>)

  /** `set.add(x)` */
  function Add<T(==,!new)>(s: seq<T>, x: T): (r: seq<T>)
    ensures NoDup(s) ==> NoDup(r)
    ensures forall y :: y in r <==> y in s || y == x
  {
    if x in s then s else s + [x]
  }

  function FreshContext(definition: Definition, options: Options): ExecutionContext {
    ExecutionContext(options.workflowId, options.sessionId, options.triggerId, options.inputs,
                     map[], [], Keys(definition))
  }

  // ---------------------------------------------------------------- dependencies

  predicate HasSource(d: InputDef) {
    d.source.Some? && d.source.value != ""
  }

  /** `source.split(".")[0]` */
  function SourceNode(source: string): NodeId {
    Split(source, ".")[0]
  }

  /** `source.split(".")[1]`, empty when there is none: both read as "the whole output". */
  function SourceField(source: string): string {
    var parts := Split(source, ".");
    if |parts| > 1 then parts[1] else ""
  }

  /** The nodes the inputs of one node name, each once, in order of first mention. */
  function Dependencies(inputs: Record<InputDef>): (deps: seq<NodeId>) {
    if inputs == [] then []
    else
      var before, d := Dependencies(inputs[..|inputs| - 1]), Last(inputs).value;
      if HasSource(d) && SourceNode(d.source.value) != "" then Add(before, SourceNode(d.source.value))
      else before
  }

  predicate Names(d: InputDef, id: NodeId) {
    HasSource(d) && SourceNode(d.source.value) == id && id != ""
  }

  lemma {:induction false} DependenciesAreNamed(inputs: Record<InputDef>, id: NodeId)
    ensures NoDup(Dependencies(inputs))
    ensures id in Dependencies(inputs) <==> exists e :: e in inputs && Names(e.value, id)
  {
    if inputs != [] {
      var front, last := inputs[..|inputs| - 1], Last(inputs);
      DependenciesAreNamed(front, id);
      assert inputs == front + [last];
    }
  }

  function GraphOf(definition: Definition): Graph {
    Graph(Keys(definition),
          map e | e in definition :: e.key := Dependencies(Lookup(definition, e.key).value.inputs))
  }

  lemma GraphDependencies(definition: Definition, i: nat)
    requires ValidRecord(definition) && i < |definition|
    ensures GraphOf(definition).DepsOf(definition[i].key) == Dependencies(definition[i].value.inputs)
  {
    LookupUnique(definition, i);
    assert definition[i] in definition;
  }

  lemma DistinctKeys<T>(r: Record<T>)
    requires ValidRecord(r)
    ensures forall i, j :: 0 <= i < j < |r| ==> r[i].key != r[j].key
  {
    forall i, j | 0 <= i < j < |r| ensures r[i].key != r[j].key {
      assert Keys(r)[i] != Keys(r)[j];
    }
  }

  method AddDependencies(before: map<NodeId, seq<NodeId>>, nodeId: NodeId, inputs: Record<InputDef>)
    returns (dependencies: map<NodeId, seq<NodeId>>)
    requires nodeId in before && before[nodeId] == []
    ensures dependencies == before[nodeId := Dependencies(inputs)]
  {
    dependencies := before;
    for j := 0 to |inputs|
      invariant dependencies == before[nodeId := Dependencies(inputs[..j])]
    {
      var inputDef := inputs[j].value;
      DependenciesStep(inputs, j);
      if HasSource(inputDef) {
        var sourceNodeId := Split(inputDef.source.value, ".")[0];
        if sourceNodeId != "" && sourceNodeId !in dependencies[nodeId] {
          dependencies := dependencies[nodeId := dependencies[nodeId] + [sourceNodeId]];
        }
      }
    }
    assert inputs[..|inputs|] == inputs;
  }

  /** The nodes before `i` have their dependencies, the others none yet. */
  ghost predicate Filled(definition: Definition, dependencies: map<NodeId, seq<NodeId>>, i: nat) {
    && (dependencies.Keys == set j | 0 <= j < |definition| :: definition[j].key)
    && forall j :: 0 <= j < |definition| ==>
         dependencies[definition[j].key] == if j < i then Dependencies(definition[j].value.inputs) else []
  }

  lemma FillNext(definition: Definition, dependencies: map<NodeId, seq<NodeId>>, i: nat)
    requires ValidRecord(definition) && i < |definition| && Filled(definition, dependencies, i)
    ensures Filled(definition, dependencies[definition[i].key := Dependencies(definition[i].value.inputs)], i + 1)
  {
    DistinctKeys(definition);
  }

  method BuildDependencyGraph(definition: Definition) returns (dependencies: map<NodeId, seq<NodeId>>)
    requires ValidRecord(definition)
    ensures Graph(Keys(definition), dependencies) == GraphOf(definition)
  {
    dependencies := map[];
    for i := 0 to |definition|
      invariant dependencies.Keys == set j | 0 <= j < i :: definition[j].key
      invariant forall k :: k in dependencies ==> dependencies[k] == []
    {
      dependencies := dependencies[definition[i].key := []];
    }
    for i := 0 to |definition|
      invariant Filled(definition, dependencies, i)
    {
      FillNext(definition, dependencies, i);
      dependencies := AddDependencies(dependencies, definition[i].key, definition[i].value.inputs);
    }
    GraphOfIs(definition, dependencies);
  }

  lemma DependenciesStep(inputs: Record<InputDef>, j: nat)
    requires j < |inputs|
    ensures var before, d := Dependencies(inputs[..j]), inputs[j].value;
            Dependencies(inputs[..j + 1]) ==
            if HasSource(d) && SourceNode(d.source.value) != "" then Add(before, SourceNode(d.source.value)) else before
  {
    assert inputs[..j + 1][..j] == inputs[..j];
  }

  lemma GraphOfIs(definition: Definition, dependencies: map<NodeId, seq<NodeId>>)
    requires ValidRecord(definition)
    requires dependencies.Keys == set j | 0 <= j < |definition| :: definition[j].key
    requires forall j :: 0 <= j < |definition| ==> dependencies[definition[j].key] == Dependencies(definition[j].value.inputs)
    ensures GraphOf(definition).deps == dependencies
  {
    var deps := GraphOf(definition).deps;
    forall j | 0 <= j < |definition|
      ensures definition[j].key in deps && deps[definition[j].key] == dependencies[definition[j].key]
    {
      assert definition[j] in definition;
      GraphDependencies(definition, j);
    }
  }

  // ---------------------------------------------------------------- reading inputs

  /** What the context remembers of finished executions: the output of each recorded node. */
  type Outputs = map<NodeId, Option<Output>>

  function OutputsOf(executions: map<NodeId, NodeExecution>): (outputs: Outputs)
    ensures outputs.Keys == executions.Keys
    ensures forall n :: n in executions ==> outputs[n] == executions[n].output
  {
    map n | n in executions :: executions[n].output
  }

  datatype ResolveError = NodeNotFound(id: NodeId) | EntrypointNotFound

  function FieldOf(output: Option<Output>, field: string): Option<Json> {
    if output.Some? && field in output.value then Some(output.value[field]) else None
  }

  function WholeOf(output: Option<Output>): Option<Json> {
    if output.Some? then Some(JObject(output.value)) else None
  }

  /** One input in `resolveInputs`; `Err` is a throw. */
  function ResolveOne(outputs: Outputs, name: string, d: InputDef): Result<Option<Json>, ResolveError> {
    if HasSource(d) then
      var id, field := SourceNode(d.source.value), SourceField(d.source.value);
      if id == "" then Ok(None)
      else if id !in outputs then Err(NodeNotFound(id))
      else if field != "" then Ok(FieldOf(outputs[id], field))
      else Ok(WholeOf(outputs[id]))
    else if ENTRYPOINT_ID !in outputs then Err(EntrypointNotFound)
    else if FieldOf(outputs[ENTRYPOINT_ID], name).Some? then Ok(FieldOf(outputs[ENTRYPOINT_ID], name))
    else Ok(d.value)
  }

  function ResolveEntries(outputs: Outputs, inputs: Record<InputDef>): Result<Inputs, ResolveError> {
    if inputs == [] then Ok(map[])
    else
      var before, last := ResolveEntries(outputs, inputs[..|inputs| - 1]), Last(inputs);
      if before.Err? then before
      else
        var value := ResolveOne(outputs, last.key, last.value);
        match value
        case Err(e) => Err(e)
        case Ok(None) => before
        case Ok(Some(v)) => Ok(before.value[last.key := v])
  }

  function ResolveInputs(context: ExecutionContext, nodeId: NodeId, d: NodeDef): Result<Inputs, ResolveError> {
    if nodeId == ENTRYPOINT_ID then Ok(context.workflowInputs)
    else ResolveEntries(OutputsOf(context.nodeExecutions), d.inputs)
  }

  lemma {:induction false} ResolvesIffEach(outputs: Outputs, inputs: Record<InputDef>)
    ensures ResolveEntries(outputs, inputs).Ok? <==>
            forall e :: e in inputs ==> ResolveOne(outputs, e.key, e.value).Ok?
  {
    if inputs != [] {
      ResolvesIffEach(outputs, inputs[..|inputs| - 1]);
      assert inputs == inputs[..|inputs| - 1] + [Last(inputs)];
    }
  }

  /** `e` contributed to `resolved` what resolving it alone gives, or nothing. */
  ghost predicate Contributes(outputs: Outputs, e: Entry<InputDef>, resolved: Inputs) {
    ResolveOne(outputs, e.key, e.value) == Ok(if e.key in resolved then Some(resolved[e.key]) else None)
  }

  /** Each input is resolved on its own: the loop neither mixes inputs up nor skips one. */
  lemma {:induction false} ResolvedPointwise(outputs: Outputs, inputs: Record<InputDef>)
    requires ValidRecord(inputs) && ResolveEntries(outputs, inputs).Ok?
    ensures forall k :: k in ResolveEntries(outputs, inputs).value ==> k in Keys(inputs)
    ensures forall e :: e in inputs ==> Contributes(outputs, e, ResolveEntries(outputs, inputs).value)
  {
    if inputs != [] {
      var front, last := inputs[..|inputs| - 1], Last(inputs);
      RecordSnoc(inputs);
      ResolvedPointwise(outputs, front);
      var before, after := ResolveEntries(outputs, front).value, ResolveEntries(outputs, inputs).value;
      assert last.key !in before;
      AssignOne(outputs, before, last, after);
      forall e | e in inputs ensures Contributes(outputs, e, after) {
        if e in front { KeepOther(outputs, before, last, after, e); }
      }
    }
  }

  ghost predicate Assigned(outputs: Outputs, before: Inputs, last: Entry<InputDef>, after: Inputs) {
    var r := ResolveOne(outputs, last.key, last.value);
    r.Ok? && after == if r.value.Some? then before[last.key := r.value.value] else before
  }

  lemma AssignOne(outputs: Outputs, before: Inputs, last: Entry<InputDef>, after: Inputs)
    requires last.key !in before && Assigned(outputs, before, last, after)
    ensures Contributes(outputs, last, after)
  {}

  lemma KeepOther(outputs: Outputs, before: Inputs, last: Entry<InputDef>, after: Inputs, e: Entry<InputDef>)
    requires e.key != last.key && Assigned(outputs, before, last, after) && Contributes(outputs, e, before)
    ensures Contributes(outputs, e, after)
  {}

  lemma RecordSnoc<T>(r: Record<T>)
    requires ValidRecord(r) && r != []
    ensures var front, last := r[..|r| - 1], Last(r);
            && ValidRecord(front) && r == front + [last]
            && Keys(r) == Keys(front) + [last.key]
            && last.key !in Keys(front)
            && forall e :: e in front ==> e.key != last.key
  {
    var front := r[..|r| - 1];
    assert Keys(front) == Keys(r)[..|r| - 1];
    DistinctKeys(r);
  }

  /** The text `source` addresses `field` of node `id`, or the whole of it when `field` is empty; further parts are ignored. */
  ghost predicate Addresses(source: string, id: NodeId, field: string) {
    && '.' !in id && '.' !in field
    && ((field == "" && source == id) ||
        exists more :: source == id + "." + field + more && (more == "" || more[0] == '.'))
  }

  lemma FirstPart(field: string, more: string)
    requires '.' !in field && (more == "" || more[0] == '.')
    ensures Split(field + more, ".")[0] == field
  {
    if more == "" {
      assert field + more == field;
      NotFound(field, ".");
    } else {
      assert field + more == field + "." + more[1..];
      SplitCons(field, ".", more[1..]);
    }
  }

  lemma AddressedParts(source: string, id: NodeId, field: string)
    requires Addresses(source, id, field)
    ensures SourceNode(source) == id && SourceField(source) == field
  {
    if more :| source == id + "." + field + more && (more == "" || more[0] == '.') {
      Assoc(id + ".", field, more);
      SplitCons(id, ".", field + more);
      FirstPart(field, more);
    } else {
      NotFound(id, ".");
    }
  }

  /** Every text addresses something. */
  lemma EveryTextAddresses(source: string) returns (id: NodeId, field: string)
    ensures Addresses(source, id, field)
  {
    if Contains(source, ".") {
      var rest;
      id, rest := SplitPoint(source, ".");
      if Contains(rest, ".") {
        var more;
        field, more := SplitPoint(rest, ".");
        assert source == id + "." + field + ("." + more);
      } else {
        field := rest;
        Plain(rest);
        assert source == id + "." + field + "";
      }
    } else {
      id, field := source, "";
      Plain(source);
    }
  }

  lemma Plain(s: string)
    requires !Contains(s, ".")
    ensures '.' !in s
  {
    FindLeast(s, ".");
    forall j | 0 <= j < |s| ensures s[j] != '.' {
      assert !Occurs(s, ".", j);
      assert s[j..][..1] == [s[j]];
    }
  }

  /** A dependency is a non-empty id that some source addresses. */
  lemma DependenciesAreAddressed(inputs: Record<InputDef>, id: NodeId)
    ensures id in Dependencies(inputs) <==>
              id != "" && exists e, field :: e in inputs && e.value.source.Some? && Addresses(e.value.source.value, id, field)
  {
    DependenciesAreNamed(inputs, id);
    if e :| e in inputs && Names(e.value, id) {
      var node, field := EveryTextAddresses(e.value.source.value);
      AddressedParts(e.value.source.value, node, field);
    }
    if id != "" {
      forall e, field | e in inputs && e.value.source.Some? && Addresses(e.value.source.value, id, field)
        ensures Names(e.value, id)
      {
        AddressedParts(e.value.source.value, id, field);
      }
    }
  }

  /** What reading `field` of an output gives. */
  ghost predicate GivesField(output: Option<Output>, field: string, value: Option<Json>) {
    && (forall m :: output == Some(m) && field in m ==> value == Some(m[field]))
    && (forall m :: output == Some(m) && field !in m ==> value == None)
    && (output == None ==> value == None)
  }

  ghost predicate GivesWhole(output: Option<Output>, value: Option<Json>) {
    (forall m :: output == Some(m) ==> value == Some(JObject(m))) && (output == None ==> value == None)
  }

  /** An input with source "id.field" or "id" has the value `value`, when nodes have put out `outputs`. */
  ghost predicate ReadsSource(outputs: Outputs, source: string, value: Option<Json>) {
    forall id, field :: Addresses(source, id, field) ==>
      && (id == "" ==> value == None)
      && (id != "" ==> id in outputs)
      && (id != "" && field != "" ==> GivesField(outputs[id], field, value))
      && (id != "" && field == "" ==> GivesWhole(outputs[id], value))
  }

  /** An input without source: what the entrypoint put out under its name, else its literal value. */
  ghost predicate ReadsEntrypoint(outputs: Outputs, name: string, literal: Option<Json>, value: Option<Json>) {
    && ENTRYPOINT_ID in outputs
    && (forall m :: outputs[ENTRYPOINT_ID] == Some(m) && name in m ==> value == Some(m[name]))
    && ((forall m :: outputs[ENTRYPOINT_ID] == Some(m) ==> name !in m) ==> value == literal)
  }

  ghost predicate Means(outputs: Outputs, name: string, d: InputDef, value: Option<Json>) {
    if d.source in {None, Some("")} then ReadsEntrypoint(outputs, name, d.value, value)
    else ReadsSource(outputs, d.source.value, value)
  }

  function At(inputs: Inputs, name: string): Option<Json> {
    if name in inputs then Some(inputs[name]) else None
  }

  /** Resolved inputs have the values their texts mean, and there are no others. */
  ghost predicate MeansAll(outputs: Outputs, inputs: Record<InputDef>, resolved: Inputs) {
    && (forall e :: e in inputs ==> Means(outputs, e.key, e.value, At(resolved, e.key)))
    && forall k :: k in resolved ==> k in Keys(inputs)
  }

  lemma OneMeans(outputs: Outputs, name: string, d: InputDef, value: Option<Json>)
    requires ResolveOne(outputs, name, d) == Ok(value)
    ensures Means(outputs, name, d, value)
  {
    if HasSource(d) {
      forall id, field | Addresses(d.source.value, id, field)
        ensures id == "" ==> value == None
        ensures id != "" ==> id in outputs
        ensures id != "" && field != "" ==> GivesField(outputs[id], field, value)
        ensures id != "" && field == "" ==> GivesWhole(outputs[id], value)
      {
        AddressedParts(d.source.value, id, field);
      }
    }
  }

  /** Resolution gives every input the value its text means. */
  lemma ResolvedMeans(outputs: Outputs, inputs: Record<InputDef>)
    requires ValidRecord(inputs) && ResolveEntries(outputs, inputs).Ok?
    ensures MeansAll(outputs, inputs, ResolveEntries(outputs, inputs).value)
  {
    var resolved := ResolveEntries(outputs, inputs).value;
    ResolvedPointwise(outputs, inputs);
    forall e | e in inputs ensures Means(outputs, e.key, e.value, At(resolved, e.key)) {
      assert Contributes(outputs, e, resolved);
      OneMeans(outputs, e.key, e.value, At(resolved, e.key));
    }
  }

  /** Why an input throws: the node it addresses, or the entrypoint, has no record. */
  ghost predicate Throws(outputs: Outputs, d: InputDef, error: ResolveError) {
    if d.source in {None, Some("")} then ENTRYPOINT_ID !in outputs && error == EntrypointNotFound
    else exists id, field ::
           Addresses(d.source.value, id, field) && id != "" && id !in outputs && error == NodeNotFound(id)
  }

  ghost predicate FirstThrow(outputs: Outputs, inputs: Record<InputDef>, i: int, error: ResolveError) {
    && 0 <= i < |inputs| && Throws(outputs, inputs[i].value, error)
    && forall j, e :: 0 <= j < i ==> !Throws(outputs, inputs[j].value, e)
  }

  lemma OneThrows(outputs: Outputs, name: string, d: InputDef)
    ensures forall e :: Throws(outputs, d, e) <==> ResolveOne(outputs, name, d) == Err(e)
  {
    if HasSource(d) {
      var id, field := EveryTextAddresses(d.source.value);
      forall id', field' | Addresses(d.source.value, id', field') ensures SourceNode(d.source.value) == id' {
        AddressedParts(d.source.value, id', field');
      }
    }
  }

  /** The error is that of the first input that throws. */
  lemma {:induction false} ErrorIsFirst(outputs: Outputs, inputs: Record<InputDef>)
    requires ResolveEntries(outputs, inputs).Err?
    ensures exists i :: FirstThrow(outputs, inputs, i, ResolveEntries(outputs, inputs).error)
  {
    var front, k := inputs[..|inputs| - 1], |inputs| - 1;
    OneThrows(outputs, inputs[k].key, inputs[k].value);
    if ResolveEntries(outputs, front).Err? {
      ErrorIsFirst(outputs, front);
      var i :| FirstThrow(outputs, front, i, ResolveEntries(outputs, front).error);
      assert FirstThrow(outputs, inputs, i, ResolveEntries(outputs, inputs).error);
    } else {
      ResolvesIffEach(outputs, front);
      forall j, e | 0 <= j < k ensures !Throws(outputs, inputs[j].value, e) {
        assert front[j] in front;
        OneThrows(outputs, inputs[j].key, inputs[j].value);
      }
      assert FirstThrow(outputs, inputs, k, ResolveEntries(outputs, inputs).error);
    }
  }

  /** Every input has the value its text means, or the first one that throws gives the error. */
  ghost predicate IsResolution(outputs: Outputs, inputs: Record<InputDef>, r: Result<Inputs, ResolveError>) {
    match r
    case Ok(resolved) => ValidRecord(inputs) ==> MeansAll(outputs, inputs, resolved)
    case Err(error) => exists i :: FirstThrow(outputs, inputs, i, error)
  }

  lemma ResolutionIs(outputs: Outputs, inputs: Record<InputDef>)
    ensures IsResolution(outputs, inputs, ResolveEntries(outputs, inputs))
  {
    if ResolveEntries(outputs, inputs).Err? { ErrorIsFirst(outputs, inputs); }
    if ResolveEntries(outputs, inputs).Ok? && ValidRecord(inputs) { ResolvedMeans(outputs, inputs); }
  }

  predicate Sourceless(inputs: Record<InputDef>) {
    exists e :: e in inputs && !HasSource(e.value)
  }

  /** The recorded nodes that resolving the inputs of `nodeId` reads. */
  function Needs(nodeId: NodeId, d: NodeDef): set<NodeId> {
    if nodeId == ENTRYPOINT_ID then {}
    else (set id | id in Dependencies(d.inputs)) + if Sourceless(d.inputs) then {ENTRYPOINT_ID} else {}
  }

  lemma NamedIsNeeded(nodeId: NodeId, d: NodeDef, e: Entry<InputDef>)
    requires nodeId != ENTRYPOINT_ID && e in d.inputs
    ensures HasSource(e.value) && SourceNode(e.value.source.value) != "" ==>
              SourceNode(e.value.source.value) in Needs(nodeId, d)
    ensures !HasSource(e.value) ==> ENTRYPOINT_ID in Needs(nodeId, d)
  {
    if HasSource(e.value) && SourceNode(e.value.source.value) != "" {
      var id := SourceNode(e.value.source.value);
      assert Names(e.value, id);
      DependenciesAreNamed(d.inputs, id);
    }
  }

  lemma {:induction false} ResolveFrame(o1: Outputs, o2: Outputs, inputs: Record<InputDef>)
    requires forall e :: e in inputs ==> ResolveOne(o1, e.key, e.value) == ResolveOne(o2, e.key, e.value)
    ensures ResolveEntries(o1, inputs) == ResolveEntries(o2, inputs)
  {
    if inputs != [] {
      assert inputs == inputs[..|inputs| - 1] + [Last(inputs)];
      ResolveFrame(o1, o2, inputs[..|inputs| - 1]);
    }
  }

  /** Resolution depends on the needed nodes only. */
  lemma ResolveReadsNeeds(o1: Outputs, o2: Outputs, nodeId: NodeId, d: NodeDef)
    requires nodeId != ENTRYPOINT_ID
    requires forall id :: id in Needs(nodeId, d) ==> id in o1 && id in o2 && o1[id] == o2[id]
    ensures ResolveEntries(o1, d.inputs) == ResolveEntries(o2, d.inputs)
  {
    forall e | e in d.inputs
      ensures ResolveOne(o1, e.key, e.value) == ResolveOne(o2, e.key, e.value)
    {
      NamedIsNeeded(nodeId, d, e);
    }
    ResolveFrame(o1, o2, d.inputs);
  }

  /** The exact condition for `resolveInputs` not to throw. */
  lemma ResolvesIffNeedsRecorded(outputs: Outputs, nodeId: NodeId, d: NodeDef)
    requires nodeId != ENTRYPOINT_ID
    ensures ResolveEntries(outputs, d.inputs).Ok? <==> forall id :: id in Needs(nodeId, d) ==> id in outputs
  {
    ResolvesIffEach(outputs, d.inputs);
    forall e | e in d.inputs && (forall id :: id in Needs(nodeId, d) ==> id in outputs)
      ensures ResolveOne(outputs, e.key, e.value).Ok?
    {
      NamedIsNeeded(nodeId, d, e);
    }
    forall id | id in Needs(nodeId, d) && forall e :: e in d.inputs ==> ResolveOne(outputs, e.key, e.value).Ok?
      ensures id in outputs
    {
      if id in Dependencies(d.inputs) {
        DependenciesAreNamed(d.inputs, id);
        var e :| e in d.inputs && Names(e.value, id);
        assert ResolveOne(outputs, e.key, e.value).Ok?;
      } else {
        var e :| e in d.inputs && !HasSource(e.value);
        assert ResolveOne(outputs, e.key, e.value).Ok?;
      }
    }
  }

  // ---------------------------------------------------------------- ready and result nodes

  function Filter<T(!new)>(s: seq<T>, keep: T -> bool): (r: seq<T>)
    ensures forall x :: x in r <==> x in s && keep(x)
    ensures NoDup(s) ==> NoDup(r)
    ensures |r| <= |s|
  {
    if s == [] then []
    else
      var front, last := Filter(s[..|s| - 1], keep), Last(s);
      assert s == s[..|s| - 1] + [last];
      if keep(last) then front + [last] else front
  }

  predicate AllIn<T(==)>(xs: seq<T>, s: seq<T>) {
    forall x :: x in xs ==> x in s
  }

  function FindReadyNodes(context: ExecutionContext, dependencies: map<NodeId, seq<NodeId>>): (ready: seq<NodeId>)
    ensures forall n :: n in ready <==> Ready(Graph(context.allNodes, dependencies), context.completedNodes, n)
    ensures NoDup(context.allNodes) ==> NoDup(ready)
  {
    Filter(Filter(context.allNodes, n => n !in context.completedNodes),
           n => AllIn(Graph(context.allNodes, dependencies).DepsOf(n), context.completedNodes))
  }

  /** The nodes left over and, for each, the dependencies it still waits for. */
  datatype Blocked = Blocked(nodeId: NodeId, missingDeps: seq<NodeId>)

  function Remaining(context: ExecutionContext): seq<NodeId> {
    Filter(context.allNodes, n => n !in context.completedNodes)
  }

  function MissingDeps(context: ExecutionContext, dependencies: map<NodeId, seq<NodeId>>, n: NodeId): seq<NodeId> {
    Filter(Graph(context.allNodes, dependencies).DepsOf(n), d => d !in context.completedNodes)
  }

  function BlockedNodes(context: ExecutionContext, dependencies: map<NodeId, seq<NodeId>>): (blocked: seq<Blocked>)
    ensures |blocked| == |Remaining(context)|
    ensures forall i :: 0 <= i < |blocked| ==>
              blocked[i] == Blocked(Remaining(context)[i], MissingDeps(context, dependencies, Remaining(context)[i]))
  {
    var remaining := Remaining(context);
    seq(|remaining|, i requires 0 <= i < |remaining| => Blocked(remaining[i], MissingDeps(context, dependencies, remaining[i])))
  }

  ghost predicate IsBlocked(blocked: seq<Blocked>, n: NodeId) {
    exists b :: b in blocked && b.nodeId == n
  }

  /** The error names exactly the nodes left over, each with exactly the dependencies not completed. */
  lemma BlockedAreLeftovers(context: ExecutionContext, dependencies: map<NodeId, seq<NodeId>>, n: NodeId)
    ensures var blocked := BlockedNodes(context, dependencies);
            && (IsBlocked(blocked, n) <==> n in context.allNodes && n !in context.completedNodes)
            && forall b, d :: b in blocked ==>
                 (d in b.missingDeps <==>
                    d in Graph(context.allNodes, dependencies).DepsOf(b.nodeId) && d !in context.completedNodes)
  {
    var blocked := BlockedNodes(context, dependencies);
    if n in Remaining(context) {
      var i :| 0 <= i < |blocked| && Remaining(context)[i] == n;
      assert blocked[i] in blocked;
    }
  }

  function ResultNodeIds(definition: Definition): (ids: seq<NodeId>) {
    Keys(Filter(definition, (e: Entry<NodeDef>) => e.value.kind == "result"))
  }

  function OutputJson(output: Option<Output>): Json {
    if output.Some? then JObject(output.value) else JNull
  }

  function ResultObject(outputs: Outputs, ids: seq<NodeId>): Result<map<string, Json>, ResolveError> {
    if ids == [] then Ok(map[])
    else
      var before, id := ResultObject(outputs, ids[..|ids| - 1]), Last(ids);
      if before.Err? then before
      else if id !in outputs then Err(NodeNotFound(id))
      else Ok(before.value[id := OutputJson(outputs[id])])
  }

  /** `extractFinalOutput`; `Err` is a throw. A lone result node is looked up under the fixed id. */
  function FinalOutput(definition: Definition, outputs: Outputs): Result<Json, ResolveError> {
    var ids := ResultNodeIds(definition);
    var all := ResultObject(outputs, ids);
    if all.Err? then Err(all.error)
    else if |ids| == 1 then
      if RESULT_NODE_ID in outputs then Ok(OutputJson(outputs[RESULT_NODE_ID])) else Err(NodeNotFound(RESULT_NODE_ID))
    else Ok(JObject(all.value))
  }

  ghost predicate IsResultNode(definition: Definition, id: NodeId) {
    exists e :: e in definition && e.key == id && e.value.kind == "result"
  }

  lemma ResultNodesAre(definition: Definition, id: NodeId)
    ensures id in ResultNodeIds(definition) <==> IsResultNode(definition, id)
  {
    var kept := Filter(definition, (e: Entry<NodeDef>) => e.value.kind == "result");
    if id in ResultNodeIds(definition) {
      var i :| 0 <= i < |kept| && Keys(kept)[i] == id;
      assert kept[i] in kept;
    }
    if IsResultNode(definition, id) {
      var e :| e in definition && e.key == id && e.value.kind == "result";
      var i :| 0 <= i < |kept| && kept[i] == e;
      assert Keys(kept)[i] == id;
    }
  }

  ghost predicate AllHave(outputs: Outputs, ids: seq<NodeId>) {
    forall id :: id in ids ==> id in outputs
  }

  lemma {:induction false} ResultObjectIs(outputs: Outputs, ids: seq<NodeId>)
    ensures ResultObject(outputs, ids).Ok? <==> AllHave(outputs, ids)
    ensures ResultObject(outputs, ids).Ok? ==>
              forall id :: id in ResultObject(outputs, ids).value <==> id in ids
    ensures ResultObject(outputs, ids).Ok? ==>
              forall id :: id in ids ==> ResultObject(outputs, ids).value[id] == OutputJson(outputs[id])
  {
    if ids != [] {
      ResultObjectIs(outputs, ids[..|ids| - 1]);
      assert ids == ids[..|ids| - 1] + [Last(ids)];
    }
  }

  ghost predicate OneResult(definition: Definition) {
    exists id :: OnlyResult(definition, id)
  }

  ghost predicate OnlyResult(definition: Definition, id: NodeId) {
    forall other :: IsResultNode(definition, other) <==> other == id
  }

  lemma OneResultIff(definition: Definition)
    requires ValidRecord(definition)
    ensures OneResult(definition) <==> |ResultNodeIds(definition)| == 1
  {
    var ids := ResultNodeIds(definition);
    DistinctResults(definition);
    forall id ensures id in ids <==> IsResultNode(definition, id) { ResultNodesAre(definition, id); }
    if |ids| == 1 {
      assert OnlyResult(definition, ids[0]);
    }
    if id :| OnlyResult(definition, id) { OnlyMember(ids, id); }
  }

  lemma OnlyMember<T(!new)>(s: seq<T>, x: T)
    requires NoDup(s) && forall y :: y in s <==> y == x
    ensures |s| == 1
  {
    assert x in s;
    Pigeonhole(s, [x]);
  }

  lemma {:induction false} DistinctResults(definition: Definition)
    requires ValidRecord(definition)
    ensures NoDup(ResultNodeIds(definition))
  {
    if definition != [] {
      RecordSnoc(definition);
      var front, last := definition[..|definition| - 1], Last(definition);
      DistinctResults(front);
      ResultsSnoc(definition);
      ResultNodesAre(front, last.key);
      if last.value.kind == "result" { NoDupSnoc(ResultNodeIds(front), last.key); }
    }
  }

  lemma ResultsSnoc(definition: Definition)
    requires definition != []
    ensures var last := Last(definition);
            ResultNodeIds(definition) ==
            ResultNodeIds(definition[..|definition| - 1]) + if last.value.kind == "result" then [last.key] else []
  {}

  /** Entry `i` is the first result node without a record. */
  ghost predicate FirstMissing(definition: Definition, outputs: Outputs, i: int, id: NodeId) {
    && 0 <= i < |definition| && definition[i].value.kind == "result" && definition[i].key == id && id !in outputs
    && forall j :: 0 <= j < i && definition[j].value.kind == "result" ==> definition[j].key in outputs
  }

  /** A failed collection names the first result node without a record; a successful one found them all. */
  ghost predicate CollectedOk(definition: Definition, outputs: Outputs, all: Result<map<string, Json>, ResolveError>) {
    match all
    case Ok(_) => forall j :: 0 <= j < |definition| && definition[j].value.kind == "result" ==> definition[j].key in outputs
    case Err(NodeNotFound(id)) => exists i :: FirstMissing(definition, outputs, i, id)
    case Err(_) => false
  }

  lemma CollectNext(outputs: Outputs, ids: seq<NodeId>, id: NodeId)
    ensures ResultObject(outputs, ids + [id]) ==
            var before := ResultObject(outputs, ids);
            if before.Err? then before
            else if id !in outputs then Err(NodeNotFound(id))
            else Ok(before.value[id := OutputJson(outputs[id])])
  {
    assert (ids + [id])[..|ids|] == ids;
  }

  lemma StillMissing(definition: Definition, last: Entry<NodeDef>, outputs: Outputs, id: NodeId)
    requires exists i :: FirstMissing(definition, outputs, i, id)
    ensures exists i :: FirstMissing(definition + [last], outputs, i, id)
  {
    var i :| FirstMissing(definition, outputs, i, id);
    assert FirstMissing(definition + [last], outputs, i, id);
  }

  lemma CollectedNext(definition: Definition, last: Entry<NodeDef>, outputs: Outputs,
                      before: Result<map<string, Json>, ResolveError>, all: Result<map<string, Json>, ResolveError>)
    requires CollectedOk(definition, outputs, before)
    requires last.value.kind != "result" || before.Err? ==> all == before
    requires last.value.kind == "result" && before.Ok? ==>
               if last.key in outputs then all.Ok? else all == Err(NodeNotFound(last.key))
    ensures CollectedOk(definition + [last], outputs, all)
  {
    if before.Err? {
      StillMissing(definition, last, outputs, before.error.id);
    } else if all.Err? {
      assert FirstMissing(definition + [last], outputs, |definition|, last.key);
    }
  }

  lemma {:induction false} MissingIsFirst(definition: Definition, outputs: Outputs)
    ensures CollectedOk(definition, outputs, ResultObject(outputs, ResultNodeIds(definition)))
  {
    if definition != [] {
      var front, last := definition[..|definition| - 1], Last(definition);
      var before, all := ResultObject(outputs, ResultNodeIds(front)), ResultObject(outputs, ResultNodeIds(definition));
      MissingIsFirst(front, outputs);
      ResultsSnoc(definition);
      CollectNext(outputs, ResultNodeIds(front), last.key);
      assert ResultNodeIds(front) + [] == ResultNodeIds(front);
      CollectedNext(front, last, outputs, before, all);
      assert front + [last] == definition;
    }
  }

  /** A recorded output as JSON; nothing was put out reads as `null`. */
  ghost predicate Shows(output: Option<Output>, value: Json) {
    (forall m :: output == Some(m) ==> value == JObject(m)) && (output == None ==> value == JNull)
  }

  ghost predicate ResultsRecorded(definition: Definition, outputs: Outputs) {
    forall id :: IsResultNode(definition, id) ==> id in outputs
  }

  /**
   What a run returns. It throws exactly when a result node has no record, or there is one result node and
   nothing is recorded under the fixed id. Else one result node gives the output under the fixed id, and any
   other number gives an object with exactly the ids of the result nodes and their outputs.
   */
  ghost predicate IsFinalOutput(definition: Definition, outputs: Outputs, r: Result<Json, ResolveError>) {
    && (r.Ok? <==> ResultsRecorded(definition, outputs) && (OneResult(definition) ==> RESULT_NODE_ID in outputs))
    && (r.Ok? && OneResult(definition) ==> Shows(outputs[RESULT_NODE_ID], r.value))
    && (r.Ok? && !OneResult(definition) ==>
          && r.value.JObject? && (forall id :: id in r.value.fields <==> IsResultNode(definition, id))
          && forall id :: id in r.value.fields ==> id in outputs && Shows(outputs[id], r.value.fields[id]))
    && (r.Err? ==>
          && r.error.NodeNotFound?
          && if ResultsRecorded(definition, outputs) then r.error.id == RESULT_NODE_ID
             else exists i :: FirstMissing(definition, outputs, i, r.error.id))
  }

  lemma FinalOutputIs(definition: Definition, outputs: Outputs)
    requires ValidRecord(definition)
    ensures IsFinalOutput(definition, outputs, FinalOutput(definition, outputs))
  {
    var ids := ResultNodeIds(definition);
    ResultObjectIs(outputs, ids);
    MissingIsFirst(definition, outputs);
    OneResultIff(definition);
    forall id ensures id in ids <==> IsResultNode(definition, id) { ResultNodesAre(definition, id); }
  }

  // ---------------------------------------------------------------- the mirror in Redis

  /** The stored form: sets have become arrays, and an absent array reads as an empty one. */
  datatype StoredContext = StoredContext(
    workflowId: string,
    sessionId: string,
    triggerId: string,
    workflowInputs: Inputs,
    nodeExecutions: map<NodeId, NodeExecution>,
    completedNodes: Option<seq<NodeId>>,
    allNodes: Option<seq<NodeId>>)

  /** `new Set(array)` */
  function ToSet<T(==,!new)>(a: seq<T>): (s: seq<T>)
    ensures NoDup(s)
    ensures forall x :: x in s <==> x in a
  {
    if a == [] then []
    else
      assert a == a[..|a| - 1] + [Last(a)];
      Add(ToSet(a[..|a| - 1]), Last(a))
  }

  lemma {:induction false} ToSetOfSet<T(!new)>(s: seq<T>)
    requires NoDup(s)
    ensures ToSet(s) == s
  {
    if s != [] {
      ToSetOfSet(s[..|s| - 1]);
      assert s == s[..|s| - 1] + [Last(s)];
    }
  }

  function Serialize(c: ExecutionContext): StoredContext {
    StoredContext(c.workflowId, c.sessionId, c.triggerId, c.workflowInputs, c.nodeExecutions,
                  Some(c.completedNodes), Some(c.allNodes))
  }

  function OrEmpty<T>(a: Option<seq<T>>): seq<T> {
    if a.Some? then a.value else []
  }

  function Deserialize(s: StoredContext): ExecutionContext {
    ExecutionContext(s.workflowId, s.sessionId, s.triggerId, s.workflowInputs, s.nodeExecutions,
                     ToSet(OrEmpty(s.completedNodes)), ToSet(OrEmpty(s.allNodes)))
  }

  ghost predicate ProperSets(c: ExecutionContext) {
    NoDup(c.completedNodes) && NoDup(c.allNodes)
  }

  /** Storing and loading a context gives it back, order of completion included. */
  lemma StoreRoundTrip(c: ExecutionContext)
    requires ProperSets(c)
    ensures Deserialize(Serialize(c)) == c
  {
    ToSetOfSet(c.completedNodes);
    ToSetOfSet(c.allNodes);
  }

  const CONTEXT_PREFIX := "workflow:context:"

  function ContextKey(workflowId: string, triggerId: string): string {
    CONTEXT_PREFIX + workflowId + ":" + triggerId
  }

  ghost predicate Colonless(workflowId: string, triggerId: string) {
    ':' !in workflowId && ':' !in triggerId
  }

  lemma PairsAreSeparate(w: string, t: string, w': string, t': string)
    requires Colonless(w, t) && Colonless(w', t') && w + ":" + t == w' + ":" + t'
    ensures w == w' && t == t'
  {
    SplitPair(w, ":", t);
    SplitPair(w', ":", t');
    assert [w, t][0] == w && [w, t][1] == t;
  }

  /** Two runs never share a stored context. */
  lemma ContextsAreSeparate(w: string, t: string, w': string, t': string)
    requires Colonless(w, t) && Colonless(w', t')
    ensures ContextKey(w, t) == ContextKey(w', t') <==> w == w' && t == t'
  {
    if ContextKey(w, t) == ContextKey(w', t') {
      KeyIsPrefixed(w, t);
      KeyIsPrefixed(w', t');
      SuffixesEqual(CONTEXT_PREFIX, w + ":" + t, w' + ":" + t');
      PairsAreSeparate(w, t, w', t');
    }
  }

  lemma KeyIsPrefixed(w: string, t: string)
    ensures ContextKey(w, t) == CONTEXT_PREFIX + (w + ":" + t)
  {
    Assoc(CONTEXT_PREFIX, w, ":");
    Assoc(CONTEXT_PREFIX, w + ":", t);
  }

  datatype UpdateError = ContextNotFound(workflowId: string)

  class RedisContextService {
    var redis: map<string, StoredContext>

    constructor ()
      ensures redis == map[]
    {
      redis := map[];
    }

    function Stored(workflowId: string, triggerId: string): Option<StoredContext>
      reads this
    {
      var key := ContextKey(workflowId, triggerId);
      if key in redis then Some(redis[key]) else None
    }

    /** Reading gives back what was saved, order of completion included. */
    method GetContext(workflowId: string, triggerId: string) returns (context: Option<ExecutionContext>)
      ensures forall c :: ProperSets(c) && Stored(workflowId, triggerId) == Some(Serialize(c)) ==> context == Some(c)
      ensures Stored(workflowId, triggerId).None? ==> context == None
      ensures Stored(workflowId, triggerId).Some? ==>
                context == Some(Deserialize(Stored(workflowId, triggerId).value))
    {
      var key := ContextKey(workflowId, triggerId);
      context := if key in redis then Some(Deserialize(redis[key])) else None;
      forall c | ProperSets(c) && Stored(workflowId, triggerId) == Some(Serialize(c)) ensures context == Some(c) {
        StoreRoundTrip(c);
      }
    }

    /** What is saved can be loaded again, and no other run's context changes. */
    method SaveContext(workflowId: string, triggerId: string, context: ExecutionContext)
      modifies this
      ensures redis == old(redis)[ContextKey(workflowId, triggerId) := Serialize(context)]
      ensures ProperSets(context) ==>
                Stored(workflowId, triggerId).Some? && Deserialize(Stored(workflowId, triggerId).value) == context
      ensures forall w, t :: Colonless(workflowId, triggerId) && Colonless(w, t) && (w != workflowId || t != triggerId) ==>
                Stored(w, t) == old(Stored(w, t))
    {
      if ProperSets(context) { StoreRoundTrip(context); }
      forall w, t | Colonless(workflowId, triggerId) && Colonless(w, t) && (w != workflowId || t != triggerId)
        ensures ContextKey(w, t) != ContextKey(workflowId, triggerId)
      {
        ContextsAreSeparate(workflowId, triggerId, w, t);
      }
      redis := redis[ContextKey(workflowId, triggerId) := Serialize(context)];
    }

    /** The update carries every field, so it replaces whatever the read found. */
    method UpdateContext(workflowId: string, triggerId: string, update: ExecutionContext)
      returns (r: Result<(), UpdateError>)
      modifies this
      ensures r.Ok? <==> old(Stored(workflowId, triggerId)).Some?
      ensures redis == if r.Ok? then old(redis)[ContextKey(workflowId, triggerId) := Serialize(update)] else old(redis)
    {
      var context := GetContext(workflowId, triggerId);
      if context.None? {
        return Err(ContextNotFound(workflowId));
      }
      SaveContext(workflowId, triggerId, update);
      return Ok(());
    }

    method Initialize(definition: Definition, options: Options) returns (m: ManagedExecutionContext)
      requires ValidRecord(definition)
      modifies this
      ensures fresh(m) && m.service == this
      ensures var found := old(Stored(options.workflowId, options.triggerId));
              m.context == if found.Some? then Deserialize(found.value) else FreshContext(definition, options)
      ensures forall c :: ProperSets(c) && old(Stored(options.workflowId, options.triggerId)) == Some(Serialize(c)) ==>
                m.context == c
      ensures old(Stored(options.workflowId, options.triggerId)).None? ==>
                m.context == ExecutionContext(options.workflowId, options.sessionId, options.triggerId, options.inputs,
                                              map[], [], Keys(definition))
      ensures old(Stored(options.workflowId, options.triggerId)).Some? ==> redis == old(redis)
      ensures m.workflowId == options.workflowId && m.triggerId == options.triggerId
      ensures old(Stored(options.workflowId, options.triggerId)).None? ==> m.Mirrored()
    {
      var existing := GetContext(options.workflowId, options.triggerId);
      if existing.Some? {
        m := new ManagedExecutionContext(this, options.workflowId, options.triggerId, existing.value);
        return;
      }
      var context := FreshContext(definition, options);
      SaveContext(options.workflowId, options.triggerId, context);
      m := new ManagedExecutionContext(this, options.workflowId, options.triggerId, context);
    }
  }

  class ManagedExecutionContext {
    const service: RedisContextService
    const workflowId: string
    const triggerId: string
    var context: ExecutionContext

    constructor (service: RedisContextService, workflowId: string, triggerId: string, context: ExecutionContext)
      ensures this.service == service && this.workflowId == workflowId && this.triggerId == triggerId
      ensures this.context == context
    {
      this.service, this.workflowId, this.triggerId, this.context := service, workflowId, triggerId, context;
    }

    /** The store holds what this object holds. */
    ghost predicate Mirrored()
      reads this, service
    {
      service.Stored(workflowId, triggerId) == Some(Serialize(context))
    }

    method Sync() returns (r: Result<(), UpdateError>)
      modifies service
      ensures r.Ok? <==> old(service.Stored(workflowId, triggerId)).Some?
      ensures r.Ok? ==> Mirrored()
      ensures r.Err? ==> service.redis == old(service.redis)
    {
      r := service.UpdateContext(workflowId, triggerId, context);
    }

    method UpdateNode(nodeId: NodeId, execution: NodeExecution) returns (r: Result<(), UpdateError>)
      modifies this, service
      ensures context == old(context).(nodeExecutions := old(context).nodeExecutions[nodeId := execution])
      ensures r.Ok? <==> old(service.Stored(workflowId, triggerId)).Some?
      ensures r.Ok? ==> Mirrored()
      ensures r.Err? ==> service.redis == old(service.redis)
    {
      context := context.(nodeExecutions := context.nodeExecutions[nodeId := execution]);
      r := Sync();
    }

    method MarkNodeCompleted(nodeId: NodeId) returns (r: Result<(), UpdateError>)
      modifies this, service
      ensures context == old(context).(completedNodes := Add(old(context).completedNodes, nodeId))
      ensures r.Ok? <==> old(service.Stored(workflowId, triggerId)).Some?
      ensures r.Ok? ==> Mirrored()
      ensures r.Err? ==> service.redis == old(service.redis)
    {
      context := context.(completedNodes := Add(context.completedNodes, nodeId));
      r := Sync();
    }

    method ResolveInput(name: string, inputDef: InputDef) returns (r: Result<Option<Json>, ResolveError>)
      ensures r == ResolveOne(OutputsOf(context.nodeExecutions), name, inputDef)
    {
      var executions := context.nodeExecutions;
      if HasSource(inputDef) {
        var parts := Split(inputDef.source.value, ".");
        var sourceNodeId, field := parts[0], if |parts| > 1 then parts[1] else "";
        if sourceNodeId == "" {
          return Ok(None);
        }
        if sourceNodeId !in executions {
          return Err(NodeNotFound(sourceNodeId));
        }
        var output := executions[sourceNodeId].output;
        if field != "" {
          return Ok(if output.Some? && field in output.value then Some(output.value[field]) else None);
        }
        return Ok(if output.Some? then Some(JObject(output.value)) else None);
      }
      if ENTRYPOINT_ID !in executions {
        return Err(EntrypointNotFound);
      }
      var output := executions[ENTRYPOINT_ID].output;
      if output.Some? && name in output.value {
        return Ok(Some(output.value[name]));
      }
      return Ok(inputDef.value);
    }

    method Resolve(nodeId: NodeId, d: NodeDef) returns (r: Result<Inputs, ResolveError>)
      ensures r == ResolveInputs(context, nodeId, d)
      ensures nodeId == ENTRYPOINT_ID ==> r == Ok(context.workflowInputs)
      ensures nodeId != ENTRYPOINT_ID ==> IsResolution(OutputsOf(context.nodeExecutions), d.inputs, r)
    {
      if nodeId == ENTRYPOINT_ID {
        return Ok(context.workflowInputs);
      }
      var resolved: Inputs := map[];
      ghost var outputs := OutputsOf(context.nodeExecutions);
      for i := 0 to |d.inputs|
        invariant ResolveEntries(outputs, d.inputs[..i]) == Ok(resolved)
      {
        ResolveNext(outputs, d.inputs, i);
        ErrorsPropagate(outputs, d.inputs, i + 1);
        var value := ResolveInput(d.inputs[i].key, d.inputs[i].value);
        if value.Err? {
          ResolutionIs(outputs, d.inputs);
          return Err(value.error);
        }
        if value.value.Some? {
          resolved := resolved[d.inputs[i].key := value.value.value];
        }
      }
      assert d.inputs[..|d.inputs|] == d.inputs;
      ResolutionIs(outputs, d.inputs);
      return Ok(resolved);
    }
  }

  lemma ResolveNext(outputs: Outputs, inputs: Record<InputDef>, i: nat)
    requires i < |inputs| && ResolveEntries(outputs, inputs[..i]).Ok?
    ensures var value := ResolveOne(outputs, inputs[i].key, inputs[i].value);
            ResolveEntries(outputs, inputs[..i + 1]) ==
            match value
            case Err(e) => Err(e)
            case Ok(None) => ResolveEntries(outputs, inputs[..i])
            case Ok(Some(v)) => Ok(ResolveEntries(outputs, inputs[..i]).value[inputs[i].key := v])
  {
    assert inputs[..i + 1][..i] == inputs[..i];
  }

  /** The first throw ends the loop. */
  lemma {:induction false} ErrorsPropagate(outputs: Outputs, inputs: Record<InputDef>, k: nat)
    requires k <= |inputs|
    ensures ResolveEntries(outputs, inputs[..k]).Err? ==>
              ResolveEntries(outputs, inputs) == ResolveEntries(outputs, inputs[..k])
    decreases |inputs| - k
  {
    if k == |inputs| {
      assert inputs[..k] == inputs;
    } else {
      assert inputs[..k + 1][..k] == inputs[..k];
      ErrorsPropagate(outputs, inputs, k + 1);
    }
  }

  method CollectResults(ids: seq<NodeId>, executions: map<NodeId, NodeExecution>)
    returns (r: Result<map<string, Json>, ResolveError>)
    ensures r == ResultObject(OutputsOf(executions), ids)
  {
    ghost var outputs := OutputsOf(executions);
    var result: map<string, Json> := map[];
    for i := 0 to |ids|
      invariant ResultObject(outputs, ids[..i]) == Ok(result)
    {
      assert ids[..i + 1][..i] == ids[..i];
      MissingPropagates(outputs, ids, i + 1);
      if ids[i] !in executions {
        return Err(NodeNotFound(ids[i]));
      }
      result := result[ids[i] := OutputJson(executions[ids[i]].output)];
    }
    assert ids[..|ids|] == ids;
    return Ok(result);
  }

  method ExtractFinalOutput(definition: Definition, context: ExecutionContext) returns (r: Result<Json, ResolveError>)
    requires ValidRecord(definition)
    ensures r == FinalOutput(definition, OutputsOf(context.nodeExecutions))
    ensures IsFinalOutput(definition, OutputsOf(context.nodeExecutions), r)
  {
    FinalOutputIs(definition, OutputsOf(context.nodeExecutions));
    var ids, executions := ResultNodeIds(definition), context.nodeExecutions;
    var results := CollectResults(ids, executions);
    if results.Err? {
      return Err(results.error);
    }
    if |ids| == 1 {
      if RESULT_NODE_ID !in executions {
        return Err(NodeNotFound(RESULT_NODE_ID));
      }
      return Ok(OutputJson(executions[RESULT_NODE_ID].output));
    }
    return Ok(JObject(results.value));
  }

  lemma {:induction false} MissingPropagates(outputs: Outputs, ids: seq<NodeId>, k: nat)
    requires k <= |ids|
    ensures ResultObject(outputs, ids[..k]).Err? ==> ResultObject(outputs, ids) == ResultObject(outputs, ids[..k])
    decreases |ids| - k
  {
    if k == |ids| {
      assert ids[..k] == ids;
    } else {
      assert ids[..k + 1][..k] == ids[..k];
      MissingPropagates(outputs, ids, k + 1);
    }
  }
}
