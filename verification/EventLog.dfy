/**
 The numbered event log of one triggered workflow: a counter and a sorted set in Redis, written by
 concurrent calls whose two round trips interleave and may fail, with or without having taken effect.
 */
module EventLog {
  import opened Wrappers
  import opened Strings

  type Payload = Json

  datatype Event = Event(payload: Payload, sequence: nat)

  /** JSON text of an event; text not written by `encode` may fail to decode. */
  datatype Codec = Codec(encode: Event -> string, decode: string -> Option<Event>)

  ghost predicate Faithful(codec: Codec) {
    forall e: Event :: codec.decode(codec.encode(e)) == Some(e)
  }

  /** A sorted set: each member has one score. */
  type SortedSet = map<string, nat>

  /** `ZADD`; an existing member would only change its score. */
  function ZAdd(z: SortedSet, member: string, score: nat): SortedSet {
    z[member := score]
  }

  /** What `ZRANGEBYSCORE min +inf` may answer. */
  ghost predicate Range(z: SortedSet, min: nat, members: seq<string>) {
    && NoDup(members)
    && (forall m :: m in members <==> m in z && z[m] >= min)
    && (forall i, j :: 0 <= i < j < |members| ==> z[members[i]] <= z[members[j]])
  }

  // ---------------------------------------------------------------- concurrent calls

  type CallId = nat

  datatype Call =
    | Started(payload: Payload)
    | Numbered(event: Event)
    | Stored(event: Event)
    | Failed(attempted: Option<Event>)

  /** `numbers` is history: the call that received number `i + 1`. */
  datatype Log = Log(codec: Codec, counter: nat, events: SortedSet, calls: map<CallId, Call>, numbers: seq<CallId>)

  datatype Step =
    | Begin(call: CallId, payload: Payload)
    | Incr(call: CallId)
    | IncrFails(call: CallId, applied: bool)
    | Exec(call: CallId)
    | ExecFails(call: CallId, applied: bool)

  function Empty(codec: Codec): Log {
    Log(codec, 0, map[], map[], [])
  }

  predicate Enabled(l: Log, step: Step) {
    match step
    case Begin(c, _) => c !in l.calls
    case Incr(c) => c in l.calls && l.calls[c].Started?
    case IncrFails(c, _) => c in l.calls && l.calls[c].Started?
    case Exec(c) => c in l.calls && l.calls[c].Numbered?
    case ExecFails(c, _) => c in l.calls && l.calls[c].Numbered?
  }

  function Next(l: Log, step: Step): Log
    requires Enabled(l, step)
  {
    match step
    case Begin(c, payload) => l.(calls := l.calls[c := Started(payload)])
    case Incr(c) =>
      var sequence := l.counter + 1;
      l.(counter := sequence, numbers := l.numbers + [c],
         calls := l.calls[c := Numbered(Event(l.calls[c].payload, sequence))])
    case IncrFails(c, applied) =>
      l.(counter := if applied then l.counter + 1 else l.counter,
         numbers := if applied then l.numbers + [c] else l.numbers,
         calls := l.calls[c := Failed(None)])
    case Exec(c) =>
      var e := l.calls[c].event;
      l.(events := ZAdd(l.events, l.codec.encode(e), e.sequence), calls := l.calls[c := Stored(e)])
    case ExecFails(c, applied) =>
      var e := l.calls[c].event;
      l.(events := if applied then ZAdd(l.events, l.codec.encode(e), e.sequence) else l.events,
         calls := l.calls[c := Failed(Some(e))])
  }

  /** The event a call has numbered, whether or not it reached the store. */
  function EventOf(c: Call): Option<Event> {
    match c
    case Started(_) => None
    case Numbered(e) => Some(e)
    case Stored(e) => Some(e)
    case Failed(e) => e
  }

  ghost predicate Holds(numbers: seq<CallId>, calls: map<CallId, Call>, c: CallId)
    requires c in calls
  {
    var e := EventOf(calls[c]);
    e.Some? ==> 1 <= e.value.sequence <= |numbers| && numbers[e.value.sequence - 1] == c
  }

  /** Each number went to one call, and a call holds the number it was given. */
  ghost predicate NumbersOk(numbers: seq<CallId>, calls: map<CallId, Call>) {
    && NoDup(numbers)
    && (forall c :: c in numbers ==> c in calls && !calls[c].Started?)
    && (forall c :: c in calls ==> Holds(numbers, calls, c))
  }

  /** A stored member is the event of the call that was given its number. */
  ghost predicate MemberOk(l: Log, m: string)
    requires m in l.events
  {
    var e := l.codec.decode(m);
    && e.Some? && l.codec.encode(e.value) == m && l.events[m] == e.value.sequence
    && 1 <= e.value.sequence <= |l.numbers|
    && var c := l.numbers[e.value.sequence - 1];
       c in l.calls && !l.calls[c].Numbered? && EventOf(l.calls[c]) == e
  }

  ghost predicate IsStored(l: Log, e: Event) {
    l.codec.encode(e) in l.events
  }

  ghost predicate MembersOk(l: Log) {
    forall m :: m in l.events ==> MemberOk(l, m)
  }

  ghost predicate StoredOk(l: Log) {
    forall c :: c in l.calls && l.calls[c].Stored? ==> IsStored(l, l.calls[c].event)
  }

  ghost predicate Inv(l: Log) {
    && Faithful(l.codec)
    && |l.numbers| == l.counter
    && NumbersOk(l.numbers, l.calls)
    && MembersOk(l)
    && StoredOk(l)
  }

  lemma NumbersKept(l: Log, step: Step)
    requires NumbersOk(l.numbers, l.calls) && Enabled(l, step) && |l.numbers| == l.counter
    ensures NumbersOk(Next(l, step).numbers, Next(l, step).calls) && |Next(l, step).numbers| == Next(l, step).counter
  {
    var l' := Next(l, step);
    forall c | c in l'.calls ensures Holds(l'.numbers, l'.calls, c) {
      assert c in l.calls ==> Holds(l.numbers, l.calls, c);
    }
    if l'.numbers != l.numbers { NoDupSnoc(l.numbers, step.call); }
  }

  lemma MemberHolder(l: Log, m: string) returns (e: Event, c: CallId)
    requires m in l.events && MemberOk(l, m)
    ensures m == l.codec.encode(e) && l.events[m] == e.sequence && 1 <= e.sequence <= |l.numbers|
    ensures c == l.numbers[e.sequence - 1] && c in l.calls && EventOf(l.calls[c]) == Some(e) && !l.calls[c].Numbered?
  {
    e := l.codec.decode(m).value;
    c := l.numbers[e.sequence - 1];
  }

  /** The number of a call that is still to write is not in the store. */
  lemma NotYetStored(l: Log, c: CallId)
    requires Inv(l) && c in l.calls && l.calls[c].Numbered?
    ensures forall m :: m in l.events ==> l.events[m] != l.calls[c].event.sequence && m != l.codec.encode(l.calls[c].event)
  {
    var mine := l.calls[c].event;
    assert Holds(l.numbers, l.calls, c);
    forall m | m in l.events ensures l.events[m] != mine.sequence && m != l.codec.encode(mine) {
      assert MemberOk(l, m);
      var e, d := MemberHolder(l, m);
      assert l.codec.decode(l.codec.encode(mine)) == Some(mine);
    }
  }

  /** A call that has returned stays as it is, and so do the numbers given out. */
  lemma ReturnedStays(l: Log, step: Step, c: CallId)
    requires Enabled(l, step) && c in l.calls && (l.calls[c].Stored? || l.calls[c].Failed?)
    ensures c in Next(l, step).calls && Next(l, step).calls[c] == l.calls[c]
    ensures l.numbers <= Next(l, step).numbers
  {}

  lemma OldMemberKept(l: Log, step: Step, m: string)
    requires Inv(l) && Enabled(l, step) && m in l.events && m in Next(l, step).events && Next(l, step).events[m] == l.events[m]
    ensures MemberOk(Next(l, step), m)
  {
    assert MemberOk(l, m);
    var e, c := MemberHolder(l, m);
    ReturnedStays(l, step, c);
  }

  lemma NewMemberOk(l: Log, step: Step)
    requires Inv(l) && Enabled(l, step) && (step.Exec? || (step.ExecFails? && step.applied))
    ensures var m := l.codec.encode(l.calls[step.call].event);
            && Next(l, step).events == l.events[m := l.calls[step.call].event.sequence]
            && MemberOk(Next(l, step), m)
  {
    assert Holds(l.numbers, l.calls, step.call);
  }

  lemma MembersKept(l: Log, step: Step, m: string)
    requires Inv(l) && Enabled(l, step) && m in Next(l, step).events
    ensures MemberOk(Next(l, step), m)
  {
    if step.Exec? || (step.ExecFails? && step.applied) {
      NewMemberOk(l, step);
      NotYetStored(l, step.call);
    }
    if m in l.events { OldMemberKept(l, step, m); }
  }

  lemma InvKept(l: Log, step: Step)
    requires Inv(l) && Enabled(l, step)
    ensures Inv(Next(l, step))
  {
    NumbersKept(l, step);
    forall m | m in Next(l, step).events ensures MemberOk(Next(l, step), m) { MembersKept(l, step, m); }
  }

  function Run(codec: Codec, steps: seq<Step>): Option<Log> {
    if steps == [] then Some(Empty(codec))
    else
      var before, step := Run(codec, steps[..|steps| - 1]), steps[|steps| - 1];
      if before.Some? && Enabled(before.value, step) then Some(Next(before.value, step)) else None
  }

  lemma {:induction false} EveryRunKeepsInv(codec: Codec, steps: seq<Step>)
    requires Faithful(codec) && Run(codec, steps).Some?
    ensures Inv(Run(codec, steps).value)
  {
    if steps != [] {
      EveryRunKeepsInv(codec, steps[..|steps| - 1]);
      InvKept(Run(codec, steps[..|steps| - 1]).value, steps[|steps| - 1]);
    }
  }

  /** No stored event is ever changed or dropped, and no two share a number. */
  lemma NeverOverwrites(codec: Codec, steps: seq<Step>, step: Step)
    requires Faithful(codec) && Run(codec, steps).Some? && Enabled(Run(codec, steps).value, step)
    ensures var l, l' := Run(codec, steps).value, Next(Run(codec, steps).value, step);
            && (forall m :: m in l.events ==> m in l'.events && l'.events[m] == l.events[m])
            && (step.Exec? ==> l'.events.Keys == l.events.Keys + {codec.encode(l.calls[step.call].event)})
            && (step.Exec? ==> codec.encode(l.calls[step.call].event) !in l.events)
            && forall m, m' :: m in l'.events && m' in l'.events && l'.events[m] == l'.events[m'] ==> m == m'
  {
    EveryRunKeepsInv(codec, steps);
    var l := Run(codec, steps).value;
    var l' := Next(l, step);
    CodecStays(codec, steps);
    if step.Exec? || step.ExecFails? { NotYetStored(l, step.call); }
    InvKept(l, step);
    NumbersAreUnique(l');
  }

  lemma {:induction false} CodecStays(codec: Codec, steps: seq<Step>)
    requires Run(codec, steps).Some?
    ensures Run(codec, steps).value.codec == codec
  {
    if steps != [] { CodecStays(codec, steps[..|steps| - 1]); }
  }

  lemma NumbersAreUnique(l: Log)
    requires MembersOk(l)
    ensures forall m, m' :: m in l.events && m' in l.events && l.events[m] == l.events[m'] ==> m == m'
  {
    forall m, m' | m in l.events && m' in l.events && l.events[m] == l.events[m'] ensures m == m' {
      assert MemberOk(l, m) && MemberOk(l, m');
      var e, c := MemberHolder(l, m);
      var e', c' := MemberHolder(l, m');
    }
  }

  // ---------------------------------------------------------------- replay

  /** Decoding member by member, as the read does. */
  function DecodeAll(codec: Codec, members: seq<string>): Option<seq<Event>> {
    if members == [] then Some([])
    else
      var before, last := DecodeAll(codec, members[..|members| - 1]), codec.decode(members[|members| - 1]);
      if before.Some? && last.Some? then Some(before.value + [last.value]) else None
  }

  lemma {:induction false} DecodedEach(codec: Codec, members: seq<string>)
    requires forall m :: m in members ==> codec.decode(m).Some?
    ensures DecodeAll(codec, members).Some? && |DecodeAll(codec, members).value| == |members|
    ensures forall i :: 0 <= i < |members| ==> DecodeAll(codec, members).value[i] == codec.decode(members[i]).value
  {
    if members != [] {
      assert members == members[..|members| - 1] + [members[|members| - 1]];
      DecodedEach(codec, members[..|members| - 1]);
    }
  }

  /** Exactly the stored events from number `min` on, in ascending order of number. */
  ghost predicate Replay(l: Log, min: nat, events: seq<Event>) {
    && (forall e :: e in events <==> IsStored(l, e) && e.sequence >= min)
    && (forall i, j :: 0 <= i < j < |events| ==> events[i].sequence < events[j].sequence)
  }

  lemma MembersDecode(l: Log, min: nat, members: seq<string>)
    requires Inv(l) && Range(l.events, min, members)
    ensures forall m :: m in members ==> MemberOk(l, m) && l.codec.decode(m).value.sequence >= min
  {
    forall m | m in members ensures MemberOk(l, m) && l.codec.decode(m).value.sequence >= min {
      assert MemberOk(l, m);
    }
  }

  lemma RangeAscends(l: Log, min: nat, members: seq<string>, i: nat, j: nat)
    requires Inv(l) && Range(l.events, min, members) && i < j < |members|
    ensures l.events[members[i]] < l.events[members[j]]
  {
    NumbersAreUnique(l);
    assert members[i] in members && members[j] in members && members[i] != members[j];
  }

  lemma RangeIsReplay(l: Log, min: nat, members: seq<string>)
    requires Inv(l) && Range(l.events, min, members)
    ensures DecodeAll(l.codec, members).Some? && Replay(l, min, DecodeAll(l.codec, members).value)
  {
    MembersDecode(l, min, members);
    DecodedEach(l.codec, members);
    var events := DecodeAll(l.codec, members).value;
    forall e | e in events ensures IsStored(l, e) && e.sequence >= min {
      var i :| 0 <= i < |events| && events[i] == e;
      assert members[i] in members;
    }
    forall e | IsStored(l, e) && e.sequence >= min ensures e in events {
      assert MemberOk(l, l.codec.encode(e));
      var i :| 0 <= i < |members| && members[i] == l.codec.encode(e);
      assert events[i] == e;
    }
    forall i, j | 0 <= i < j < |events| ensures events[i].sequence < events[j].sequence {
      assert members[i] in members && members[j] in members;
      RangeAscends(l, min, members, i, j);
    }
  }

  /** Whatever Redis answers to the range query, the replay is the same. */
  lemma ReplayIsUnique(l: Log, min: nat, a: seq<Event>, b: seq<Event>)
    requires Replay(l, min, a) && Replay(l, min, b)
    ensures a == b
  {
    assert forall e :: e in a <==> IsStored(l, e) && e.sequence >= min;
    AscendingEqual(a, b);
  }

  ghost predicate Ascending(a: seq<Event>) {
    forall i, j :: 0 <= i < j < |a| ==> a[i].sequence < a[j].sequence
  }

  ghost predicate SameMembers(a: seq<Event>, b: seq<Event>) {
    forall e :: e in a <==> e in b
  }

  lemma {:induction false} AscendingEqual(a: seq<Event>, b: seq<Event>)
    requires Ascending(a) && Ascending(b) && SameMembers(a, b)
    ensures a == b
    decreases |a|
  {
    HasMember(a);
    HasMember(b);
    if a != [] && b != [] {
      LastIsGreatest(a, b);
      var x := a[|a| - 1];
      DropLast(a, x);
      DropLast(b, x);
      SameWithout(a, b, a[..|a| - 1], b[..|b| - 1], x);
      AscendingEqual(a[..|a| - 1], b[..|b| - 1]);
      assert a == a[..|a| - 1] + [x] && b == b[..|b| - 1] + [x];
    }
  }

  lemma SameWithout(a: seq<Event>, b: seq<Event>, a': seq<Event>, b': seq<Event>, x: Event)
    requires SameMembers(a, b)
    requires (forall e :: e in a' <==> e in a && e != x) && forall e :: e in b' <==> e in b && e != x
    ensures SameMembers(a', b')
  {}

  lemma LastIsGreatest(a: seq<Event>, b: seq<Event>)
    requires Ascending(a) && Ascending(b) && a != [] && b != [] && SameMembers(a, b)
    ensures a[|a| - 1] == b[|b| - 1]
  {
    assert a[|a| - 1] in b && b[|b| - 1] in a;
    var i :| 0 <= i < |b| && b[i] == a[|a| - 1];
    var j :| 0 <= j < |a| && a[j] == b[|b| - 1];
    assert forall k :: 0 <= k < |b| - 1 ==> b[k].sequence < b[|b| - 1].sequence;
    assert forall k :: 0 <= k < |a| - 1 ==> a[k].sequence < a[|a| - 1].sequence;
  }

  lemma DropLast(a: seq<Event>, x: Event)
    requires Ascending(a) && a != [] && x == a[|a| - 1]
    ensures Ascending(a[..|a| - 1]) && forall e :: e in a[..|a| - 1] <==> e in a && e != x
  {
    forall e | e in a && e != x ensures e in a[..|a| - 1] {
      var i :| 0 <= i < |a| && a[i] == e;
      assert a[..|a| - 1][i] == e;
    }
    forall e | e in a[..|a| - 1] ensures e in a && e != x {
      var i :| 0 <= i < |a| - 1 && a[..|a| - 1][i] == e;
      assert a[i].sequence < a[|a| - 1].sequence;
    }
  }

  /** After any interleaving a replay returns exactly the events stored from `min` on, in order. */
  lemma EveryReplayIsExact(codec: Codec, steps: seq<Step>, min: nat, members: seq<string>)
    requires Faithful(codec) && Run(codec, steps).Some? && Range(Run(codec, steps).value.events, min, members)
    ensures DecodeAll(codec, members).Some?
    ensures Replay(Run(codec, steps).value, min, DecodeAll(codec, members).value)
  {
    EveryRunKeepsInv(codec, steps);
    CodecStays(codec, steps);
    RangeIsReplay(Run(codec, steps).value, min, members);
  }

  ghost predicate HasNumber(events: seq<Event>, s: nat) {
    exists e :: e in events && e.sequence == s
  }

  ghost predicate AllStored(l: Log) {
    forall c :: c in l.calls ==> l.calls[c].Stored?
  }

  /** When every call has returned successfully the log has the numbers 1, 2, …, n without a gap. */
  lemma Gapless(codec: Codec, steps: seq<Step>, events: seq<Event>)
    requires Faithful(codec) && Run(codec, steps).Some?
    requires AllStored(Run(codec, steps).value) && Replay(Run(codec, steps).value, 0, events)
    ensures |events| == Run(codec, steps).value.counter
    ensures forall i :: 0 <= i < |events| ==> events[i].sequence == i + 1
    ensures |Run(codec, steps).value.calls| == |events|
  {
    EveryRunKeepsInv(codec, steps);
    var l := Run(codec, steps).value;
    forall s: nat | 1 <= s <= l.counter ensures HasNumber(events, s) { NumberIsStored(l, s, events); }
    forall e | e in events ensures 1 <= e.sequence <= l.counter { assert MemberOk(l, l.codec.encode(e)); }
    AscendingFills(events, l.counter);
    CallsAreNumbers(l.numbers, l.calls);
  }

  lemma NumberIsStored(l: Log, s: nat, events: seq<Event>)
    requires Inv(l) && AllStored(l) && Replay(l, 0, events) && 1 <= s <= l.counter
    ensures HasNumber(events, s)
  {
    var c := l.numbers[s - 1];
    assert c in l.numbers && Holds(l.numbers, l.calls, c);
    var e := l.calls[c].event;
    assert l.numbers[e.sequence - 1] == c && IsStored(l, e);
  }

  ghost predicate Bounded(a: seq<Event>, n: nat) {
    forall e :: e in a ==> 1 <= e.sequence <= n
  }

  ghost predicate Full(a: seq<Event>, n: nat) {
    forall s: nat :: 1 <= s <= n ==> HasNumber(a, s)
  }

  lemma LastIsBound(a: seq<Event>, n: nat)
    requires Ascending(a) && Bounded(a, n) && Full(a, n) && n > 0
    ensures a != [] && a[|a| - 1].sequence == n
  {
    assert HasNumber(a, n);
    var e :| e in a && e.sequence == n;
    var i :| 0 <= i < |a| && a[i] == e;
    assert a[|a| - 1] in a && forall k :: 0 <= k < |a| - 1 ==> a[k].sequence < a[|a| - 1].sequence;
  }

  lemma FrontIsFull(a: seq<Event>, n: nat)
    requires Ascending(a) && Bounded(a, n) && Full(a, n) && n > 0 && a != [] && a[|a| - 1].sequence == n
    ensures Bounded(a[..|a| - 1], n - 1) && Full(a[..|a| - 1], n - 1)
  {
    var front := a[..|a| - 1];
    DropLast(a, a[|a| - 1]);
    forall f | f in front ensures 1 <= f.sequence <= n - 1 {
      var j :| 0 <= j < |front| && front[j] == f;
      assert a[j].sequence < a[|a| - 1].sequence && a[j] in a;
    }
    forall s: nat | 1 <= s <= n - 1 ensures HasNumber(front, s) {
      assert HasNumber(a, s);
      var f :| f in a && f.sequence == s;
      assert f in front;
    }
  }

  /** Ascending numbers that take every value from 1 to `n` and no other are 1, 2, …, n. */
  lemma {:induction false} AscendingFills(a: seq<Event>, n: nat)
    requires Ascending(a) && Bounded(a, n) && Full(a, n)
    ensures |a| == n && forall i :: 0 <= i < n ==> a[i].sequence == i + 1
  {
    HasMember(a);
    if n > 0 {
      LastIsBound(a, n);
      FrontIsFull(a, n);
      AscendingFills(a[..|a| - 1], n - 1);
    }
  }

  lemma CallsAreNumbers(numbers: seq<CallId>, calls: map<CallId, Call>)
    requires NumbersOk(numbers, calls) && forall c :: c in calls ==> calls[c].Stored?
    ensures |calls| == |numbers|
  {
    var given := set c | c in numbers;
    forall c | c in calls ensures c in given { assert Holds(numbers, calls, c); }
    assert given == calls.Keys;
    DistinctSize(numbers, given);
  }

  lemma {:induction false} DistinctSize<T(!new)>(s: seq<T>, elements: set<T>)
    requires NoDup(s) && elements == set x | x in s
    ensures |elements| == |s|
  {
    if s != [] {
      var front, last := s[..|s| - 1], s[|s| - 1];
      assert s == front + [last];
      assert last !in front;
      DistinctSize(front, elements - {last});
    }
  }

  // ---------------------------------------------------------------- the store, one call at a time

  function SequenceKey(workflowId: string, triggerId: string): string {
    "workflow" + ":" + workflowId + ":" + triggerId + ":" + "sequence"
  }

  function EventsKey(workflowId: string, triggerId: string): string {
    "workflow" + ":" + workflowId + ":" + triggerId + ":" + "events"
  }

  lemma KeyParts(prefix: string, workflowId: string, triggerId: string, suffix: string)
    requires ':' !in prefix && ':' !in workflowId && ':' !in triggerId && ':' !in suffix
    ensures Split(prefix + ":" + workflowId + ":" + triggerId + ":" + suffix, ":") == [prefix, workflowId, triggerId, suffix]
  {
    var tail := triggerId + ":" + suffix;
    var rest := workflowId + ":" + tail;
    KeyRegrouped(prefix, workflowId, triggerId, suffix);
    SplitCons(prefix, ":", rest);
    SplitCons(workflowId, ":", tail);
    SplitPair(triggerId, ":", suffix);
  }

  lemma KeyRegrouped(a: string, b: string, c: string, d: string)
    ensures a + ":" + b + ":" + c + ":" + d == a + ":" + (b + ":" + (c + ":" + d))
  {}

  lemma EventsKeyParts(workflowId: string, triggerId: string)
    requires ':' !in workflowId && ':' !in triggerId
    ensures Split(EventsKey(workflowId, triggerId), ":") == ["workflow", workflowId, triggerId, "events"]
  {
    KeyParts("workflow", workflowId, triggerId, "events");
  }

  lemma SequenceKeyParts(workflowId: string, triggerId: string)
    requires ':' !in workflowId && ':' !in triggerId
    ensures Split(SequenceKey(workflowId, triggerId), ":") == ["workflow", workflowId, triggerId, "sequence"]
  {
    KeyParts("workflow", workflowId, triggerId, "sequence");
  }

  lemma SameParts(w: string, t: string, x: string, w': string, t': string, x': string)
    requires ["workflow", w, t, x] == ["workflow", w', t', x']
    ensures w == w' && t == t' && x == x'
  {
    assert ["workflow", w, t, x][1] == w && ["workflow", w, t, x][2] == t && ["workflow", w, t, x][3] == x;
  }

  /** Two triggers share neither a counter nor a log, and no counter is a log. */
  lemma LogsAreSeparate(w: string, t: string, w': string, t': string)
    requires ':' !in w && ':' !in t && ':' !in w' && ':' !in t'
    ensures EventsKey(w, t) == EventsKey(w', t') <==> w == w' && t == t'
    ensures SequenceKey(w, t) == SequenceKey(w', t') <==> w == w' && t == t'
    ensures SequenceKey(w, t) != EventsKey(w', t')
  {
    EventsKeyParts(w, t);
    EventsKeyParts(w', t');
    SequenceKeyParts(w, t);
    SequenceKeyParts(w', t');
    if EventsKey(w, t) == EventsKey(w', t') { SameParts(w, t, "events", w', t', "events"); }
    if SequenceKey(w, t) == SequenceKey(w', t') { SameParts(w, t, "sequence", w', t', "sequence"); }
    assert "sequence"[0] != "events"[0];
    assert ["workflow", w, t, "sequence"][3] == "sequence" && ["workflow", w', t', "events"][3] == "events";
  }

  class WorkflowEventMessage {
    const workflowId: string
    const triggerId: string
    const payload: Payload
    var sequence: nat

    constructor (workflowId: string, triggerId: string, payload: Payload)
      ensures this.workflowId == workflowId && this.triggerId == triggerId && this.payload == payload && sequence == 0
    {
      this.workflowId, this.triggerId, this.payload, sequence := workflowId, triggerId, payload, 0;
    }
  }

  /** What a Redis call came to: done, or an error after which it may or may not have taken effect. */
  datatype Reply = Done | Lost(applied: bool)
  {
    predicate Applied() {
      Done? || applied
    }
  }

  /** The three steps of one call made on its own. */
  function AfterCall(l: Log, c: CallId, payload: Payload, incr: Reply, exec: Reply): Log
    requires c !in l.calls
  {
    var begun := Next(l, Begin(c, payload));
    if incr.Lost? then Next(begun, IncrFails(c, incr.applied))
    else
      var numbered := Next(begun, Incr(c));
      if exec.Lost? then Next(numbered, ExecFails(c, exec.applied)) else Next(numbered, Exec(c))
  }

  /** A call of `StoreEvent` without interference changes the store as those steps do. */
  lemma CallIsItsSteps(l: Log, c: CallId, payload: Payload, incr: Reply, exec: Reply)
    requires c !in l.calls
    ensures var l', event := AfterCall(l, c, payload, incr, exec), Event(payload, l.counter + 1);
            && l'.counter == (if incr.Applied() then l.counter + 1 else l.counter)
            && l'.events == (if incr.Done? && exec.Applied() then ZAdd(l.events, l.codec.encode(event), l.counter + 1)
                             else l.events)
            && (l'.calls[c].Stored? <==> incr.Done? && exec.Done?)
  {}

  datatype StoreError = SequenceFailed | InvalidSequence(n: int) | StoreFailed

  datatype ReadError = RangeFailed | Undecodable

  /** `Nil` is the error Redis reports for a missing key. */
  datatype RangeReply = Members(members: seq<string>) | Nil | Broken

  class RedisEventStore {
    const codec: Codec
    var counters: map<string, int>
    var sets: map<string, SortedSet>

    constructor (codec: Codec)
      ensures this.codec == codec && counters == map[] && sets == map[]
    {
      this.codec, counters, sets := codec, map[], map[];
    }

    function Counter(key: string): int
      reads this
    {
      if key in counters then counters[key] else 0
    }

    function Events(key: string): SortedSet
      reads this
    {
      if key in sets then sets[key] else map[]
    }

    /** The log of a run as the concurrent model has it. */
    ghost predicate Holds(l: Log, workflowId: string, triggerId: string)
      reads this
    {
      && l.codec == codec && l.counter == Counter(SequenceKey(workflowId, triggerId))
      && l.events == Events(EventsKey(workflowId, triggerId))
    }

    /**
     The number is taken, and written into the message, even when storing then fails. The log of the run moves
     by the steps of one call.
     */
    method StoreEvent(message: WorkflowEventMessage, incr: Reply, exec: Reply) returns (r: Result<string, StoreError>)
      modifies this, message
      ensures var seqKey := SequenceKey(message.workflowId, message.triggerId);
              var eventKey := EventsKey(message.workflowId, message.triggerId);
              var number, event := old(Counter(seqKey)) + 1, Event(message.payload, message.sequence);
              && counters == (if incr.Applied() then old(counters)[seqKey := number] else old(counters))
              && message.sequence == (if incr.Done? && number > 0 then number else old(message.sequence))
              && sets == (if incr.Done? && number > 0 && exec.Applied()
                          then old(sets)[eventKey := ZAdd(old(Events(eventKey)), codec.encode(event), message.sequence)]
                          else old(sets))
              && r == (if incr.Lost? then Err(SequenceFailed) else if number <= 0 then Err(InvalidSequence(number))
                       else if exec.Lost? then Err(StoreFailed) else Ok(codec.encode(event)))
      ensures forall l, c :: old(Holds(l, message.workflowId, message.triggerId)) && c !in l.calls ==>
                Holds(AfterCall(l, c, message.payload, incr, exec), message.workflowId, message.triggerId)
    {
      var seqKey := SequenceKey(message.workflowId, message.triggerId);
      var eventKey := EventsKey(message.workflowId, message.triggerId);
      var sequence := Counter(seqKey) + 1;
      if incr.Applied() {
        counters := counters[seqKey := sequence];
      }
      if incr.Lost? {
        return Err(SequenceFailed);
      }
      if sequence <= 0 {
        return Err(InvalidSequence(sequence));
      }
      message.sequence := sequence;
      var eventJson := codec.encode(Event(message.payload, message.sequence));
      if exec.Applied() {
        sets := sets[eventKey := ZAdd(Events(eventKey), eventJson, sequence)];
      }
      if exec.Lost? {
        return Err(StoreFailed);
      }
      return Ok(eventJson);
    }

    method ReadWorkflowEvents(workflowId: string, triggerId: string, sequence: nat, reply: RangeReply)
      returns (r: Result<seq<Event>, ReadError>)
      requires reply.Members? ==> Range(Events(EventsKey(workflowId, triggerId)), sequence, reply.members)
      ensures match reply
              case Broken => r == Err(RangeFailed)
              case Nil => r == Ok([])
              case Members(members) =>
                r == if DecodeAll(codec, members).Some? then Ok(DecodeAll(codec, members).value) else Err(Undecodable)
    {
      if reply.Nil? {
        return Ok([]);
      }
      if reply.Broken? {
        return Err(RangeFailed);
      }
      var result: seq<Event> := [];
      for i := 0 to |reply.members|
        invariant DecodeAll(codec, reply.members[..i]) == Some(result)
      {
        assert reply.members[..i + 1][..i] == reply.members[..i];
        UndecodablePropagates(codec, reply.members, i + 1);
        var event := codec.decode(reply.members[i]);
        if event.None? {
          return Err(Undecodable);
        }
        result := result + [event.value];
      }
      assert reply.members[..|reply.members|] == reply.members;
      return Ok(result);
    }
  }

  lemma {:induction false} UndecodablePropagates(codec: Codec, members: seq<string>, k: nat)
    requires k <= |members|
    ensures DecodeAll(codec, members[..k]).None? ==> DecodeAll(codec, members).None?
    decreases |members| - k
  {
    if k == |members| {
      assert members[..k] == members;
    } else {
      assert members[..k + 1][..k] == members[..k];
      UndecodablePropagates(codec, members, k + 1);
    }
  }
}
