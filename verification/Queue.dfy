/**
 The consumer group of runners on one Redis stream, as steps of its consumers and of Redis. An entry is known by
 its position in the stream. Which consumers count as idle is left open, so a live one may be cleaned up too.
 */
module Queue {
  import opened Wrappers

  type Id = nat
  type Name = string

  datatype StreamEntry = StreamEntry(fields: seq<string>)

  /** `parse` is JSON decoding; `max` is the number of parallel jobs a consumer allows itself. */
  datatype Env = Env(parse: string -> Option<Json>, max: int)

  // ---------------------------------------------------------------- one message

  /** The first field that follows one reading "payload". */
  function FindPayload(fields: seq<string>): Option<string> {
    if |fields| < 2 then None
    else if fields[0] == "payload" then Some(fields[1])
    else FindPayload(fields[1..])
  }

  /** The JSON values that JavaScript takes for false. */
  predicate Falsy(value: Json) {
    value == JNull || value == JBool(false) || value == JNumber(0.0) || value == JString("")
  }

  /**
   A payload that is missing, empty or decodes to a falsy value is no message: it is acknowledged twice.
   One that does not parse is logged and acknowledged.
   */
  datatype Extracted = NoMessage | Unparsable | Message(message: Json)

  function ExtractMessage(env: Env, fields: seq<string>): Extracted {
    match FindPayload(fields)
    case None => NoMessage
    case Some(payload) =>
      if payload == "" then NoMessage
      else
        match env.parse(payload)
        case None => Unparsable
        case Some(message) => if Falsy(message) then NoMessage else Message(message)
  }

  /** Field `i` is the first one that follows a field reading "payload". */
  ghost predicate PayloadAt(fields: seq<string>, i: int) {
    1 <= i < |fields| && fields[i - 1] == "payload" && forall j :: 0 <= j < i - 1 ==> fields[j] != "payload"
  }

  /** The entry carries the message `value`. */
  ghost predicate Carries(env: Env, fields: seq<string>, value: Json) {
    exists i ::
      && PayloadAt(fields, i) && fields[i] != "" && env.parse(fields[i]) == Some(value)
      && value != JNull && value != JBool(false) && value != JNumber(0.0) && value != JString("")
  }

  ghost predicate HasMessage(env: Env, fields: seq<string>) {
    exists value :: Carries(env, fields, value)
  }

  /** The payload of the entry does not parse. */
  ghost predicate Garbled(env: Env, fields: seq<string>) {
    exists i :: PayloadAt(fields, i) && fields[i] != "" && env.parse(fields[i]) == None
  }

  lemma {:induction false} PayloadIs(fields: seq<string>)
    ensures match FindPayload(fields)
            case Some(payload) => exists i :: PayloadAt(fields, i) && fields[i] == payload
            case None => forall i :: !PayloadAt(fields, i)
  {
    if |fields| >= 2 {
      if fields[0] == "payload" {
        assert PayloadAt(fields, 1);
      } else {
        PayloadIs(fields[1..]);
        assert forall i :: PayloadAt(fields, i) ==> i > 1 && PayloadAt(fields[1..], i - 1);
        if FindPayload(fields[1..]).Some? {
          var i :| PayloadAt(fields[1..], i) && fields[1..][i] == FindPayload(fields).value;
          assert PayloadAt(fields, i + 1);
        }
      }
    }
  }

  lemma OnePayload(fields: seq<string>, i: int, j: int)
    requires PayloadAt(fields, i) && PayloadAt(fields, j)
    ensures i == j
  {}

  /** What is extracted is the message the entry carries; it fails to parse exactly when the entry is garbled. */
  lemma ExtractedIs(env: Env, fields: seq<string>)
    ensures forall value :: ExtractMessage(env, fields) == Message(value) <==> Carries(env, fields, value)
    ensures ExtractMessage(env, fields) == Unparsable <==> Garbled(env, fields)
  {
    PayloadIs(fields);
    if FindPayload(fields).Some? {
      var i :| PayloadAt(fields, i) && fields[i] == FindPayload(fields).value;
      forall j | PayloadAt(fields, j) ensures j == i { OnePayload(fields, i, j); }
    }
  }

  // ---------------------------------------------------------------- consumers

  /** The cleanup of idle consumers a process runs before it consumes. */
  datatype Cleanup =
    | Listing
    | Sweeping(todo: seq<(Name, nat)>)
    | Claiming(name: Name, ids: seq<Id>, todo: seq<(Name, nat)>)
    | Confirming(name: Name, ids: seq<Id>, todo: seq<(Name, nat)>)
    | Removing(name: Name, todo: seq<(Name, nat)>)

  datatype Phase =
    | Cleaning(cleanup: Cleanup)
    | AtHead
    | Waiting
    | Cleared
    | Reading(count: int)
    | Replied(lo: nat, hi: nat, count: int)
    | Stopped

  datatype Job = Handling | FirstAck | LastAck | Acknowledged

  /** `received`, `handled`, `given`, `missed` and `leaked` are history; `given` is the message handed over for an entry. */
  datatype Consumer = Consumer(
    alive: bool,
    running: bool,
    phase: Phase,
    activeJobs: int,
    jobs: map<Id, Job>,
    leaked: nat,
    received: seq<Id>,
    handled: seq<Id>,
    given: map<Id, Json>,
    missed: seq<Id>)

  const STARTING := Consumer(true, true, Cleaning(Listing), 0, map[], 0, [], [], map[], [])

  /** The synchronous part of taking one message: up to its first await. */
  function Accept(env: Env, c: Consumer, id: Id, entry: StreamEntry): Consumer {
    var extracted := ExtractMessage(env, entry.fields);
    c.(activeJobs := c.activeJobs + 1,
       received := c.received + [id],
       handled := if extracted.Message? then c.handled + [id] else c.handled,
       given := if extracted.Message? then c.given[id := extracted.message] else c.given,
       jobs := c.jobs[id := match extracted
                            case Message(_) => Handling
                            case NoMessage => FirstAck
                            case Unparsable => LastAck])
  }

  /** The message the entry carries is handed over; without one it is acknowledged, twice unless it is garbled. */
  ghost predicate Takes(env: Env, id: Id, fields: seq<string>, c: Consumer, c': Consumer) {
    && (forall value :: Carries(env, fields, value) ==>
          c'.jobs == c.jobs[id := Handling] && c'.handled == c.handled + [id] && c'.given == c.given[id := value])
    && (!HasMessage(env, fields) ==>
          && c'.jobs == c.jobs[id := if Garbled(env, fields) then LastAck else FirstAck]
          && c'.handled == c.handled && c'.given == c.given)
  }

  function AcceptAll(env: Env, c: Consumer, stream: seq<StreamEntry>, lo: nat, hi: nat): Consumer
    requires lo <= hi <= |stream|
  {
    if lo == hi then c else Accept(env, AcceptAll(env, c, stream, lo, hi - 1), hi - 1, stream[hi - 1])
  }

  /** `more` lists, in ascending order, the ids from `lo` to `hi` that satisfy `p`. */
  ghost predicate Selected(p: Id -> bool, lo: nat, hi: nat, more: seq<Id>) {
    && (forall i, j :: 0 <= i < j < |more| ==> more[i] < more[j])
    && forall id: Id :: id in more <==> lo <= id < hi && p(id)
  }

  lemma SelectedNext(p: Id -> bool, lo: nat, hi: nat, more: seq<Id>)
    requires lo <= hi && Selected(p, lo, hi, more)
    ensures Selected(p, lo, hi + 1, if p(hi) then more + [hi] else more)
  {
    assert forall i :: 0 <= i < |more| ==> more[i] in more;
  }

  /** Which entries of the stream carry a message. */
  ghost function Messages(env: Env, stream: seq<StreamEntry>): Id -> bool {
    (id: Id) => id < |stream| && HasMessage(env, stream[id].fields)
  }

  /** To `before` have been added, in stream order, exactly the entries from `lo` to `hi` that carry a message. */
  ghost predicate HandsOver(env: Env, stream: seq<StreamEntry>, lo: nat, hi: nat, before: seq<Id>, after: seq<Id>) {
    Extended(Messages(env, stream), lo, hi, before, after)
  }

  ghost predicate Extended(p: Id -> bool, lo: nat, hi: nat, before: seq<Id>, after: seq<Id>) {
    exists more :: after == before + more && Selected(p, lo, hi, more)
  }

  lemma HandedOne(p: Id -> bool, lo: nat, hi: nat, before: seq<Id>, after: seq<Id>)
    requires lo <= hi && Extended(p, lo, hi, before, after)
    ensures Extended(p, lo, hi + 1, before, if p(hi) then after + [hi] else after)
  {
    var more :| after == before + more && Selected(p, lo, hi, more);
    SelectedNext(p, lo, hi, more);
    assert before + more + [hi] == before + (more + [hi]);
  }

  lemma HandsNext(env: Env, stream: seq<StreamEntry>, lo: nat, hi: nat, before: seq<Id>, after: seq<Id>)
    requires lo <= hi && HandsOver(env, stream, lo, hi, before, after)
    ensures HandsOver(env, stream, lo, hi + 1, before, if Messages(env, stream)(hi) then after + [hi] else after)
  {
    HandedOne(Messages(env, stream), lo, hi, before, after);
  }

  lemma AcceptHands(env: Env, stream: seq<StreamEntry>, lo: nat, hi: nat, before: seq<Id>, c: Consumer)
    requires lo <= hi < |stream| && HandsOver(env, stream, lo, hi, before, c.handled)
    ensures HandsOver(env, stream, lo, hi + 1, before, Accept(env, c, hi, stream[hi]).handled)
    ensures Accept(env, c, hi, stream[hi]).activeJobs == c.activeJobs + 1
  {
    HandsNext(env, stream, lo, hi, before, c.handled);
    ExtractedIs(env, stream[hi].fields);
    var extracted := ExtractMessage(env, stream[hi].fields);
    if extracted.Message? { assert Carries(env, stream[hi].fields, extracted.message); }
    assert Messages(env, stream)(hi) <==> extracted.Message?;
  }

  lemma NothingHanded(env: Env, stream: seq<StreamEntry>, lo: nat, before: seq<Id>)
    ensures HandsOver(env, stream, lo, lo, before, before)
  {
    assert Selected(Messages(env, stream), lo, lo, []) && before == before + [];
  }

  /** A batch hands over exactly the entries with a message, in order. */
  lemma {:induction false} HandedInOrder(env: Env, c: Consumer, stream: seq<StreamEntry>, lo: nat, hi: nat)
    requires lo <= hi <= |stream|
    ensures HandsOver(env, stream, lo, hi, c.handled, AcceptAll(env, c, stream, lo, hi).handled)
    ensures AcceptAll(env, c, stream, lo, hi).activeJobs == c.activeJobs + (hi - lo)
    decreases hi
  {
    if lo == hi {
      NothingHanded(env, stream, lo, c.handled);
    } else {
      HandedInOrder(env, c, stream, lo, hi - 1);
      AcceptHands(env, stream, lo, hi - 1, c.handled, AcceptAll(env, c, stream, lo, hi - 1));
    }
  }

  /** Redis: `cursor` is the first entry not delivered yet; acknowledged and forgotten entries are history. */
  datatype Group = Group(cursor: nat, pending: map<Name, set<Id>>, acked: set<Id>, dropped: set<Id>)

  datatype State = State(stream: seq<StreamEntry>, group: Group, consumers: map<Name, Consumer>)

  const EMPTY := State([], Group(0, map[], {}, {}), map[])

  datatype Action =
    | Crash
    | Stop
    | List(todo: seq<(Name, nat)>)
    | Inspect(ids: seq<Id>)
    | Claim
    | Confirm
    | Remove
    | GiveUp
    | Enter
    | Clear
    | Read
    | Deliver(n: nat)
    | NoReply
    | LoseReply(retry: bool)
    | Receive
    | HandlerEnds(id: Id)
    | Ack(id: Id, ok: bool)
    | Release(id: Id)

  datatype Step = Add(entry: StreamEntry) | Join(name: Name) | Act(name: Name, action: Action)

  function PendingOf(pending: map<Name, set<Id>>, name: Name): set<Id> {
    if name in pending then pending[name] else {}
  }

  /** What `XPENDING` lists: the entries of one consumer, at most `count` of them. */
  ghost predicate Lists(ids: seq<Id>, pending: set<Id>, count: nat) {
    && NoDup(ids) && (forall id :: id in ids ==> id in pending)
    && |ids| <= count && (|ids| < count ==> forall id :: id in pending ==> id in ids)
  }

  predicate Awaits(c: Consumer, id: Id, job: Job) {
    id in c.jobs && c.jobs[id] == job
  }

  predicate Claims(phase: Phase) {
    phase.Cleaning? && phase.cleanup.Claiming?
  }

  predicate Confirms(phase: Phase) {
    phase.Cleaning? && phase.cleanup.Confirming? && phase.cleanup.ids != []
  }

  predicate Removes(phase: Phase) {
    phase.Cleaning? && phase.cleanup.Removing?
  }

  predicate Sweeps(phase: Phase) {
    phase.Cleaning? && phase.cleanup.Sweeping? && phase.cleanup.todo != []
  }

  ghost predicate OthersListed(p: Name, todo: seq<(Name, nat)>, pending: map<Name, set<Id>>) {
    forall t :: t in todo ==> t.0 != p && t.0 in pending
  }

  predicate HasReply(phase: Phase, length: nat) {
    phase.Replied? && phase.lo <= phase.hi <= length
  }

  /** Redis may still serve the read of a dead consumer; every other action needs it alive. */
  ghost predicate CanAct(env: Env, length: nat, g: Group, p: Name, c: Consumer, action: Action) {
    (c.alive || action.Deliver?) &&
    match action
    case Crash => true
    case Stop => true
    case List(todo) => c.phase == Cleaning(Listing) && OthersListed(p, todo, g.pending)
    case Inspect(ids) =>
      Sweeps(c.phase) && Lists(ids, PendingOf(g.pending, c.phase.cleanup.todo[0].0), c.phase.cleanup.todo[0].1)
    case Claim => Claims(c.phase)
    case Confirm => Confirms(c.phase)
    case Remove => Removes(c.phase)
    case GiveUp => c.phase.Cleaning?
    case Enter => c.phase.AtHead?
    case Clear => c.phase.Waiting? && c.activeJobs < env.max
    case Read => c.phase.Cleared?
    case Deliver(n) => c.phase.Reading? && 1 <= n <= c.phase.count && g.cursor + n <= length
    case NoReply => c.phase.Reading?
    case LoseReply(_) => HasReply(c.phase, length)
    case Receive => HasReply(c.phase, length)
    case HandlerEnds(id) => Awaits(c, id, Handling)
    case Ack(id, _) => Awaits(c, id, FirstAck) || Awaits(c, id, LastAck)
    case Release(id) => Awaits(c, id, Acknowledged)
  }

  predicate Pends(pending: map<Name, set<Id>>, n: Name, id: Id) {
    n in pending && id in pending[n]
  }

  ghost predicate IsPending(pending: map<Name, set<Id>>, id: Id) {
    exists n :: Pends(pending, n, id)
  }

  /** `XACK`: taken off whichever list holds it; nothing happens when none does. */
  ghost function Acked(g: Group, id: Id): Group {
    if IsPending(g.pending, id) then
      g.(pending := map n | n in g.pending :: g.pending[n] - {id}, acked := g.acked + {id})
    else g
  }

  /** `XCLAIM`: the listed entries still pending move to the claimer's list. */
  ghost function Claimed(g: Group, p: Name, ids: seq<Id>): Group {
    var moved := set id | id in ids && IsPending(g.pending, id);
    g.(pending := (map n | n in g.pending :: g.pending[n] - moved)[p := PendingOf(g.pending, p) + moved])
  }

  /** `XGROUP DELCONSUMER`: its pending entries are forgotten. */
  function Deleted(g: Group, name: Name): Group {
    g.(pending := map n | n in g.pending && n != name :: g.pending[n], dropped := g.dropped + PendingOf(g.pending, name))
  }

  function Range(lo: nat, hi: nat): (ids: seq<Id>)
    requires lo <= hi
    ensures |ids| == hi - lo
    ensures forall id: Id :: id in ids <==> lo <= id < hi
  {
    if lo == hi then [] else Range(lo, hi - 1) + [hi - 1]
  }

  function IdsOf(ids: seq<Id>): set<Id> {
    set id | id in ids
  }

  /** `XREADGROUP` with the special id `>`: the next `n` entries, now pending for the reader. */
  function Delivered(g: Group, p: Name, n: nat): Group {
    g.(cursor := g.cursor + n,
       pending := g.pending[p := PendingOf(g.pending, p) + IdsOf(Range(g.cursor, g.cursor + n))])
  }

  function Swept(todo: seq<(Name, nat)>): Phase {
    if todo == [] then AtHead else Cleaning(Sweeping(todo))
  }

  function Confirmed(name: Name, ids: seq<Id>, todo: seq<(Name, nat)>): Phase {
    Cleaning(if ids == [] then Removing(name, todo) else Confirming(name, ids, todo))
  }

  function AfterAck(c: Consumer, id: Id, ok: bool): Consumer {
    if Awaits(c, id, FirstAck) then c.(jobs := c.jobs[id := LastAck])
    else if ok then c.(jobs := c.jobs[id := Acknowledged])
    else c.(jobs := c.jobs - {id}, leaked := c.leaked + 1)
  }

  /** What becomes of the consumer that acts. */
  ghost function Moved(env: Env, stream: seq<StreamEntry>, g: Group, p: Name, c: Consumer, action: Action): Consumer
    requires CanAct(env, |stream|, g, p, c, action)
  {
    match action
    case Crash => c.(alive := false)
    case Stop => c.(running := false)
    case List(todo) => c.(phase := Swept(todo))
    case Inspect(ids) =>
      var name, rest := c.phase.cleanup.todo[0].0, c.phase.cleanup.todo[1..];
      c.(phase := Cleaning(if ids == [] then Removing(name, rest) else Claiming(name, ids, rest)))
    case Claim => c.(phase := Confirmed(c.phase.cleanup.name, c.phase.cleanup.ids, c.phase.cleanup.todo))
    case Confirm => c.(phase := Confirmed(c.phase.cleanup.name, c.phase.cleanup.ids[1..], c.phase.cleanup.todo))
    case Remove => c.(phase := Swept(c.phase.cleanup.todo))
    case GiveUp => c.(phase := AtHead)
    case Enter => c.(phase := if c.running then Waiting else Stopped)
    case Clear => c.(phase := Cleared)
    case Read => c.(phase := Reading(env.max - c.activeJobs))
    case Deliver(n) => c.(phase := Replied(g.cursor, g.cursor + n, c.phase.count))
    case NoReply => c.(phase := AtHead)
    case LoseReply(retry) =>
      c.(phase := if retry then Reading(c.phase.count) else Stopped, missed := c.missed + Range(c.phase.lo, c.phase.hi))
    case Receive => AcceptAll(env, c, stream, c.phase.lo, c.phase.hi).(phase := AtHead)
    case HandlerEnds(id) => c.(jobs := c.jobs[id := LastAck])
    case Ack(id, ok) => AfterAck(c, id, ok)
    case Release(id) => c.(jobs := c.jobs - {id}, activeJobs := c.activeJobs - 1)
  }

  /** What the action does to the group. */
  ghost function Served(env: Env, length: nat, g: Group, p: Name, c: Consumer, action: Action): Group
    requires CanAct(env, length, g, p, c, action)
  {
    match action
    case Claim => Claimed(g, p, c.phase.cleanup.ids)
    case Confirm => Acked(g, c.phase.cleanup.ids[0])
    case Remove => Deleted(g, c.phase.cleanup.name)
    case Deliver(n) => Delivered(g, p, n)
    case Ack(id, ok) => if ok then Acked(g, id) else g
    case _ => g
  }

  ghost predicate Enabled(env: Env, s: State, step: Step) {
    match step
    case Add(_) => true
    case Join(p) => p !in s.consumers
    case Act(p, action) => p in s.consumers && CanAct(env, |s.stream|, s.group, p, s.consumers[p], action)
  }

  ghost function Next(env: Env, s: State, step: Step): State
    requires Enabled(env, s, step)
  {
    match step
    case Add(entry) => s.(stream := s.stream + [entry])
    case Join(p) => s.(consumers := s.consumers[p := STARTING])
    case Act(p, action) =>
      var c := s.consumers[p];
      s.(group := Served(env, |s.stream|, s.group, p, c, action),
         consumers := s.consumers[p := Moved(env, s.stream, s.group, p, c, action)])
  }

  ghost function Run(env: Env, steps: seq<Step>): Option<State> {
    if steps == [] then Some(EMPTY)
    else
      var before, step := Run(env, steps[..|steps| - 1]), steps[|steps| - 1];
      if before.Some? && Enabled(env, before.value, step) then Some(Next(env, before.value, step)) else None
  }

  // ---------------------------------------------------------------- the consumer object

  class RedisQueueConsumer {
    const env: Env
    var activeJobs: int
    var isRunning: bool
    var jobs: map<Id, Job>
    ghost var leaked: nat
    ghost var received: seq<Id>
    ghost var handled: seq<Id>
    ghost var given: map<Id, Json>
    ghost var missed: seq<Id>

    constructor (env: Env)
      ensures this.env == env && Value(AtHead) == STARTING.(phase := AtHead)
    {
      this.env, activeJobs, isRunning, jobs := env, 0, true, map[];
      leaked, received, handled, given, missed := 0, [], [], map[], [];
    }

    ghost function Value(phase: Phase): Consumer
      reads this
    {
      Consumer(true, isRunning, phase, activeJobs, jobs, leaked, received, handled, given, missed)
    }

    /** The number of entries a read asks for. */
    method ReadCount() returns (count: int)
      ensures activeJobs < env.max ==> count >= 1
      ensures activeJobs + count == env.max
    {
      count := env.max - activeJobs;
    }

    method ProcessMessages(messages: seq<StreamEntry>, stream: seq<StreamEntry>, lo: nat)
      requires lo + |messages| <= |stream| && messages == stream[lo..lo + |messages|]
      modifies this
      ensures Value(AtHead) == AcceptAll(env, old(Value(AtHead)), stream, lo, lo + |messages|)
      ensures activeJobs == old(activeJobs) + |messages|
      ensures HandsOver(env, stream, lo, lo + |messages|, old(handled), handled)
    {
      ghost var before := Value(AtHead);
      HandedInOrder(env, before, stream, lo, lo + |messages|);
      for i := 0 to |messages|
        invariant Value(AtHead) == AcceptAll(env, before, stream, lo, lo + i)
      {
        assert stream[lo + i] == messages[i];
        StartJob(lo + i, messages[i].fields);
      }
    }

    /** One pass of the loop: a slot is taken and the message processed. */
    method StartJob(id: Id, fields: seq<string>)
      modifies this
      ensures Value(AtHead) == Accept(env, old(Value(AtHead)), id, StreamEntry(fields))
    {
      activeJobs := activeJobs + 1;
      ProcessMessage(id, fields);
    }

    /** Up to its first await; handing a message over is entering it in `handled` and `given`. */
    method ProcessMessage(id: Id, fields: seq<string>)
      modifies this`jobs, this`received, this`handled, this`given
      ensures Value(AtHead) == Accept(env, old(Value(AtHead)), id, StreamEntry(fields)).(activeJobs := activeJobs)
      ensures Takes(env, id, fields, old(Value(AtHead)), Value(AtHead))
    {
      ExtractedIs(env, fields);
      received := received + [id];
      var extracted := ExtractMessage(env, fields);
      if extracted.NoMessage? {
        jobs := jobs[id := FirstAck];
      } else if extracted.Message? {
        jobs := jobs[id := Handling];
        handled, given := handled + [id], given[id := extracted.message];
      } else {
        jobs := jobs[id := LastAck];
      }
    }

    method JobCompleted(id: Id)
      requires id in jobs
      modifies this`activeJobs, this`jobs
      ensures Value(AtHead) == old(Value(AtHead)).(jobs := old(jobs) - {id}, activeJobs := old(activeJobs) - 1)
    {
      jobs := jobs - {id};
      activeJobs := activeJobs - 1;
    }
  }
}
