/**
 What holds in every run of the consumer group: delivery at most once, an account of every entry, the bound on
 parallel jobs, and exactly which messages are lost.
 */
module QueueRuns {
  import opened Wrappers
  import opened Queue

  // ---------------------------------------------------------------- each consumer on its own

  predicate InFlight(c: Consumer, id: Id) {
    c.phase.Replied? && c.phase.lo <= id < c.phase.hi
  }

  /** The entry was delivered to this consumer. */
  predicate Owns(c: Consumer, id: Id) {
    InFlight(c, id) || id in c.received || id in c.missed
  }

  ghost predicate HistoryOk(c: Consumer) {
    && NoDup(c.received) && NoDup(c.handled)
    && (forall id :: id in c.handled ==> id in c.received)
    && (forall id :: id in c.jobs ==> id in c.received)
    && (forall id: Id :: InFlight(c, id) ==> id !in c.received)
    && (forall id :: id in c.missed ==> id !in c.received && !InFlight(c, id))
  }

  /** Slots taken are those of unfinished jobs, and those never given back because an acknowledgement failed. */
  predicate SlotsOk(max: int, c: Consumer) {
    && c.activeJobs == |c.jobs| + c.leaked
    && (c.activeJobs <= 0 || c.activeJobs <= max)
    && (c.phase.Cleared? ==> c.activeJobs < max)
    && (c.phase.Reading? ==> c.phase.count >= 1 && c.activeJobs + c.phase.count <= max)
    && (c.phase.Replied? ==> c.phase.lo <= c.phase.hi && c.phase.hi - c.phase.lo <= c.phase.count)
    && (c.phase.Replied? ==> c.phase.count >= 1 && c.activeJobs + c.phase.count <= max)
  }

  ghost predicate ConsumerOk(max: int, c: Consumer) {
    HistoryOk(c) && SlotsOk(max, c)
  }

  lemma SizeOfAdded(jobs: map<Id, Job>, id: Id, job: Job)
    ensures |jobs[id := job]| == if id in jobs then |jobs| else |jobs| + 1
  {
    assert jobs[id := job].Keys == jobs.Keys + {id};
    assert |jobs| == |jobs.Keys| && |jobs[id := job]| == |jobs[id := job].Keys|;
  }

  lemma SizeOfRemoved(jobs: map<Id, Job>, id: Id)
    requires id in jobs
    ensures |jobs - {id}| == |jobs| - 1
  {
    assert (jobs - {id}).Keys == jobs.Keys - {id};
    assert |jobs| == |jobs.Keys| && |jobs - {id}| == |(jobs - {id}).Keys|;
  }

  ghost predicate Fresh(c: Consumer, lo: nat, hi: nat) {
    forall id: Id :: lo <= id < hi ==> id !in c.received
  }

  ghost predicate Accepted(c: Consumer, c': Consumer, lo: nat, hi: nat) {
    && lo <= hi
    && c'.received == c.received + Range(lo, hi)
    && NoDup(c'.received) && NoDup(c'.handled)
    && (forall id :: id in c'.handled ==> id in c'.received)
    && (forall id :: id in c'.jobs ==> id in c'.received)
    && c'.activeJobs == c.activeJobs + (hi - lo) && |c'.jobs| == |c.jobs| + (hi - lo)
    && c'.leaked == c.leaked && c'.missed == c.missed
  }

  lemma AcceptOne(env: Env, c: Consumer, c': Consumer, lo: nat, hi: nat, entry: StreamEntry)
    requires Accepted(c, c', lo, hi) && Fresh(c, lo, hi + 1)
    ensures Accepted(c, Accept(env, c', hi, entry), lo, hi + 1)
  {
    assert hi !in c'.received;
    NoDupSnoc(c'.received, hi);
    NoDupSnoc(c'.handled, hi);
    SizeOfAdded(c'.jobs, hi, Handling);
    SizeOfAdded(c'.jobs, hi, FirstAck);
    SizeOfAdded(c'.jobs, hi, LastAck);
  }

  /** A batch adds one job per entry, and hands each entry over once, in order. */
  lemma {:induction false} AcceptedAll(env: Env, c: Consumer, stream: seq<StreamEntry>, lo: nat, hi: nat)
    requires HistoryOk(c) && lo <= hi <= |stream| && Fresh(c, lo, hi)
    ensures Accepted(c, AcceptAll(env, c, stream, lo, hi), lo, hi)
    decreases hi
  {
    if lo < hi {
      AcceptedAll(env, c, stream, lo, hi - 1);
      AcceptOne(env, c, AcceptAll(env, c, stream, lo, hi - 1), lo, hi - 1, stream[hi - 1]);
    } else {
      assert c.received + Range(lo, hi) == c.received;
    }
  }

  lemma ReceiveKeepsConsumer(env: Env, stream: seq<StreamEntry>, c: Consumer)
    requires ConsumerOk(env.max, c) && HasReply(c.phase, |stream|)
    ensures ConsumerOk(env.max, AcceptAll(env, c, stream, c.phase.lo, c.phase.hi).(phase := AtHead))
  {
    assert forall id: Id :: c.phase.lo <= id < c.phase.hi ==> InFlight(c, id);
    AcceptedAll(env, c, stream, c.phase.lo, c.phase.hi);
  }

  lemma JobMoves(max: int, c: Consumer, id: Id, job: Job)
    requires ConsumerOk(max, c) && id in c.jobs
    ensures ConsumerOk(max, c.(jobs := c.jobs[id := job]))
  {
    SizeOfAdded(c.jobs, id, job);
  }

  lemma JobLeaks(max: int, c: Consumer, id: Id)
    requires ConsumerOk(max, c) && id in c.jobs
    ensures ConsumerOk(max, c.(jobs := c.jobs - {id}, leaked := c.leaked + 1))
  {
    SizeOfRemoved(c.jobs, id);
  }

  lemma AckKeepsConsumer(max: int, c: Consumer, id: Id, ok: bool)
    requires ConsumerOk(max, c) && id in c.jobs
    ensures ConsumerOk(max, AfterAck(c, id, ok))
  {
    JobMoves(max, c, id, LastAck);
    JobMoves(max, c, id, Acknowledged);
    JobLeaks(max, c, id);
  }

  lemma ReleaseKeepsConsumer(max: int, c: Consumer, id: Id)
    requires ConsumerOk(max, c) && id in c.jobs
    ensures ConsumerOk(max, c.(jobs := c.jobs - {id}, activeJobs := c.activeJobs - 1))
  {
    SizeOfRemoved(c.jobs, id);
  }

  lemma DeliverKeepsConsumer(max: int, c: Consumer, cursor: nat, n: nat)
    requires ConsumerOk(max, c) && Below(c, cursor) && c.phase.Reading? && 1 <= n <= c.phase.count
    ensures ConsumerOk(max, c.(phase := Replied(cursor, cursor + n, c.phase.count)))
  {
    assert forall id :: id in c.received || id in c.missed ==> Owns(c, id);
  }

  ghost predicate Below(c: Consumer, cursor: nat) {
    forall id: Id :: Owns(c, id) ==> id < cursor
  }

  /** A step that changes nothing but where the main loop stands, and leaves no read outstanding. */
  predicate OnlyMoves(c: Consumer, c': Consumer) {
    && c' == c.(alive := c'.alive, running := c'.running, phase := c'.phase)
    && (c'.phase == c.phase || (!c'.phase.Cleared? && !c'.phase.Reading? && !c'.phase.Replied?))
  }

  lemma MovingKeepsConsumer(max: int, c: Consumer, c': Consumer)
    requires ConsumerOk(max, c) && OnlyMoves(c, c')
    ensures ConsumerOk(max, c')
  {}

  lemma ReadingKeepsConsumer(env: Env, c: Consumer)
    requires ConsumerOk(env.max, c)
    ensures c.activeJobs < env.max ==> ConsumerOk(env.max, c.(phase := Cleared))
    ensures c.phase.Cleared? ==> ConsumerOk(env.max, c.(phase := Reading(env.max - c.activeJobs)))
  {}

  lemma LosingKeepsConsumer(max: int, c: Consumer, retry: bool)
    requires ConsumerOk(max, c) && c.phase.Replied? && c.phase.lo <= c.phase.hi
    ensures ConsumerOk(max, c.(phase := if retry then Reading(c.phase.count) else Stopped,
                               missed := c.missed + Range(c.phase.lo, c.phase.hi)))
  {
    assert forall id: Id :: c.phase.lo <= id < c.phase.hi ==> InFlight(c, id);
  }

  predicate MainOnly(action: Action) {
    match action
    case Deliver(_) => false
    case LoseReply(_) => false
    case Receive => false
    case HandlerEnds(_) => false
    case Ack(_, _) => false
    case Release(_) => false
    case Clear => false
    case Read => false
    case _ => true
  }

  lemma MainOnlyMoves(env: Env, stream: seq<StreamEntry>, g: Group, p: Name, c: Consumer, action: Action)
    requires CanAct(env, |stream|, g, p, c, action) && MainOnly(action)
    ensures OnlyMoves(c, Moved(env, stream, g, p, c, action))
  {}

  lemma JobActionKeepsConsumer(env: Env, stream: seq<StreamEntry>, g: Group, p: Name, c: Consumer, action: Action)
    requires CanAct(env, |stream|, g, p, c, action) && ConsumerOk(env.max, c)
    requires action.HandlerEnds? || action.Ack? || action.Release?
    ensures ConsumerOk(env.max, Moved(env, stream, g, p, c, action))
  {
    match action
    case HandlerEnds(id) => JobMoves(env.max, c, id, LastAck);
    case Ack(id, ok) => AckKeepsConsumer(env.max, c, id, ok);
    case Release(id) => ReleaseKeepsConsumer(env.max, c, id);
  }

  lemma ReadActionKeepsConsumer(env: Env, stream: seq<StreamEntry>, g: Group, p: Name, c: Consumer, action: Action)
    requires CanAct(env, |stream|, g, p, c, action) && ConsumerOk(env.max, c) && Below(c, g.cursor)
    requires !MainOnly(action) && !action.HandlerEnds? && !action.Ack? && !action.Release?
    ensures ConsumerOk(env.max, Moved(env, stream, g, p, c, action))
  {
    match action
    case Receive => ReceiveKeepsConsumer(env, stream, c);
    case Deliver(n) => DeliverKeepsConsumer(env.max, c, g.cursor, n);
    case LoseReply(retry) => LosingKeepsConsumer(env.max, c, retry);
    case Clear => ReadingKeepsConsumer(env, c);
    case Read => ReadingKeepsConsumer(env, c);
  }

  lemma ConsumerKept(env: Env, stream: seq<StreamEntry>, g: Group, p: Name, c: Consumer, action: Action)
    requires CanAct(env, |stream|, g, p, c, action) && ConsumerOk(env.max, c) && Below(c, g.cursor)
    ensures ConsumerOk(env.max, Moved(env, stream, g, p, c, action))
  {
    if MainOnly(action) {
      MainOnlyMoves(env, stream, g, p, c, action);
      MovingKeepsConsumer(env.max, c, Moved(env, stream, g, p, c, action));
    } else if action.HandlerEnds? || action.Ack? || action.Release? {
      JobActionKeepsConsumer(env, stream, g, p, c, action);
    } else {
      ReadActionKeepsConsumer(env, stream, g, p, c, action);
    }
  }

  // ---------------------------------------------------------------- who received what

  ghost predicate SomeoneOwns(consumers: map<Name, Consumer>, id: Id) {
    exists p :: p in consumers && Owns(consumers[p], id)
  }

  /** Each entry before the cursor was delivered to exactly one consumer, and no other entry was. */
  ghost predicate OwnersOk(consumers: map<Name, Consumer>, cursor: nat) {
    && (forall p :: p in consumers ==> Below(consumers[p], cursor))
    && (forall p, q, id: Id :: p in consumers && q in consumers && Owns(consumers[p], id) && Owns(consumers[q], id) ==> p == q)
    && (forall id: Id :: id < cursor ==> SomeoneOwns(consumers, id))
  }

  /** Delivery adds the entries from the cursor on; nothing else changes who owns what. */
  ghost predicate OwnsMore(c: Consumer, c': Consumer, cursor: nat, cursor': nat) {
    forall id: Id :: Owns(c', id) <==> Owns(c, id) || cursor <= id < cursor'
  }

  lemma ReceiveOwns(env: Env, stream: seq<StreamEntry>, c: Consumer, cursor: nat)
    requires HistoryOk(c) && HasReply(c.phase, |stream|)
    ensures OwnsMore(c, AcceptAll(env, c, stream, c.phase.lo, c.phase.hi).(phase := AtHead), cursor, cursor)
  {
    assert forall id: Id :: c.phase.lo <= id < c.phase.hi ==> InFlight(c, id);
    AcceptedAll(env, c, stream, c.phase.lo, c.phase.hi);
  }

  lemma MoveOwns(env: Env, stream: seq<StreamEntry>, g: Group, p: Name, c: Consumer, action: Action)
    requires CanAct(env, |stream|, g, p, c, action) && HistoryOk(c)
    ensures OwnsMore(c, Moved(env, stream, g, p, c, action), g.cursor, Served(env, |stream|, g, p, c, action).cursor)
  {
    if action.Receive? { ReceiveOwns(env, stream, c, g.cursor); }
  }

  lemma OwnersKept(consumers: map<Name, Consumer>, p: Name, c: Consumer, cursor: nat, cursor': nat)
    requires OwnersOk(consumers, cursor) && p in consumers && cursor <= cursor' && OwnsMore(consumers[p], c, cursor, cursor')
    ensures OwnersOk(consumers[p := c], cursor')
  {
    var consumers' := consumers[p := c];
    forall id: Id | id < cursor' ensures SomeoneOwns(consumers', id) {
      if id < cursor {
        assert SomeoneOwns(consumers, id);
        var q :| q in consumers && Owns(consumers[q], id);
        assert Owns(consumers'[q], id);
      } else {
        assert Owns(consumers'[p], id);
      }
    }
    forall q | q in consumers' ensures Below(consumers'[q], cursor') { assert Below(consumers[q], cursor); }
  }

  lemma JoinOwners(consumers: map<Name, Consumer>, p: Name, cursor: nat)
    requires OwnersOk(consumers, cursor) && p !in consumers
    ensures OwnersOk(consumers[p := STARTING], cursor)
  {
    var consumers' := consumers[p := STARTING];
    forall id: Id | id < cursor ensures SomeoneOwns(consumers', id) {
      assert SomeoneOwns(consumers, id);
      var q :| q in consumers && Owns(consumers[q], id);
      assert Owns(consumers'[q], id);
    }
  }

  // ---------------------------------------------------------------- what became of each entry

  /** Delivered entries are pending for one consumer, acknowledged or forgotten, and only one of these. */
  ghost predicate GroupOk(g: Group) {
    && (forall n, id: Id :: Pends(g.pending, n, id) ==> id < g.cursor && id !in g.acked && id !in g.dropped)
    && (forall n, m, id: Id :: Pends(g.pending, n, id) && Pends(g.pending, m, id) ==> n == m)
    && (forall id :: id in g.acked ==> id < g.cursor && id !in g.dropped)
    && (forall id :: id in g.dropped ==> id < g.cursor)
    && (forall id: Id :: id < g.cursor ==> Known(g, id))
  }

  ghost predicate Known(g: Group, id: Id) {
    id in g.acked || id in g.dropped || IsPending(g.pending, id)
  }

  lemma AckedOk(g: Group, id: Id)
    requires GroupOk(g)
    ensures GroupOk(Acked(g, id)) && Acked(g, id).cursor == g.cursor
    ensures forall n, i: Id :: Pends(Acked(g, id).pending, n, i) ==> Pends(g.pending, n, i) && i != id
  {
    if IsPending(g.pending, id) {
      var g' := Acked(g, id);
      var holder :| Pends(g.pending, holder, id);
      forall i: Id | i < g'.cursor ensures Known(g', i) {
        assert Known(g, i);
        if IsPending(g.pending, i) && i != id {
          var n :| Pends(g.pending, n, i);
          assert Pends(g'.pending, n, i);
        }
      }
      assert forall n, i: Id :: Pends(g'.pending, n, i) ==> Pends(g.pending, n, i) && i != id;
    }
  }

  lemma ClaimedOk(g: Group, p: Name, ids: seq<Id>)
    requires GroupOk(g)
    ensures GroupOk(Claimed(g, p, ids)) && Claimed(g, p, ids).cursor == g.cursor
  {
    var g', moved := Claimed(g, p, ids), set id | id in ids && IsPending(g.pending, id);
    forall i: Id | i < g'.cursor ensures Known(g', i) {
      assert Known(g, i);
      if IsPending(g.pending, i) {
        var n :| Pends(g.pending, n, i);
        assert Pends(g'.pending, if i in moved then p else n, i);
      }
    }
    forall n, i: Id | Pends(g'.pending, n, i)
      ensures if i in moved then n == p && IsPending(g.pending, i) else Pends(g.pending, n, i)
    {}
    forall i: Id | IsPending(g.pending, i) ensures i < g.cursor && i !in g.acked && i !in g.dropped {
      var n :| Pends(g.pending, n, i);
    }
  }

  lemma DeletedOk(g: Group, name: Name)
    requires GroupOk(g)
    ensures GroupOk(Deleted(g, name)) && Deleted(g, name).cursor == g.cursor
  {
    var g' := Deleted(g, name);
    forall i: Id | i < g'.cursor ensures Known(g', i) {
      assert Known(g, i);
      if IsPending(g.pending, i) {
        var n :| Pends(g.pending, n, i);
        if n != name { assert Pends(g'.pending, n, i); }
      }
    }
    assert forall n, i: Id :: Pends(g'.pending, n, i) ==> Pends(g.pending, n, i) && n != name;
    assert forall i :: i in PendingOf(g.pending, name) ==> Pends(g.pending, name, i);
  }

  lemma DeliveredOk(g: Group, p: Name, n: nat)
    requires GroupOk(g)
    ensures GroupOk(Delivered(g, p, n)) && Delivered(g, p, n).cursor == g.cursor + n
  {
    var g' := Delivered(g, p, n);
    forall i: Id | i < g'.cursor ensures Known(g', i) {
      if i >= g.cursor {
        assert Pends(g'.pending, p, i);
      } else {
        assert Known(g, i);
        if IsPending(g.pending, i) {
          var m :| Pends(g.pending, m, i);
          assert Pends(g'.pending, m, i);
        }
      }
    }
    forall m, i: Id | Pends(g'.pending, m, i)
      ensures if i < g.cursor then Pends(g.pending, m, i) else m == p && i < g.cursor + n
    {
      assert i in PendingOf(g.pending, m) ==> Pends(g.pending, m, i);
    }
  }

  lemma ServedOk(env: Env, length: nat, g: Group, p: Name, c: Consumer, action: Action)
    requires CanAct(env, length, g, p, c, action) && GroupOk(g)
    ensures GroupOk(Served(env, length, g, p, c, action))
    ensures g.cursor <= Served(env, length, g, p, c, action).cursor
  {
    match action
    case Claim => ClaimedOk(g, p, c.phase.cleanup.ids);
    case Confirm => AckedOk(g, c.phase.cleanup.ids[0]);
    case Remove => DeletedOk(g, c.phase.cleanup.name);
    case Deliver(n) => DeliveredOk(g, p, n);
    case Ack(id, _) => AckedOk(g, id);
    case _ =>
  }

  // ---------------------------------------------------------------- the invariant

  ghost predicate IsMessage(env: Env, stream: seq<StreamEntry>, id: Id) {
    id < |stream| && HasMessage(env, stream[id].fields)
  }

  /** The handler was given the message that entry `id` carries. */
  ghost predicate GivenRight(env: Env, stream: seq<StreamEntry>, given: map<Id, Json>, id: Id) {
    id < |stream| && id in given && Carries(env, stream[id].fields, given[id])
  }

  /** Of the entries received, exactly those with a message went to the handler, each with its own. */
  ghost predicate HandledOk(env: Env, stream: seq<StreamEntry>, c: Consumer) {
    && (forall id :: id in c.received ==> id < |stream| && (id in c.handled <==> IsMessage(env, stream, id)))
    && forall id :: id in c.handled ==> GivenRight(env, stream, c.given, id)
  }

  ghost predicate HandledWereReceived(c: Consumer) {
    forall id :: id in c.handled ==> id in c.received
  }

  lemma HandledOne(env: Env, c: Consumer, stream: seq<StreamEntry>, id: Id)
    requires HandledOk(env, stream, c) && id < |stream| && id !in c.received && HandledWereReceived(c)
    ensures HandledOk(env, stream, Accept(env, c, id, stream[id]))
  {
    ExtractedIs(env, stream[id].fields);
    var extracted, c' := ExtractMessage(env, stream[id].fields), Accept(env, c, id, stream[id]);
    assert IsMessage(env, stream, id) <==> extracted.Message? by {
      if extracted.Message? { assert Carries(env, stream[id].fields, extracted.message); }
    }
    forall i | i in c'.handled ensures GivenRight(env, stream, c'.given, i) {
      if i != id { assert i in c.handled && GivenRight(env, stream, c.given, i); }
    }
  }

  lemma NextIsNew(env: Env, c: Consumer, stream: seq<StreamEntry>, lo: nat, hi: nat)
    requires HistoryOk(c) && lo <= hi <= |stream| && Fresh(c, lo, hi) && hi !in c.received
    ensures var c' := AcceptAll(env, c, stream, lo, hi); hi !in c'.received && HandledWereReceived(c')
  {
    AcceptedAll(env, c, stream, lo, hi);
    assert hi !in Range(lo, hi);
  }

  lemma {:induction false} HandledAll(env: Env, c: Consumer, stream: seq<StreamEntry>, lo: nat, hi: nat)
    requires HistoryOk(c) && lo <= hi <= |stream| && Fresh(c, lo, hi) && HandledOk(env, stream, c)
    ensures HandledOk(env, stream, AcceptAll(env, c, stream, lo, hi))
    decreases hi
  {
    if lo < hi {
      HandledAll(env, c, stream, lo, hi - 1);
      NextIsNew(env, c, stream, lo, hi - 1);
      HandledOne(env, AcceptAll(env, c, stream, lo, hi - 1), stream, hi - 1);
    }
  }

  lemma HandledKept(env: Env, stream: seq<StreamEntry>, g: Group, p: Name, c: Consumer, action: Action)
    requires CanAct(env, |stream|, g, p, c, action) && HistoryOk(c) && HandledOk(env, stream, c)
    ensures HandledOk(env, stream, Moved(env, stream, g, p, c, action))
  {
    if action.Receive? {
      assert forall id: Id :: c.phase.lo <= id < c.phase.hi ==> InFlight(c, id);
      HandledAll(env, c, stream, c.phase.lo, c.phase.hi);
    }
  }

  ghost predicate ConsumersOk(env: Env, stream: seq<StreamEntry>, consumers: map<Name, Consumer>) {
    forall p :: p in consumers ==> ConsumerOk(env.max, consumers[p]) && HandledOk(env, stream, consumers[p])
  }

  ghost predicate Inv(env: Env, s: State) {
    && ConsumersOk(env, s.stream, s.consumers)
    && OwnersOk(s.consumers, s.group.cursor)
    && GroupOk(s.group)
    && s.group.cursor <= |s.stream|
  }

  lemma ActKept(env: Env, s: State, p: Name, action: Action)
    requires Inv(env, s) && Enabled(env, s, Act(p, action))
    ensures Inv(env, Next(env, s, Act(p, action)))
  {
    var c := s.consumers[p];
    assert Below(c, s.group.cursor);
    ConsumerKept(env, s.stream, s.group, p, c, action);
    HandledKept(env, s.stream, s.group, p, c, action);
    ServedOk(env, |s.stream|, s.group, p, c, action);
    MoveOwns(env, s.stream, s.group, p, c, action);
    OwnersKept(s.consumers, p, Moved(env, s.stream, s.group, p, c, action), s.group.cursor,
               Served(env, |s.stream|, s.group, p, c, action).cursor);
  }

  lemma MoreEntries(env: Env, stream: seq<StreamEntry>, entry: StreamEntry, c: Consumer)
    requires HandledOk(env, stream, c)
    ensures HandledOk(env, stream + [entry], c)
  {
    forall id | id in c.handled ensures GivenRight(env, stream + [entry], c.given, id) {
      assert GivenRight(env, stream, c.given, id);
    }
  }

  lemma AddKept(env: Env, s: State, entry: StreamEntry)
    requires Inv(env, s)
    ensures Inv(env, s.(stream := s.stream + [entry]))
  {
    forall p | p in s.consumers ensures HandledOk(env, s.stream + [entry], s.consumers[p]) {
      MoreEntries(env, s.stream, entry, s.consumers[p]);
    }
  }

  lemma JoinKept(env: Env, s: State, p: Name)
    requires Inv(env, s) && p !in s.consumers
    ensures Inv(env, s.(consumers := s.consumers[p := STARTING]))
  {
    JoinOwners(s.consumers, p, s.group.cursor);
  }

  lemma InvKept(env: Env, s: State, step: Step)
    requires Inv(env, s) && Enabled(env, s, step)
    ensures Inv(env, Next(env, s, step))
  {
    match step
    case Add(entry) => AddKept(env, s, entry);
    case Join(p) => JoinKept(env, s, p);
    case Act(p, action) => ActKept(env, s, p, action);
  }

  lemma {:induction false} EveryRunKeepsInv(env: Env, steps: seq<Step>)
    requires Run(env, steps).Some?
    ensures Inv(env, Run(env, steps).value)
  {
    if steps != [] {
      EveryRunKeepsInv(env, steps[..|steps| - 1]);
      InvKept(env, Run(env, steps[..|steps| - 1]).value, steps[|steps| - 1]);
    }
  }

  // ---------------------------------------------------------------- theorems

  /** No entry is handed to a handler twice, by one consumer or by two, whatever crashes and cleans up. */
  lemma AtMostOnce(env: Env, steps: seq<Step>, p: Name, q: Name, i: nat, j: nat)
    requires Run(env, steps).Some? && p in Run(env, steps).value.consumers && q in Run(env, steps).value.consumers
    requires i < |Run(env, steps).value.consumers[p].handled| && j < |Run(env, steps).value.consumers[q].handled|
    requires Run(env, steps).value.consumers[p].handled[i] == Run(env, steps).value.consumers[q].handled[j]
    ensures p == q && i == j
  {
    EveryRunKeepsInv(env, steps);
    var cs := Run(env, steps).value.consumers;
    var id := cs[p].handled[i];
    assert id in cs[p].handled && id in cs[q].handled;
    assert Owns(cs[p], id) && Owns(cs[q], id);
  }

  /** Every delivered entry is pending for exactly one consumer, acknowledged or forgotten, and only one of these. */
  lemma EveryEntryIsAccountedFor(env: Env, steps: seq<Step>, id: Id)
    requires Run(env, steps).Some?
    ensures var g := Run(env, steps).value.group;
            && (id < g.cursor <==> Known(g, id))
            && !(id in g.acked && id in g.dropped)
            && (IsPending(g.pending, id) ==> id !in g.acked && id !in g.dropped)
            && forall n, m :: Pends(g.pending, n, id) && Pends(g.pending, m, id) ==> n == m
  {
    EveryRunKeepsInv(env, steps);
    var g := Run(env, steps).value.group;
    if IsPending(g.pending, id) {
      var n :| Pends(g.pending, n, id);
    }
  }

  /** The slots taken and those an outstanding read may fill never exceed the limit, and no read asks for none. */
  lemma SlotBound(env: Env, steps: seq<Step>, p: Name)
    requires Run(env, steps).Some? && p in Run(env, steps).value.consumers
    ensures var c := Run(env, steps).value.consumers[p];
            && c.activeJobs == |c.jobs| + c.leaked
            && (c.activeJobs == 0 || c.activeJobs <= env.max)
            && (c.phase.Reading? ==> c.phase.count >= 1 && c.activeJobs + c.phase.count <= env.max)
            && (c.phase.Replied? ==> c.activeJobs + (c.phase.hi - c.phase.lo) <= env.max)
  {
    EveryRunKeepsInv(env, steps);
  }

  /** A read asks for exactly the slots not taken by unfinished or leaked jobs, and there is at least one. */
  lemma ReadAsksForFreeSlots(env: Env, steps: seq<Step>, p: Name)
    requires Run(env, steps).Some? && Enabled(env, Run(env, steps).value, Act(p, Read))
    ensures var c := Run(env, steps).value.consumers[p];
            var c' := Next(env, Run(env, steps).value, Act(p, Read)).consumers[p];
            c'.phase.Reading? && c'.phase.count + |c.jobs| + c.leaked == env.max && c'.phase.count >= 1
  {
    EveryRunKeepsInv(env, steps);
    var s := Run(env, steps).value;
    assert ConsumerOk(env.max, s.consumers[p]);
    assert Next(env, s, Act(p, Read)).consumers[p] == s.consumers[p].(phase := Reading(env.max - s.consumers[p].activeJobs));
  }

  /** A job that is given back frees its slot: the slots taken stay those of the other jobs. */
  lemma ReleaseFreesTheSlot(env: Env, steps: seq<Step>, p: Name, id: Id)
    requires Run(env, steps).Some? && Enabled(env, Run(env, steps).value, Act(p, Release(id)))
    ensures var c := Run(env, steps).value.consumers[p];
            var c' := Next(env, Run(env, steps).value, Act(p, Release(id))).consumers[p];
            && id !in c'.jobs && (forall other :: other in c'.jobs <==> other in c.jobs && other != id)
            && c'.activeJobs == |c'.jobs| + c'.leaked && 0 <= c'.activeJobs < c.activeJobs
  {
    EveryRunKeepsInv(env, steps);
    var c := Run(env, steps).value.consumers[p];
    SizeOfRemoved(c.jobs, id);
  }

  /** The acknowledgements a job still sends: two without a message, one with it, whether or not they succeed. */
  function AcksLeft(c: Consumer, id: Id): nat {
    if id !in c.jobs then 0
    else
      match c.jobs[id]
      case FirstAck => 2
      case Handling => 1
      case LastAck => 1
      case Acknowledged => 0
  }

  /** Each acknowledgement is one of them, a handler ends without one, and a slot is freed only after the last. */
  lemma AcksAreCounted(env: Env, s: State, p: Name, action: Action, id: Id)
    requires Enabled(env, s, Act(p, action)) && !action.Receive?
    ensures var c, c' := s.consumers[p], Next(env, s, Act(p, action)).consumers[p];
            && AcksLeft(c', id) == AcksLeft(c, id) - (if action.Ack? && action.id == id then 1 else 0)
            && (action == Release(id) ==> AcksLeft(c, id) == 0)
  {}

  ghost predicate NoReplyMissed(consumers: map<Name, Consumer>) {
    forall p :: p in consumers ==> !consumers[p].phase.Replied? && consumers[p].missed == []
  }

  ghost predicate HandledBySomeone(consumers: map<Name, Consumer>, id: Id) {
    exists p :: p in consumers && id in consumers[p].handled
  }

  /**
   While no reply is lost or still on its way, the handled entries are exactly the delivered ones that carry a
   message; and what the handler is given is always that message.
   */
  lemma DeliveredIsHandled(env: Env, steps: seq<Step>, id: Id)
    requires Run(env, steps).Some? && NoReplyMissed(Run(env, steps).value.consumers)
    ensures var s := Run(env, steps).value;
            HandledBySomeone(s.consumers, id) <==> id < s.group.cursor && IsMessage(env, s.stream, id)
    ensures forall p :: p in Run(env, steps).value.consumers && id in Run(env, steps).value.consumers[p].handled ==>
              GivenRight(env, Run(env, steps).value.stream, Run(env, steps).value.consumers[p].given, id)
  {
    EveryRunKeepsInv(env, steps);
    var s := Run(env, steps).value;
    if id < s.group.cursor && IsMessage(env, s.stream, id) {
      assert SomeoneOwns(s.consumers, id);
      var p :| p in s.consumers && Owns(s.consumers[p], id);
      assert id in s.consumers[p].received;
    }
    if HandledBySomeone(s.consumers, id) {
      var p :| p in s.consumers && id in s.consumers[p].handled;
      assert Owns(s.consumers[p], id) && Below(s.consumers[p], s.group.cursor);
    }
  }

  // ---------------------------------------------------------------- which entries are lost

  /** The reply naming the entry was lost, or reached a consumer that was already dead. */
  ghost predicate LostBy(c: Consumer, id: Id) {
    id in c.missed || (InFlight(c, id) && !c.alive)
  }

  ghost predicate Lost(consumers: map<Name, Consumer>, id: Id) {
    exists p :: p in consumers && LostBy(consumers[p], id)
  }

  lemma LostIsUnhandled(env: Env, s: State, id: Id)
    requires Inv(env, s) && Lost(s.consumers, id)
    ensures !HandledBySomeone(s.consumers, id)
  {
    var p :| p in s.consumers && LostBy(s.consumers[p], id);
    assert Owns(s.consumers[p], id);
    forall q | q in s.consumers ensures id !in s.consumers[q].handled {
      assert id in s.consumers[q].received ==> Owns(s.consumers[q], id);
    }
  }

  lemma LostByStays(env: Env, s: State, step: Step, p: Name, id: Id)
    requires ConsumersOk(env, s.stream, s.consumers) && Enabled(env, s, step) && p in s.consumers && LostBy(s.consumers[p], id)
    ensures p in Next(env, s, step).consumers && LostBy(Next(env, s, step).consumers[p], id)
  {
    if step.Act? && step.name == p {
      MissedGrows(env, s.stream, s.group, p, s.consumers[p], step.action);
    }
  }

  lemma LostStays(env: Env, s: State, step: Step, id: Id)
    requires Inv(env, s) && Enabled(env, s, step) && Lost(s.consumers, id)
    ensures Lost(Next(env, s, step).consumers, id)
  {
    var p :| p in s.consumers && LostBy(s.consumers[p], id);
    LostByStays(env, s, step, p, id);
  }

  lemma MissedGrows(env: Env, stream: seq<StreamEntry>, g: Group, p: Name, c: Consumer, action: Action)
    requires CanAct(env, |stream|, g, p, c, action) && HistoryOk(c)
    ensures forall id: Id :: LostBy(c, id) ==> LostBy(Moved(env, stream, g, p, c, action), id)
  {
    if action.Receive? {
      assert forall id: Id :: c.phase.lo <= id < c.phase.hi ==> InFlight(c, id);
      AcceptedAll(env, c, stream, c.phase.lo, c.phase.hi);
    }
  }

  lemma {:induction false} LostForever(env: Env, steps: seq<Step>, more: seq<Step>, id: Id)
    requires Run(env, steps).Some? && Lost(Run(env, steps).value.consumers, id) && Run(env, steps + more).Some?
    ensures Lost(Run(env, steps + more).value.consumers, id)
    decreases |more|
  {
    if more == [] {
      assert steps + more == steps;
    } else {
      var front := more[..|more| - 1];
      assert (steps + more)[..|steps + more| - 1] == steps + front;
      LostForever(env, steps, front, id);
      EveryRunKeepsInv(env, steps + front);
      LostStays(env, Run(env, steps + front).value, more[|more| - 1], id);
    }
  }

  ghost predicate HandledAfter(env: Env, steps: seq<Step>, id: Id) {
    Run(env, steps).Some? && HandledBySomeone(Run(env, steps).value.consumers, id)
  }

  lemma RunOneMore(env: Env, steps: seq<Step>, step: Step)
    requires Run(env, steps).Some? && Enabled(env, Run(env, steps).value, step)
    ensures Run(env, steps + [step]) == Some(Next(env, Run(env, steps).value, step))
  {
    assert (steps + [step])[..|steps|] == steps;
  }

  /** A live consumer still has the entry before it. */
  lemma NotLostIsHandled(env: Env, steps: seq<Step>, id: Id)
    requires Run(env, steps).Some? && id < Run(env, steps).value.group.cursor
    requires IsMessage(env, Run(env, steps).value.stream, id) && !Lost(Run(env, steps).value.consumers, id)
    ensures exists more :: HandledAfter(env, steps + more, id)
  {
    EveryRunKeepsInv(env, steps);
    var s := Run(env, steps).value;
    assert SomeoneOwns(s.consumers, id);
    var p :| p in s.consumers && Owns(s.consumers[p], id);
    if id in s.consumers[p].received {
      assert steps + [] == steps;
      assert HandledAfter(env, steps + [], id);
    } else {
      assert InFlight(s.consumers[p], id) && s.consumers[p].alive;
      CanReceive(env, s, p, id);
      ReceiveHandles(env, s, p, id);
      RunOneMore(env, steps, Act(p, Receive));
      assert HandledAfter(env, steps + [Act(p, Receive)], id);
    }
  }

  lemma CanReceive(env: Env, s: State, p: Name, id: Id)
    requires Inv(env, s) && p in s.consumers && InFlight(s.consumers[p], id) && s.consumers[p].alive
    ensures Enabled(env, s, Act(p, Receive))
  {
    var c := s.consumers[p];
    assert ConsumerOk(env.max, c) && Below(c, s.group.cursor);
    assert Owns(c, c.phase.hi - 1);
  }

  lemma ReceivedIsHandled(env: Env, stream: seq<StreamEntry>, c: Consumer, id: Id)
    requires HistoryOk(c) && HandledOk(env, stream, c) && HasReply(c.phase, |stream|)
    requires InFlight(c, id) && IsMessage(env, stream, id)
    ensures id in AcceptAll(env, c, stream, c.phase.lo, c.phase.hi).handled
  {
    assert forall i: Id :: c.phase.lo <= i < c.phase.hi ==> InFlight(c, i);
    HandledAll(env, c, stream, c.phase.lo, c.phase.hi);
    AcceptedAll(env, c, stream, c.phase.lo, c.phase.hi);
    assert id in AcceptAll(env, c, stream, c.phase.lo, c.phase.hi).received;
  }

  lemma ReceiveHandles(env: Env, s: State, p: Name, id: Id)
    requires Inv(env, s) && p in s.consumers && InFlight(s.consumers[p], id) && IsMessage(env, s.stream, id)
    requires Enabled(env, s, Act(p, Receive))
    ensures HandledBySomeone(Next(env, s, Act(p, Receive)).consumers, id)
  {
    ReceivedIsHandled(env, s.stream, s.consumers[p], id);
    assert id in Next(env, s, Act(p, Receive)).consumers[p].handled;
  }

  /** Exactly the entries of lost replies are never handled, however the run goes on. */
  lemma NeverHandledIffLost(env: Env, steps: seq<Step>, id: Id)
    requires Run(env, steps).Some? && id < Run(env, steps).value.group.cursor
    requires IsMessage(env, Run(env, steps).value.stream, id)
    ensures (forall more :: !HandledAfter(env, steps + more, id)) <==> Lost(Run(env, steps).value.consumers, id)
  {
    if Lost(Run(env, steps).value.consumers, id) {
      forall more ensures !HandledAfter(env, steps + more, id) {
        if Run(env, steps + more).Some? {
          LostForever(env, steps, more, id);
          EveryRunKeepsInv(env, steps + more);
          LostIsUnhandled(env, Run(env, steps + more).value, id);
        }
      }
    } else {
      NotLostIsHandled(env, steps, id);
    }
  }

  /** A group with one consumer. */
  function Alone(stream: seq<StreamEntry>, g: Group, c: Consumer): State {
    State(stream, g, map["a" := c])
  }

  lemma Acts(env: Env, steps: seq<Step>, stream: seq<StreamEntry>, g: Group, c: Consumer, action: Action)
    requires Run(env, steps) == Some(Alone(stream, g, c)) && CanAct(env, |stream|, g, "a", c, action)
    ensures Run(env, steps + [Act("a", action)]) ==
              Some(Alone(stream, Served(env, |stream|, g, "a", c, action), Moved(env, stream, g, "a", c, action)))
  {
    var c' := Moved(env, stream, g, "a", c, action);
    assert map["a" := c]["a" := c'] == map["a" := c'];
    RunOneMore(env, steps, Act("a", action));
  }

  lemma Joins(env: Env) returns (steps: seq<Step>)
    ensures Run(env, steps) == Some(Alone([], EMPTY.group, STARTING))
  {
    assert Run(env, []) == Some(EMPTY);
    RunOneMore(env, [], Join("a"));
    steps := [] + [Join("a")];
  }

  /** A consumer that skips the cleanup and waits for entries. */
  lemma StartsReading(env: Env) returns (steps: seq<Step>)
    requires env.max >= 1
    ensures Run(env, steps) == Some(Alone([], EMPTY.group, STARTING.(phase := Reading(env.max))))
  {
    steps := Joins(env);
    Acts(env, steps, [], EMPTY.group, STARTING, GiveUp);
    steps := steps + [Act("a", GiveUp)];
    Acts(env, steps, [], EMPTY.group, STARTING.(phase := AtHead), Enter);
    steps := steps + [Act("a", Enter)];
    Acts(env, steps, [], EMPTY.group, STARTING.(phase := Waiting), Clear);
    steps := steps + [Act("a", Clear)];
    Acts(env, steps, [], EMPTY.group, STARTING.(phase := Cleared), Read);
    steps := steps + [Act("a", Read)];
  }

  /** A run that shows it: the consumer dies while the reply with its only entry is on the way. */
  lemma DiesWithReply(env: Env, entry: StreamEntry) returns (steps: seq<Step>)
    requires env.max >= 1
    ensures Run(env, steps).Some? && Run(env, steps).value.stream == [entry] && Run(env, steps).value.group.cursor == 1
    ensures Lost(Run(env, steps).value.consumers, 0)
  {
    steps := StartsReading(env);
    var c := STARTING.(phase := Reading(env.max));
    assert [] + [entry] == [entry];
    RunOneMore(env, steps, Add(entry));
    steps := steps + [Add(entry)];
    assert Run(env, steps) == Some(Alone([entry], EMPTY.group, c));
    Acts(env, steps, [entry], EMPTY.group, c, Deliver(1));
    steps := steps + [Act("a", Deliver(1))];
    var c' := STARTING.(phase := Replied(0, 1, env.max));
    Acts(env, steps, [entry], Delivered(EMPTY.group, "a", 1), c', Crash);
    steps := steps + [Act("a", Crash)];
    assert LostBy(c'.(alive := false), 0);
    assert "a" in Run(env, steps).value.consumers;
  }

  /** So a well-formed message can be lost for good. */
  lemma AMessageCanBeLost(env: Env, entry: StreamEntry, message: Json) returns (steps: seq<Step>)
    requires env.max >= 1 && Carries(env, entry.fields, message)
    ensures Run(env, steps).Some? && IsMessage(env, Run(env, steps).value.stream, 0)
    ensures forall more :: !HandledAfter(env, steps + more, 0)
  {
    steps := DiesWithReply(env, entry);
    assert HasMessage(env, entry.fields);
    NeverHandledIffLost(env, steps, 0);
  }
}
