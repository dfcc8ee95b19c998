/**
 The registry of Redis clients, one per logical database, shared by all goroutines under a read/write lock.
 A call looks under the read lock, and again under the write lock before it dials.
 */
module ClientRegistry {
  import opened Wrappers

  type Db = int
  type Client = nat
  type CallId = nat

  /** Where a call stands. `epoch` counts the completed `CloseAll` calls at the moment the client was found. */
  datatype Phase =
    | Entered(db: Db)
    | ReadLocked(db: Db)
    | ReadHit(db: Db, client: Client, epoch: nat)
    | ReadMiss(db: Db)
    | Missed(db: Db)
    | WriteLocked(db: Db)
    | Dialed(db: Db, client: Client)
    | WriteHit(db: Db, client: Client, epoch: nat)
    | PingFailed(db: Db)
    | Returned(db: Db, client: Client, epoch: nat)
    | ReturnedError(db: Db)
    | CloseEntered
    | CloseLocked
    | Emptied
    | CloseReturned

  datatype Registration = Registration(epoch: nat, db: Db, client: Client)

  /** `log` is history: every registration ever made. */
  datatype State = State(
    clients: map<Db, Client>,
    readers: set<CallId>,
    writer: Option<CallId>,
    calls: map<CallId, Phase>,
    dialed: nat,
    closed: set<Client>,
    epoch: nat,
    log: seq<Registration>)

  datatype Step =
    | Call(call: CallId, db: Db)
    | CallClose(call: CallId)
    | RLock(call: CallId)
    | Look(call: CallId)
    | RUnlock(call: CallId)
    | Lock(call: CallId)
    | Check(call: CallId)
    | Ping(call: CallId, ok: bool)
    | Empty(call: CallId)
    | Unlock(call: CallId)

  const INITIAL := State(map[], {}, None, map[], 0, {}, 0, [])

  predicate Enabled(s: State, step: Step) {
    var c := step.call;
    if step.Call? || step.CallClose? then c !in s.calls
    else
      c in s.calls &&
      match step
      case RLock(_) => s.calls[c].Entered? && s.writer.None?
      case Look(_) => s.calls[c].ReadLocked?
      case RUnlock(_) => s.calls[c].ReadHit? || s.calls[c].ReadMiss?
      case Lock(_) => (s.calls[c].Missed? || s.calls[c].CloseEntered?) && s.writer.None? && s.readers == {}
      case Check(_) => s.calls[c].WriteLocked?
      case Ping(_, _) => s.calls[c].Dialed?
      case Empty(_) => s.calls[c].CloseLocked?
      case Unlock(_) => s.calls[c].WriteHit? || s.calls[c].PingFailed? || s.calls[c].Emptied?
      case _ => false
  }

  function ClientsOf(clients: map<Db, Client>): set<Client> {
    set db | db in clients :: clients[db]
  }

  function Next(s: State, step: Step): State
    requires Enabled(s, step)
  {
    var c := step.call;
    match step
    case Call(_, db) => s.(calls := s.calls[c := Entered(db)])
    case CallClose(_) => s.(calls := s.calls[c := CloseEntered])
    case RLock(_) => s.(readers := s.readers + {c}, calls := s.calls[c := ReadLocked(s.calls[c].db)])
    case Look(_) =>
      var db := s.calls[c].db;
      s.(calls := s.calls[c := if db in s.clients then ReadHit(db, s.clients[db], s.epoch) else ReadMiss(db)])
    case RUnlock(_) =>
      var p := s.calls[c];
      s.(readers := s.readers - {c},
         calls := s.calls[c := if p.ReadHit? then Returned(p.db, p.client, p.epoch) else Missed(p.db)])
    case Lock(_) =>
      s.(writer := Some(c),
         calls := s.calls[c := if s.calls[c].Missed? then WriteLocked(s.calls[c].db) else CloseLocked])
    case Check(_) =>
      var db := s.calls[c].db;
      if db in s.clients then s.(calls := s.calls[c := WriteHit(db, s.clients[db], s.epoch)])
      else s.(dialed := s.dialed + 1, calls := s.calls[c := Dialed(db, s.dialed)])
    case Ping(_, ok) =>
      var p := s.calls[c];
      if ok then
        s.(clients := s.clients[p.db := p.client],
           log := s.log + [Registration(s.epoch, p.db, p.client)],
           calls := s.calls[c := WriteHit(p.db, p.client, s.epoch)])
      else s.(calls := s.calls[c := PingFailed(p.db)])
    case Empty(_) =>
      s.(clients := map[], closed := s.closed + ClientsOf(s.clients), epoch := s.epoch + 1, calls := s.calls[c := Emptied])
    case Unlock(_) =>
      var p := s.calls[c];
      s.(writer := None,
         calls := s.calls[c := if p.WriteHit? then Returned(p.db, p.client, p.epoch)
                               else if p.PingFailed? then ReturnedError(p.db) else CloseReturned])
  }

  function Run(steps: seq<Step>): Option<State> {
    if steps == [] then Some(INITIAL)
    else
      var before, step := Run(steps[..|steps| - 1]), steps[|steps| - 1];
      if before.Some? && Enabled(before.value, step) then Some(Next(before.value, step)) else None
  }

  // ---------------------------------------------------------------- invariant

  predicate HoldsRead(p: Phase) {
    p.ReadLocked? || p.ReadHit? || p.ReadMiss?
  }

  predicate HoldsWrite(p: Phase) {
    p.WriteLocked? || p.Dialed? || p.WriteHit? || p.PingFailed? || p.CloseLocked? || p.Emptied?
  }

  predicate Found(p: Phase) {
    p.ReadHit? || p.WriteHit? || p.Returned?
  }

  ghost predicate LocksOk(s: State) {
    && (forall c :: c in s.readers <==> c in s.calls && HoldsRead(s.calls[c]))
    && (forall c :: s.writer == Some(c) <==> c in s.calls && HoldsWrite(s.calls[c]))
    && (s.writer.Some? ==> s.readers == {})
  }

  /** The registry holds what was registered since the last `CloseAll`. */
  ghost predicate ClientsOk(clients: map<Db, Client>, epoch: nat, log: seq<Registration>) {
    && (forall r :: r in log ==> r.epoch <= epoch)
    && (forall r :: r in log && r.epoch == epoch ==> r.db in clients)
    && (forall db :: db in clients ==> Registration(epoch, db, clients[db]) in log)
  }

  /** One registration per database and epoch, and every registration of another client. */
  ghost predicate LogOk(log: seq<Registration>, dialed: nat) {
    && (forall i, j :: 0 <= i < j < |log| ==> !(log[i].epoch == log[j].epoch && log[i].db == log[j].db))
    && (forall i, j :: 0 <= i < j < |log| ==> log[i].client != log[j].client)
    && (forall r :: r in log ==> r.client < dialed)
  }

  ghost predicate CallOk(s: State, p: Phase) {
    && (Found(p) ==> Registration(p.epoch, p.db, p.client) in s.log)
    && (p.Dialed? ==> p.db !in s.clients && p.client < s.dialed && forall r :: r in s.log ==> r.client != p.client)
  }

  ghost predicate CallsOk(s: State) {
    forall c :: c in s.calls ==> CallOk(s, s.calls[c])
  }

  /** The clients closed are exactly those registered before the last `CloseAll`. */
  ghost predicate ClosedOk(s: State) {
    && (forall k :: k in s.closed ==> exists r :: r in s.log && r.client == k && r.epoch < s.epoch)
    && forall r :: r in s.log && r.epoch < s.epoch ==> r.client in s.closed
  }

  ghost predicate Inv(s: State) {
    LocksOk(s) && ClientsOk(s.clients, s.epoch, s.log) && LogOk(s.log, s.dialed) && CallsOk(s) && ClosedOk(s)
  }

  lemma LocksKept(s: State, step: Step)
    requires LocksOk(s) && Enabled(s, step)
    ensures LocksOk(Next(s, step))
  {
    if step.Lock? {
      forall c | c in s.calls ensures !HoldsWrite(s.calls[c]) { assert s.writer != Some(c); }
    }
  }

  lemma OnlyWriter(s: State, c: CallId, d: CallId)
    requires LocksOk(s) && c in s.calls && d in s.calls && HoldsWrite(s.calls[c]) && HoldsWrite(s.calls[d])
    ensures c == d
  {
    assert s.writer == Some(c) && s.writer == Some(d);
  }

  lemma Register(s: State, c: CallId)
    requires Inv(s) && Enabled(s, Ping(c, true))
    ensures var s' := Next(s, Ping(c, true)); ClientsOk(s'.clients, s'.epoch, s'.log) && LogOk(s'.log, s'.dialed)
  {
    assert CallOk(s, s.calls[c]);
  }

  lemma CallKept(s: State, step: Step, c: CallId)
    requires Inv(s) && Enabled(s, step) && c in Next(s, step).calls
    ensures CallOk(Next(s, step), Next(s, step).calls[c])
  {
    assert step.call in s.calls ==> CallOk(s, s.calls[step.call]);
    if c != step.call {
      assert CallOk(s, s.calls[c]);
      if s.calls[c].Dialed? && step.call in s.calls && HoldsWrite(s.calls[step.call]) { OnlyWriter(s, c, step.call); }
    }
  }

  lemma ClosedKept(s: State, step: Step)
    requires Inv(s) && Enabled(s, step)
    ensures ClosedOk(Next(s, step))
  {
    var s' := Next(s, step);
    forall k | k in s'.closed ensures exists r :: r in s'.log && r.client == k && r.epoch < s'.epoch {
      if k in s.closed {
        var r :| r in s.log && r.client == k && r.epoch < s.epoch;
        assert r in s'.log;
      } else {
        var db :| db in s.clients && s.clients[db] == k;
        assert Registration(s.epoch, db, k) in s'.log;
      }
    }
    forall r | r in s'.log && r.epoch < s'.epoch ensures r.client in s'.closed {
      if r.epoch == s.epoch { RegisteredIsCurrent(s, r); }
    }
  }

  lemma InvKept(s: State, step: Step)
    requires Inv(s) && Enabled(s, step)
    ensures Inv(Next(s, step))
  {
    LocksKept(s, step);
    if step.Ping? && step.ok { Register(s, step.call); }
    forall c | c in Next(s, step).calls ensures CallOk(Next(s, step), Next(s, step).calls[c]) { CallKept(s, step, c); }
    ClosedKept(s, step);
  }

  lemma {:induction false} EveryRunKeepsInv(steps: seq<Step>)
    requires Run(steps).Some?
    ensures Inv(Run(steps).value)
  {
    if steps != [] {
      EveryRunKeepsInv(steps[..|steps| - 1]);
      InvKept(Run(steps[..|steps| - 1]).value, steps[|steps| - 1]);
    }
  }

  // ---------------------------------------------------------------- theorems

  /** Nobody reads or writes the registry beside a writer. */
  lemma MutualExclusion(steps: seq<Step>, c: CallId, d: CallId)
    requires Run(steps).Some? && c in Run(steps).value.calls && d in Run(steps).value.calls
    requires HoldsWrite(Run(steps).value.calls[c])
    ensures HoldsWrite(Run(steps).value.calls[d]) ==> c == d
    ensures !HoldsRead(Run(steps).value.calls[d])
  {
    EveryRunKeepsInv(steps);
    var s := Run(steps).value;
    assert s.writer == Some(c);
    if HoldsWrite(s.calls[d]) { OnlyWriter(s, c, d); }
    assert HoldsRead(s.calls[d]) <==> d in s.readers;
  }

  /** Between two `CloseAll` calls at most one client is registered for a database. */
  lemma OneRegistrationPerEpoch(steps: seq<Step>, i: nat, j: nat)
    requires Run(steps).Some? && i < j < |Run(steps).value.log|
    ensures var log := Run(steps).value.log;
            (log[i].epoch != log[j].epoch || log[i].db != log[j].db) && log[i].client != log[j].client
  {
    EveryRunKeepsInv(steps);
  }

  /** All successful callers for a database in one epoch return the same client; callers apart get different ones. */
  lemma CallersShareTheClient(steps: seq<Step>, c: CallId, d: CallId)
    requires Run(steps).Some? && c in Run(steps).value.calls && d in Run(steps).value.calls
    requires Run(steps).value.calls[c].Returned? && Run(steps).value.calls[d].Returned?
    ensures var p, q := Run(steps).value.calls[c], Run(steps).value.calls[d];
            p.client == q.client <==> p.db == q.db && p.epoch == q.epoch
  {
    EveryRunKeepsInv(steps);
    var s := Run(steps).value;
    var p, q := s.calls[c], s.calls[d];
    assert CallOk(s, p) && CallOk(s, q);
    if p.client == q.client || (p.db == q.db && p.epoch == q.epoch) {
      SameRegistration(s.log, s.dialed, Registration(p.epoch, p.db, p.client), Registration(q.epoch, q.db, q.client));
    }
  }

  /** A client found since the last `CloseAll` is the one still registered and is open; one found before is closed. */
  lemma CurrentClientIsOpen(steps: seq<Step>, c: CallId)
    requires Run(steps).Some? && c in Run(steps).value.calls && Found(Run(steps).value.calls[c])
    ensures var s, p := Run(steps).value, Run(steps).value.calls[c];
            && (p.epoch == s.epoch ==> p.db in s.clients && s.clients[p.db] == p.client && p.client !in s.closed)
            && (p.epoch != s.epoch ==> p.client in s.closed)
  {
    EveryRunKeepsInv(steps);
    var s := Run(steps).value;
    var p := s.calls[c];
    assert CallOk(s, p);
    if p.epoch == s.epoch {
      RegisteredIsCurrent(s, Registration(p.epoch, p.db, p.client));
    }
  }

  lemma SameRegistration(log: seq<Registration>, dialed: nat, r: Registration, q: Registration)
    requires LogOk(log, dialed) && r in log && q in log && ((r.epoch == q.epoch && r.db == q.db) || r.client == q.client)
    ensures r == q
  {
    var i :| 0 <= i < |log| && log[i] == r;
    var j :| 0 <= j < |log| && log[j] == q;
  }

  lemma RegisteredIsCurrent(s: State, r: Registration)
    requires Inv(s) && r in s.log && r.epoch == s.epoch
    ensures r.db in s.clients && s.clients[r.db] == r.client && r.client !in s.closed
  {
    SameRegistration(s.log, s.dialed, r, Registration(s.epoch, r.db, s.clients[r.db]));
    if r.client in s.closed {
      var q :| q in s.log && q.client == r.client && q.epoch < s.epoch;
      SameRegistration(s.log, s.dialed, r, q);
    }
  }

  predicate Finished(p: Phase) {
    p.Returned? || p.ReturnedError? || p.CloseReturned?
  }

  ghost predicate CanStep(s: State) {
    exists step: Step :: !step.Call? && !step.CallClose? && Enabled(s, step)
  }

  lemma Does(s: State, step: Step)
    requires !step.Call? && !step.CallClose? && Enabled(s, step)
    ensures CanStep(s)
  {}

  function HolderStep(c: CallId, p: Phase): Step
    requires HoldsRead(p) || HoldsWrite(p)
  {
    match p
    case ReadLocked(_) => Look(c)
    case WriteLocked(_) => Check(c)
    case Dialed(_, _) => Ping(c, true)
    case CloseLocked => Empty(c)
    case _ => if HoldsRead(p) then RUnlock(c) else Unlock(c)
  }

  /** Nobody is left waiting for ever: while a call is unfinished, some call can go on. */
  lemma NoDeadlock(steps: seq<Step>, c: CallId)
    requires Run(steps).Some? && c in Run(steps).value.calls && !Finished(Run(steps).value.calls[c])
    ensures CanStep(Run(steps).value)
  {
    EveryRunKeepsInv(steps);
    var s := Run(steps).value;
    if s.writer.Some? {
      Does(s, HolderStep(s.writer.value, s.calls[s.writer.value]));
    } else if s.readers != {} {
      var r :| r in s.readers;
      Does(s, HolderStep(r, s.calls[r]));
    } else {
      assert c !in s.readers && s.writer != Some(c);
      Does(s, if s.calls[c].Entered? then RLock(c) else Lock(c));
    }
  }

  // ---------------------------------------------------------------- one call at a time

  lemma SomeDb(dbs: set<Db>)
    requires dbs != {}
    ensures exists db :: db in dbs
  {
    assert (forall db :: db !in dbs) ==> dbs == {};
  }

  datatype PingError = PingError

  class Registry {
    var clients: map<Db, Client>
    var dialed: nat
    var closed: set<Client>

    constructor ()
      ensures clients == map[] && dialed == 0 && closed == {}
    {
      clients, dialed, closed := map[], 0, {};
    }

    ghost predicate Valid()
      reads this
    {
      && (forall db :: db in clients ==> clients[db] < dialed && clients[db] !in closed)
      && (forall db, db' :: db in clients && db' in clients && clients[db] == clients[db'] ==> db == db')
      && (forall k :: k in closed ==> k < dialed)
    }

    /** Under the read lock. */
    method Look(db: Db) returns (found: Option<Client>)
      ensures found == if db in clients then Some(clients[db]) else None
    {
      found := if db in clients then Some(clients[db]) else None;
    }

    /** Under the write lock, which may have been waited for while another call registered a client. */
    method Dial(db: Db, answers: bool) returns (r: Result<Client, PingError>)
      requires Valid()
      modifies this
      ensures Valid()
      ensures r == if db in old(clients) then Ok(old(clients)[db]) else if answers then Ok(old(dialed)) else Err(PingError)
      ensures clients == if r.Ok? then old(clients)[db := r.value] else old(clients)
      ensures dialed == (if db in old(clients) then old(dialed) else old(dialed) + 1) && closed == old(closed)
    {
      if db in clients {
        return Ok(clients[db]);
      }
      var client := dialed;
      dialed := dialed + 1;
      if !answers {
        return Err(PingError);
      }
      clients := clients[db := client];
      return Ok(client);
    }

    method NewClient(db: Db, answers: bool) returns (r: Result<Client, PingError>)
      requires Valid()
      modifies this
      ensures Valid()
      ensures r == if db in old(clients) then Ok(old(clients)[db]) else if answers then Ok(old(dialed)) else Err(PingError)
      ensures clients == if r.Ok? then old(clients)[db := r.value] else old(clients)
      ensures dialed == (if db in old(clients) then old(dialed) else old(dialed) + 1) && closed == old(closed)
    {
      var found := Look(db);
      if found.Some? {
        return Ok(found.value);
      }
      r := Dial(db, answers);
    }

    method CloseAll()
      requires Valid()
      modifies this
      ensures Valid()
      ensures clients == map[] && dialed == old(dialed)
      ensures forall k :: k in closed <==> k in old(closed) || exists db :: db in old(clients) && old(clients)[db] == k
    {
      var all := clients;
      var left := all.Keys;
      while left != {}
        invariant left <= all.Keys && clients == all && dialed == old(dialed)
        invariant closed == old(closed) + set db | db in all && db !in left :: all[db]
        decreases |left|
      {
        SomeDb(left);
        var db :| db in left;
        closed := closed + {all[db]};
        left := left - {db};
      }
      clients := map[];
    }
  }
}
