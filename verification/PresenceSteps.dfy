/** The scheduler as a machine: one event per critical section or dispatcher move, and what each keeps. */
module PresenceSteps {
  import opened Common
  import opened DueHeap
  import opened PresenceModel
  import opened PresenceInvariants

  datatype Event =
    | SetSubscriptions(c: Conn, spare: Id, revision: int, users: set<string>, now: nat)
    | EndContext(c: Conn)
    | RemoveSubscriptions(c: Conn)
    | UsersChanged(changed: seq<string>, cs: seq<Conn>, now: nat)
    | CloseNode
    | Pass(now: nat) | Arm(now: nat) | WakeUp | TimerFires(now: nat) | Exit(cs: seq<Conn>)
    | TakeJob | FinishRead(job: Job, ok: bool, fate: Fate, now: nat)

  /** Clock readings never go back, revisions are positive, and subscriptions are removed only after a context ended. */
  ghost predicate Allowed(s: State, e: Event) {
    match e
    case SetSubscriptions(_, spare, revision, _, now) => s.clock <= now && spare !in s.reg.subs && revision > 0
    case EndContext(_) => true
    case RemoveSubscriptions(c) => c in s.dead
    case UsersChanged(changed, cs, now) => s.clock <= now && WalkOrder(s.reg.byUser, changed, cs)
    case CloseNode => true
    case Pass(now) => s.clock <= now && s.loop.Dispatching?
    case Arm(now) => s.clock <= now && s.loop.Arming?
    case WakeUp => s.loop.Parked? && s.reg.wake
    case TimerFires(now) => s.clock <= now && s.loop.Parked? && s.loop.deadline.Some? && s.loop.deadline.value <= now
    case Exit(cs) => s.loop.Parked? && IsEnumeration(cs, s.reg.active.Keys)
    case TakeJob => s.pool.jobs != []
    case FinishRead(job, _, _, now) => s.clock <= now && job in s.pool.running
  }

  ghost function Next(s: State, e: Event, tokens: nat -> nat): State
    requires Allowed(s, e)
  {
    match e
    case SetSubscriptions(c, spare, revision, users, now) => Subscribe(s, c, spare, revision, users, now).0
    case EndContext(c) => s.(dead := s.dead + {c})
    case RemoveSubscriptions(c) => s.(reg := Unsubscribe(s.reg, c))
    case UsersChanged(_, cs, now) => MarkChanged(s, cs, now)
    case CloseNode => s.(closing := true)
    case Pass(now) => var (s', wait) := Dispatch(s, now, tokens); s'.(clock := now, loop := Arming(wait, now))
    case Arm(now) =>
      s.(clock := now, loop := Parked(if s.loop.wait > 0 then Some(now + s.loop.wait) else None,
                                      if now >= s.loop.at then now - s.loop.at else 0))
    case WakeUp => s.(reg := s.reg.(wake := false), loop := Dispatching)
    case TimerFires(now) => s.(clock := now, loop := Dispatching)
    case Exit(cs) => s.(stopped := true, reg := DropAll(s.reg, cs), loop := Exited)
    case TakeJob => s.(pool := s.pool.(jobs := s.pool.jobs[1..], running := s.pool.running + {s.pool.jobs[0]}))
    case FinishRead(job, ok, fate, now) =>
      // A running read always has its subscription and its slot (RunningHasSlot).
      if job.sub in s.reg.subs && s.pool.slots > 0 then Finish(s, job, ok, fate, now) else s
  }

  lemma RunningHasSlot(s: State, job: Job)
    requires StructOk(s) && job in s.pool.running
    ensures job.sub in s.reg.subs && s.reg.subs[job.sub].reading && s.pool.slots > 0
  {
    assert job.sub in FlightSet(s.pool.jobs, s.pool.running);
    assert job.sub in ReadingSet(s.reg.subs);
  }

  lemma FinishClock(s: State, job: Job, ok: bool, fate: Fate, now: nat)
    requires job.sub in s.reg.subs && s.pool.slots > 0
    ensures Finish(s, job, ok, fate, now).clock == now
  {}

  // ---------------------------------------------------------------- reads in flight

  lemma SendFlights(subs: Subs, jobs: seq<Job>, running: set<Job>, x: Id, job: Job, o: Sub)
    requires Flights(subs, jobs, running) && x in subs && !subs[x].reading && job.sub == x && o.reading
    ensures Flights(subs[x := o], jobs + [job], running)
  {
    assert x !in FlightSet(jobs, running);
    assert forall b :: b in running ==> b.sub in FlightSet(jobs, running);
    assert forall i :: 0 <= i < |jobs| ==> jobs[i].sub in FlightSet(jobs, running);
    FlightSetSend(jobs, running, job);
    assert ReadingSet(subs[x := o]) == ReadingSet(subs) + {x};
  }

  lemma FlightSetSend(jobs: seq<Job>, running: set<Job>, job: Job)
    ensures FlightSet(jobs + [job], running) == FlightSet(jobs, running) + {job.sub}
  {
    var l, r := FlightSet(jobs + [job], running), FlightSet(jobs, running) + {job.sub};
    forall x | x in r ensures x in l {
      if x == job.sub { assert (jobs + [job])[|jobs|].sub == x; }
      else if exists i :: 0 <= i < |jobs| && jobs[i].sub == x {
        var i :| 0 <= i < |jobs| && jobs[i].sub == x;
        assert (jobs + [job])[i].sub == x;
      }
    }
  }

  lemma TakeFlights(subs: Subs, jobs: seq<Job>, running: set<Job>)
    requires Flights(subs, jobs, running) && jobs != []
    ensures Flights(subs, jobs[1..], running + {jobs[0]}) && jobs[0] !in running
  {}

  lemma EndFlights(subs: Subs, jobs: seq<Job>, running: set<Job>, job: Job, o: Sub)
    requires Flights(subs, jobs, running) && job in running && !o.reading
    ensures Flights(subs[job.sub := o], jobs, running - {job})
  {}

  lemma SameFlights(subs: Subs, subs': Subs, jobs: seq<Job>, running: set<Job>)
    requires Flights(subs, jobs, running)
    requires subs.Keys <= subs'.Keys && (forall y :: y in subs ==> subs'[y].reading == subs[y].reading)
    requires forall y :: y in subs' && y !in subs ==> !subs'[y].reading
    ensures Flights(subs', jobs, running)
  {}

  // ---------------------------------------------------------------- dispatch

  lemma AdmitStruct(s: State, x: Id, now: nat, tokens: nat -> nat)
    requires StructOk(s) && x in s.reg.due && s.pool.slots < WORKERS
    ensures StructOk(Admit(s, x, now, tokens))
  {
    assert Waiting(s.reg.subs[x], x, s.reg.active, s.reg.due[x], s.reg.order);
    var sub := s.reg.subs[x];
    var o := sub.(reading := true, remark := false, nextAttempt := now + MIN_INTERVAL);
    var p := s.reg.(due := s.reg.due - {x});
    assert RegOk(p, s.dead, s.stopped, Over(s)) by {
      QueueShrinks(s.reg.subs, s.reg.active, s.reg.due, s.reg.order, x);
    }
    RowKeeps(p, x, o, s.dead, s.stopped, Over(s));
    SendFlights(s.reg.subs, s.pool.jobs, s.pool.running, x, Job(x, sub.revision, sub.users), o);
  }

  lemma AdmitLive(s: State, x: Id, now: nat, tokens: nat -> nat)
    requires LiveBut(s, None) && x in s.reg.subs
    ensures LiveBut(Admit(s, x, now, tokens), None)
  {}

  /** One turn of dispatchOnline's loop. */
  lemma DispatchTurn(s: State, now: nat, tokens: nat -> nat)
    requires Blocked(s, now).None? && s.reg.due.Keys <= s.reg.subs.Keys
    ensures var x := HeadOf(s.reg.due);
            && IsHead(s.reg.due, x) && s.reg.due[x].readyAt <= now && s.pool.slots != WORKERS && s.pool.tokenAt <= now
               && !Over(s)
            && |Admit(s, x, now, tokens).reg.due| < |s.reg.due|
            && Dispatch(s, now, tokens) == Dispatch(Admit(s, x, now, tokens), now, tokens)
  {}

  lemma QueuedAreSubs(s: State)
    requires StructOk(s)
    ensures s.reg.due.Keys <= s.reg.subs.Keys
  {}

  lemma {:induction false} DispatchStruct(s: State, now: nat, tokens: nat -> nat)
    requires StructOk(s) && LiveBut(s, None)
    ensures StructOk(Dispatch(s, now, tokens).0) && LiveBut(Dispatch(s, now, tokens).0, None)
    decreases |s.reg.due|
  {
    if Blocked(s, now).None? {
      QueuedAreSubs(s);
      DispatchTurn(s, now, tokens);
      var s' := Admit(s, HeadOf(s.reg.due), now, tokens);
      assert StructOk(s') by { AdmitStruct(s, HeadOf(s.reg.due), now, tokens); }
      assert LiveBut(s', None) by { AdmitLive(s, HeadOf(s.reg.due), now, tokens); }
      DispatchStruct(s', now, tokens);
    }
  }

  // ---------------------------------------------------------------- completion

  lemma CompletedStruct(s: State, job: Job)
    requires StructOk(s) && LiveBut(s, None) && job in s.pool.running
    ensures job.sub in s.reg.subs && s.pool.slots > 0
    ensures StructOkBut(Completed(s, job), job.sub) && LiveBut(Completed(s, job), Some(job.sub))
  {
    RunningHasSlot(s, job);
    var x := job.sub;
    var o := s.reg.subs[x].(reading := false);
    assert x in s.reg.due ==> Waiting(s.reg.subs[x], x, s.reg.active, s.reg.due[x], s.reg.order);
    EndFlights(s.reg.subs, s.pool.jobs, s.pool.running, job, o);
    RowOwn(s.reg.subs, s.reg.onlineSub, s.reg.active, x, o);
    RowUnique(s.reg.subs, s.reg.onlineSub, s.dead, s.stopped, x, o);
    RowSets(s.reg.subs, s.reg.active, x, o);
    RowQueue(s.reg.subs, s.reg.active, s.reg.due, s.reg.order, x, o);
  }

  /** StructOk except that x may hold a marker without a read. */
  ghost predicate StructOkBut(s: State, x: Id) {
    && x in s.reg.subs && !s.reg.subs[x].reading
    && Own(s.reg.subs, s.reg.onlineSub, s.reg.active) && Unique(s.reg.subs, s.reg.onlineSub, s.dead, s.stopped)
    && Queue(s.reg.subs, s.reg.active, s.reg.due, s.reg.order)
    && Inverse(SetsOf(s.reg.subs, s.reg.active), s.reg.byUser) && Counted(SetsOf(s.reg.subs, s.reg.active), s.reg.refs)
    && (forall y :: y in s.reg.subs && y != x ==> RemarkOk(s.reg.subs[y], s.dead, Over(s)))
    && (s.reg.subs[x].remark ==> s.reg.subs[x].users != {})
    && Flights(s.reg.subs, s.pool.jobs, s.pool.running) && Slots(s.pool.jobs, s.pool.running, s.pool.slots)
  }

  lemma LiveAgain(
    subs: Subs, active: Owners, due: map<Id, Rank>, dead: set<Conn>, x: Id, subs': Subs, due': map<Id, Rank>)
    requires Live(subs, active, due, dead, Some(x)) && due.Keys <= due'.Keys && subs'.Keys == subs.Keys
    requires forall y :: y in subs ==> subs'[y].reading == subs[y].reading
    requires x in due' || (x in subs' && subs'[x].reading)
    ensures Live(subs', active, due', dead, None)
  {}

  lemma LiveSame(subs: Subs, active: Owners, due: map<Id, Rank>, dead: set<Conn>, subs': Subs, due': map<Id, Rank>)
    requires Live(subs, active, due, dead, None) && due.Keys <= due'.Keys && subs'.Keys == subs.Keys
    requires forall y :: y in subs ==> subs'[y].reading == subs[y].reading
    ensures Live(subs', active, due', dead, None)
  {}

  /** A live current subscription that wants nothing has nothing to lose. */
  lemma UnwantedStruct(s: State, x: Id)
    requires StructOkBut(s, x) && LiveBut(s, Some(x)) && !StillWanted(s, x)
    ensures StructOk(s) && LiveBut(s, None)
  {}

  /** With its marker taken off, the registry is in order again and the requeue keeps it so. */
  lemma RescheduledReg(s: State, x: Id, now: nat)
    requires StructOkBut(s, x) && StillWanted(s, x)
    ensures var q := Rescheduled(s.reg, x, now);
            && RegOk(q, s.dead, s.stopped, Over(s)) && q.active == s.reg.active && x in q.due
               && s.reg.due.Keys <= q.due.Keys
            && q.subs == s.reg.subs[x := s.reg.subs[x].(remark := false)] && q.onlineSub == s.reg.onlineSub
  {
    var o := s.reg.subs[x].(remark := false);
    var p := SetSub(s.reg, x, o);
    var at := if s.reg.subs[x].remark then now else now + SNAPSHOT_INTERVAL;
    assert RegOk(p, s.dead, s.stopped, Over(s)) by {
      RowOwn(s.reg.subs, s.reg.onlineSub, s.reg.active, x, o);
      RowUnique(s.reg.subs, s.reg.onlineSub, s.dead, s.stopped, x, o);
      RowSets(s.reg.subs, s.reg.active, x, o);
      assert x in s.reg.due ==> Waiting(s.reg.subs[x], x, s.reg.active, s.reg.due[x], s.reg.order);
      RowQueue(s.reg.subs, s.reg.active, s.reg.due, s.reg.order, x, o);
    }
    RequeueFields(p, x, at);
    RequeueKeeps(p, x, at, s.dead, s.stopped, Over(s));
  }

  lemma RescheduledStruct(s: State, x: Id, now: nat)
    requires StructOkBut(s, x) && LiveBut(s, Some(x)) && StillWanted(s, x)
    ensures StructOk(s.(reg := Rescheduled(s.reg, x, now))) && LiveBut(s.(reg := Rescheduled(s.reg, x, now)), None)
  {
    RescheduledReg(s, x, now);
    var q := Rescheduled(s.reg, x, now);
    assert Flights(q.subs, s.pool.jobs, s.pool.running) by {
      SameFlights(s.reg.subs, q.subs, s.pool.jobs, s.pool.running);
    }
    LiveAgain(s.reg.subs, s.reg.active, s.reg.due, s.dead, x, q.subs, q.due);
  }

  lemma DeadStruct(s: State, dead: set<Conn>)
    requires StructOk(s) && LiveBut(s, None) && s.dead <= dead
    ensures StructOk(s.(dead := dead)) && LiveBut(s.(dead := dead), None)
  {}

  lemma DeliveredStruct(s: State, job: Job, ok: bool, fate: Fate, now: nat)
    requires StructOk(s) && LiveBut(s, None) && job.sub in s.reg.subs
    ensures StructOk(Delivered(s, job, ok, fate, now)) && LiveBut(Delivered(s, job, ok, fate, now), None)
  {
    var t := s.(reg := SetSub(s.reg, job.sub, s.reg.subs[job.sub].(lastSuccess := now)));
    var c := s.reg.subs[job.sub].client;
    SucceededStruct(s, job.sub, now);
    DeadStruct(s, s.dead + {c});
    DeadStruct(t, s.dead + {c});
  }

  lemma SucceededStruct(s: State, x: Id, now: nat)
    requires StructOk(s) && LiveBut(s, None) && x in s.reg.subs
    ensures var t := s.(reg := SetSub(s.reg, x, s.reg.subs[x].(lastSuccess := now))); StructOk(t) && LiveBut(t, None)
  {
    var o := s.reg.subs[x].(lastSuccess := now);
    var p := SetSub(s.reg, x, o);
    assert RegOk(p, s.dead, s.stopped, Over(s)) by {
      assert x in s.reg.due ==> Waiting(s.reg.subs[x], x, s.reg.active, s.reg.due[x], s.reg.order);
      RowKeeps(s.reg, x, o, s.dead, s.stopped, Over(s));
    }
    assert Flights(p.subs, s.pool.jobs, s.pool.running) by {
      SameFlights(s.reg.subs, p.subs, s.pool.jobs, s.pool.running);
    }
    assert !Over(s) ==> Live(p.subs, s.reg.active, s.reg.due, s.dead, None) by {
      if !Over(s) { LiveSame(s.reg.subs, s.reg.active, s.reg.due, s.dead, p.subs, s.reg.due); }
    }
  }

  lemma ConcludedStruct(s: State, job: Job, ok: bool, fate: Fate, now: nat)
    requires StructOkBut(s, job.sub) && LiveBut(s, Some(job.sub))
    ensures StructOk(Concluded(s, job, ok, fate, now)) && LiveBut(Concluded(s, job, ok, fate, now), None)
  {
    if StillWanted(s, job.sub) {
      RescheduledStruct(s, job.sub, now);
      RescheduledReg(s, job.sub, now);
      DeliveredStruct(s.(reg := Rescheduled(s.reg, job.sub, now)), job, ok, fate, now);
    } else {
      UnwantedStruct(s, job.sub);
    }
  }

  lemma FinishStruct(s: State, job: Job, ok: bool, fate: Fate, now: nat)
    requires StructOk(s) && LiveBut(s, None) && job in s.pool.running
    ensures job.sub in s.reg.subs && s.pool.slots > 0
    ensures StructOk(Finish(s, job, ok, fate, now)) && LiveBut(Finish(s, job, ok, fate, now), None)
  {
    CompletedStruct(s.(clock := now), job);
    ConcludedStruct(Completed(s.(clock := now), job), job, ok, fate, now);
  }

  // ---------------------------------------------------------------- subscribe and mark

  /** What a mark may touch: x's marker, the queue, its counter and the wake flag. */
  ghost predicate Marked(p: Reg, q: Reg, x: Id) {
    && q.onlineSub == p.onlineSub && q.active == p.active && q.byUser == p.byUser && q.refs == p.refs
    && x in p.subs && q.subs.Keys == p.subs.Keys && p.due.Keys <= q.due.Keys
    && (forall y :: y in p.subs ==> q.subs[y] == p.subs[y].(remark := q.subs[y].remark))
    && (x in q.due || q.subs[x].reading)
  }

  lemma MarkIsMarked(p: Reg, x: Id, now: nat)
    requires x in p.subs
    ensures Marked(p, Mark(p, x, now), x)
  {
    if !p.subs[x].reading { RequeueFields(p, x, now); }
  }

  lemma SettledLive(p: Reg, q: Reg, c: Conn, x: Id, o: Sub, o': Sub, users: set<string>, dead: set<Conn>)
    requires Shape(p, q, c, x, o, o', users) && Own(p.subs, p.onlineSub, p.active)
             && Live(p.subs, p.active, p.due, dead, None)
    ensures Live(q.subs, q.active, q.due, dead, Some(x))
  {}

  lemma RowFlights(subs: Subs, x: Id, o: Sub, o': Sub, jobs: seq<Job>, running: set<Job>)
    requires Flights(subs, jobs, running) && (x in subs ==> subs[x] == o) && (x !in subs ==> !o.reading)
             && o'.reading == o.reading
    ensures Flights(subs[x := o'], jobs, running)
  {}

  lemma ShapeFlights(
    p: Reg, q: Reg, c: Conn, x: Id, o: Sub, o': Sub, users: set<string>, jobs: seq<Job>, running: set<Job>)
    requires Shape(p, q, c, x, o, o', users) && Flights(p.subs, jobs, running)
    ensures Flights(q.subs, jobs, running)
  {
    RowFlights(p.subs, x, o, o', jobs, running);
  }

  /** Where the settled set leaves connection c. */
  ghost predicate Placed(q: Reg, c: Conn, x: Id, users: set<string>) {
    x in q.subs && q.subs[x].client == c && (c in q.active <==> users != {}) && (users != {} ==> q.active[c] == x)
  }

  lemma SettledStruct(s: State, c: Conn, spare: Id, revision: int, users: set<string>)
    requires StructOk(s) && LiveBut(s, None) && !Over(s) && CanSettle(s.reg, s.dead, c, spare, users)
    ensures var q := Settled(s.reg, c, spare, revision, users); var x := SubIdOf(s.reg, c, spare);
            StructOk(s.(reg := q)) && Live(q.subs, q.active, q.due, s.dead, Some(x)) && Placed(q, c, x, users)
  {
    var x, o := SubIdOf(s.reg, c, spare), SubOf(s.reg, c, spare);
    var o' := o.(revision := revision, users := users, remark := false, lastSuccess := 0);
    var q := Settled(s.reg, c, spare, revision, users);
    assert RegOk(q, s.dead, false, false) by { SettleKeeps(s.reg, s.dead, c, spare, revision, users); }
    assert Shape(s.reg, q, c, x, o, o', users) by { SettledShape(s.reg, s.dead, c, spare, revision, users); }
    assert Live(q.subs, q.active, q.due, s.dead, Some(x)) by { SettledLive(s.reg, q, c, x, o, o', users, s.dead); }
    assert Flights(q.subs, s.pool.jobs, s.pool.running) by {
      ShapeFlights(s.reg, q, c, x, o, o', users, s.pool.jobs, s.pool.running);
    }
  }

  lemma MarkStruct(s: State, x: Id, now: nat)
    requires StructOk(s) && x in s.reg.subs && s.reg.subs[x].client in s.reg.active
             && s.reg.active[s.reg.subs[x].client] == x
    requires !Over(s) ==> Live(s.reg.subs, s.reg.active, s.reg.due, s.dead, Some(x))
    ensures StructOk(s.(reg := Mark(s.reg, x, now))) && LiveBut(s.(reg := Mark(s.reg, x, now)), None)
  {
    var q := Mark(s.reg, x, now);
    MarkKeeps(s.reg, x, now, s.dead, s.stopped, Over(s));
    MarkIsMarked(s.reg, x, now);
    SameFlights(s.reg.subs, q.subs, s.pool.jobs, s.pool.running);
    if !Over(s) { LiveAgain(s.reg.subs, s.reg.active, s.reg.due, s.dead, x, q.subs, q.due); }
  }

  lemma SubscribeStruct(s: State, c: Conn, spare: Id, revision: int, users: set<string>, now: nat)
    requires StructOk(s) && LiveBut(s, None) && spare !in s.reg.subs
    ensures var s' := Subscribe(s, c, spare, revision, users, now).0; StructOk(s') && LiveBut(s', None)
  {
    if Refused(s, c, spare, revision, users).None? { AcceptedStruct(s, c, spare, revision, users, now); }
  }

  lemma AcceptedStruct(s: State, c: Conn, spare: Id, revision: int, users: set<string>, now: nat)
    requires StructOk(s) && LiveBut(s, None) && !Over(s) && CanSettle(s.reg, s.dead, c, spare, users)
    ensures var q := Settled(s.reg, c, spare, revision, users); var x := SubIdOf(s.reg, c, spare);
            && x in q.subs
            && var t := s.(reg := if users == {} then q else Mark(q, x, now)); StructOk(t) && LiveBut(t, None)
  {
    SettledStruct(s, c, spare, revision, users);
    var x, q := SubIdOf(s.reg, c, spare), Settled(s.reg, c, spare, revision, users);
    if users == {} {
      LiveInactive(q, s.dead, x);
    } else {
      MarkStruct(s.(reg := q), x, now);
    }
  }

  lemma LiveInactive(q: Reg, dead: set<Conn>, x: Id)
    requires Own(q.subs, q.onlineSub, q.active) && Live(q.subs, q.active, q.due, dead, Some(x))
    requires x in q.subs && q.subs[x].client !in q.active
    ensures Live(q.subs, q.active, q.due, dead, None)
  {}

  lemma {:induction false} MarkAllStruct(s: State, cs: seq<Conn>, now: nat)
    requires StructOk(s) && LiveBut(s, None)
    ensures var s' := s.(reg := MarkAll(s.reg, cs, now)); StructOk(s') && LiveBut(s', None)
  {
    if cs != [] {
      MarkAllStruct(s, cs[..|cs|-1], now);
      var t := s.(reg := MarkAll(s.reg, cs[..|cs|-1], now));
      var c := cs[|cs|-1];
      if c in t.reg.active && t.reg.active[c] in t.reg.subs {
        MarkStruct(t, t.reg.active[c], now);
      }
    }
  }

  // ---------------------------------------------------------------- the other sections

  /** c's subscription leaves the queue and active; no read starts or ends. */
  ghost predicate Forgotten(p: Reg, q: Reg, c: Conn) {
    && c in p.onlineSub && q.active == p.active - {c} && q.due == p.due - {p.onlineSub[c]}
    && q.subs.Keys == p.subs.Keys && forall y :: y in p.subs ==> q.subs[y].reading == p.subs[y].reading
  }

  lemma UnsubscribeForgets(p: Reg, c: Conn)
    requires c in p.onlineSub && p.onlineSub[c] in p.subs && p.subs[p.onlineSub[c]].client == c
    ensures Forgotten(p, Unsubscribe(p, c), c)
  {}

  lemma ForgetLive(p: Reg, q: Reg, c: Conn, dead: set<Conn>)
    requires Own(p.subs, p.onlineSub, p.active) && Live(p.subs, p.active, p.due, dead, None) && Forgotten(p, q, c)
    ensures Live(q.subs, q.active, q.due, dead, None)
  {}

  lemma ForgottenStruct(s: State, q: Reg, c: Conn)
    requires StructOk(s) && LiveBut(s, None) && RegOk(q, s.dead, s.stopped, Over(s)) && Forgotten(s.reg, q, c)
    ensures StructOk(s.(reg := q)) && LiveBut(s.(reg := q), None)
  {
    SameFlights(s.reg.subs, q.subs, s.pool.jobs, s.pool.running);
    if !Over(s) { ForgetLive(s.reg, q, c, s.dead); }
  }

  lemma UnsubscribeStruct(s: State, c: Conn)
    requires StructOk(s) && LiveBut(s, None) && (s.stopped || c in s.dead)
    ensures var s' := s.(reg := Unsubscribe(s.reg, c)); StructOk(s') && LiveBut(s', None)
  {
    if c in s.reg.onlineSub {
      UnsubscribeKeeps(s.reg, c, s.dead, s.stopped, Over(s));
      UnsubscribeForgets(s.reg, c);
      ForgottenStruct(s, Unsubscribe(s.reg, c), c);
    }
  }

  lemma {:induction false} DropAllReading(p: Reg, cs: seq<Conn>)
    ensures DropAll(p, cs).subs.Keys == p.subs.Keys
    ensures forall y :: y in p.subs ==> DropAll(p, cs).subs[y].reading == p.subs[y].reading
  {
    if cs != [] {
      DropAllReading(p, cs[..|cs|-1]);
      var q, c := DropAll(p, cs[..|cs|-1]), cs[|cs|-1];
      if c in q.active && q.active[c] in q.subs { DropFields(q, q.active[c]); }
    }
  }

  lemma ExitStruct(s: State, cs: seq<Conn>)
    requires StructOk(s)
    ensures StructOk(s.(stopped := true, reg := DropAll(s.reg, cs), loop := Exited))
  {
    assert RegOk(s.reg, s.dead, true, true);
    DropAllKeeps(s.reg, cs, s.dead);
    DropAllReading(s.reg, cs);
    SameFlights(s.reg.subs, DropAll(s.reg, cs).subs, s.pool.jobs, s.pool.running);
  }

  /** Every event keeps the whole structure, and a running node loses no live subscription. */
  lemma StepStruct(s: State, e: Event, tokens: nat -> nat)
    requires StructOk(s) && LiveBut(s, None) && Allowed(s, e)
    ensures StructOk(Next(s, e, tokens)) && LiveBut(Next(s, e, tokens), None)
  {
    match e
    case SetSubscriptions(c, spare, revision, users, now) => SubscribeStruct(s, c, spare, revision, users, now);
    case EndContext(c) =>
    case RemoveSubscriptions(c) => UnsubscribeStruct(s, c);
    case UsersChanged(_, cs, now) => MarkAllStruct(s, cs, now);
    case CloseNode =>
    case Pass(now) => DispatchStruct(s, now, tokens);
    case Arm(now) =>
    case WakeUp =>
    case TimerFires(now) =>
    case Exit(cs) => ExitStruct(s, cs);
    case TakeJob => TakeFlights(s.reg.subs, s.pool.jobs, s.pool.running);
    case FinishRead(job, ok, fate, now) => FinishStruct(s, job, ok, fate, now);
  }
}
