/** No lost wakeup: a parked dispatcher with a queue is woken, out of slots, or armed for the head. */
module PresenceWakeups {
  import opened Common
  import opened DueHeap
  import opened PresenceModel
  import opened PresenceInvariants
  import opened PresenceSteps

  /** The moment, counting the lag between reading the clock and arming the timer, the dispatcher will look again. */
  datatype Alarm = NoAlarm | Alarm(at: nat, lag: nat)

  function AlarmOf(loop: Loop): Alarm {
    match loop
    case Arming(wait, at) => if wait > 0 then Alarm(at + wait, 0) else NoAlarm
    case Parked(deadline, lag) => if deadline.Some? then Alarm(deadline.value, lag) else NoAlarm
    case _ => NoAlarm
  }

  /** Every entry becomes both due and admissible no earlier than the alarm, lag aside. */
  ghost predicate InTime(due: map<Id, Rank>, tokenAt: nat, a: Alarm) {
    a.Alarm? && forall x :: x in due ==> a.at <= Max(due[x].readyAt, tokenAt) + a.lag
  }

  ghost predicate Attended(due: map<Id, Rank>, wake: bool, slots: nat, tokenAt: nat, a: Alarm) {
    due == map[] || wake || slots == WORKERS || InTime(due, tokenAt, a)
  }

  ghost predicate WakeOk(s: State) {
    && (s.loop.Arming? ==> s.loop.at <= s.clock)
    && (!Over(s) && (s.loop.Arming? || s.loop.Parked?) ==>
          Attended(s.reg.due, s.reg.wake, s.pool.slots, s.pool.tokenAt, AlarmOf(s.loop)))
  }

  // ---------------------------------------------------------------- queue changes

  lemma AttendedShrinks(due: map<Id, Rank>, wake: bool, slots: nat, tokenAt: nat, a: Alarm, x: Id)
    requires Attended(due, wake, slots, tokenAt, a)
    ensures Attended(due - {x}, wake, slots, tokenAt, a)
  {}

  /** A requeued entry either becomes the head, which wakes the dispatcher, or waits behind one that is attended. */
  lemma RequeueAttended(p: Reg, x: Id, at: nat, slots: nat, tokenAt: nat, a: Alarm)
    requires x in p.subs && Attended(p.due, p.wake, slots, tokenAt, a)
    ensures Attended(Requeue(p, x, at).due, Requeue(p, x, at).wake, slots, tokenAt, a)
  {
    var q := Requeue(p, x, at);
    RequeueFields(p, x, at);
    if q.due != p.due && !IsHead(q.due, x) && InTime(p.due, tokenAt, a) {
      var y :| y in q.due && Before(q.due[y], q.due[x]);
      assert y in p.due && q.due[y] == p.due[y];
    }
  }

  lemma MarkAttended(p: Reg, x: Id, now: nat, slots: nat, tokenAt: nat, a: Alarm)
    requires x in p.subs && Attended(p.due, p.wake, slots, tokenAt, a)
    ensures Attended(Mark(p, x, now).due, Mark(p, x, now).wake, slots, tokenAt, a)
  {
    if !p.subs[x].reading { RequeueAttended(p, x, now, slots, tokenAt, a); }
  }

  lemma {:induction false} MarkAllAttended(p: Reg, cs: seq<Conn>, now: nat, slots: nat, tokenAt: nat, a: Alarm)
    requires Attended(p.due, p.wake, slots, tokenAt, a)
    ensures Attended(MarkAll(p, cs, now).due, MarkAll(p, cs, now).wake, slots, tokenAt, a)
  {
    if cs != [] {
      MarkAllAttended(p, cs[..|cs|-1], now, slots, tokenAt, a);
      var q, c := MarkAll(p, cs[..|cs|-1], now), cs[|cs|-1];
      if c in q.active && q.active[c] in q.subs { MarkAttended(q, q.active[c], now, slots, tokenAt, a); }
    }
  }

  lemma SubscribeAttended(s: State, c: Conn, spare: Id, revision: int, users: set<string>, now: nat, a: Alarm)
    requires StructOk(s) && spare !in s.reg.subs && Attended(s.reg.due, s.reg.wake, s.pool.slots, s.pool.tokenAt, a)
    ensures var s' := Subscribe(s, c, spare, revision, users, now).0;
            Attended(s'.reg.due, s'.reg.wake, s'.pool.slots, s'.pool.tokenAt, a)
  {
    if Refused(s, c, spare, revision, users).None? {
      var x, q := SubIdOf(s.reg, c, spare), Settled(s.reg, c, spare, revision, users);
      SubOfIs(s.reg, c, spare);
      SettledFields(s.reg, c, spare, revision, users);
      AttendedShrinks(s.reg.due, s.reg.wake, s.pool.slots, s.pool.tokenAt, a, x);
      if users != {} { MarkAttended(q, x, now, s.pool.slots, s.pool.tokenAt, a); }
    }
  }

  lemma UnsubscribeAttended(p: Reg, c: Conn, slots: nat, tokenAt: nat, a: Alarm)
    requires Attended(p.due, p.wake, slots, tokenAt, a)
    ensures Attended(Unsubscribe(p, c).due, Unsubscribe(p, c).wake, slots, tokenAt, a)
  {}

  // ---------------------------------------------------------------- a nonempty queue has a head

  lemma {:induction false} HeadExists(due: map<Id, Rank>)
    requires due != map[]
    ensures exists x :: IsHead(due, x)
    decreases |due|
  {
    var y :| y in due;
    var rest := due - {y};
    assert |rest| < |due| by { assert rest.Keys == due.Keys - {y}; }
    if rest == map[] {
      assert forall z :: z in due ==> z == y by { forall z | z in due ensures z == y { assert z != y ==> z in rest; } }
      assert IsHead(due, y);
    } else {
      HeadExists(rest);
      var h :| IsHead(rest, h);
      assert forall z :: z in due && z != y ==> z in rest && rest[z] == due[z];
      if Before(due[y], due[h]) { assert IsHead(due, y); } else { assert IsHead(due, h); }
    }
  }

  // ---------------------------------------------------------------- dispatch

  /** The duration dispatchOnline returns is the head's next actionable moment, unless nothing but a wake can help. */
  lemma BlockedAttended(s: State, now: nat)
    requires Blocked(s, now).Some? && !Over(s)
    ensures Attended(s.reg.due, s.reg.wake, s.pool.slots, s.pool.tokenAt, AlarmOf(Arming(Blocked(s, now).value, now)))
  {
    if s.reg.due != map[] { HeadExists(s.reg.due); }
  }

  lemma {:induction false} DispatchAttended(s: State, now: nat, tokens: nat -> nat)
    requires StructOk(s) && LiveBut(s, None) && !Over(s)
    ensures var (s', wait) := Dispatch(s, now, tokens);
            && !Over(s') && s'.loop == s.loop && s'.clock == s.clock
            && Attended(s'.reg.due, s'.reg.wake, s'.pool.slots, s'.pool.tokenAt, AlarmOf(Arming(wait, now)))
    decreases |s.reg.due|
  {
    if Blocked(s, now).Some? {
      BlockedAttended(s, now);
    } else {
      QueuedAreSubs(s);
      DispatchTurn(s, now, tokens);
      var x := HeadOf(s.reg.due);
      AdmitStruct(s, x, now, tokens);
      AdmitLive(s, x, now, tokens);
      DispatchAttended(Admit(s, x, now, tokens), now, tokens);
    }
  }

  lemma {:induction false} DispatchOver(s: State, now: nat, tokens: nat -> nat)
    requires Over(s)
    ensures Dispatch(s, now, tokens) == (s, 0)
  {}

  lemma FinishWakes(s: State, job: Job, ok: bool, fate: Fate, now: nat)
    requires job.sub in s.reg.subs && s.pool.slots > 0
    ensures Finish(s, job, ok, fate, now).reg.wake && Finish(s, job, ok, fate, now).loop == s.loop
            && Over(Finish(s, job, ok, fate, now)) == Over(s)
    ensures Finish(s, job, ok, fate, now).clock == now
  {
    var d := Completed(s.(clock := now), job);
    var x := job.sub;
    RequeueFields(SetSub(d.reg, x, d.reg.subs[x].(remark := false)), x,
                  if d.reg.subs[x].remark then now else now + SNAPSHOT_INTERVAL);
  }

  lemma StepWake(s: State, e: Event, tokens: nat -> nat)
    requires StructOk(s) && LiveBut(s, None) && WakeOk(s) && Allowed(s, e)
    ensures WakeOk(Next(s, e, tokens))
  {
    var a := AlarmOf(s.loop);
    var watching := !Over(s) && (s.loop.Arming? || s.loop.Parked?);
    match e
    case SetSubscriptions(c, spare, revision, users, now) =>
      if watching { SubscribeAttended(s, c, spare, revision, users, now, a); }
    case RemoveSubscriptions(c) => if watching { UnsubscribeAttended(s.reg, c, s.pool.slots, s.pool.tokenAt, a); }
    case UsersChanged(_, cs, now) => if watching { MarkAllAttended(s.reg, cs, now, s.pool.slots, s.pool.tokenAt, a); }
    case Pass(now) => if Over(s) { DispatchOver(s, now, tokens); } else { DispatchAttended(s, now, tokens); }
    case FinishRead(job, ok, fate, now) => RunningHasSlot(s, job); FinishWakes(s, job, ok, fate, now);
    case _ =>
  }
}
