/** The minimum interval between admissions, and the clocks, clamps and revisions that never go back. */
module PresenceTiming {
  import opened Common
  import opened DueHeap
  import opened PresenceModel
  import opened PresenceInvariants
  import opened PresenceSteps

  // ---------------------------------------------------------------- rows only move forward

  predicate RowMoves(a: Sub, b: Sub) {
    b.client == a.client && a.nextAttempt <= b.nextAttempt && a.revision <= b.revision
  }

  /** Subscription objects are never dropped, keep their connection, and their clamp and revision never go back. */
  ghost predicate Evolves(subs: Subs, subs': Subs) {
    forall x :: x in subs ==> x in subs' && RowMoves(subs[x], subs'[x])
  }

  lemma EvolvesTransitive(a: Subs, b: Subs, c: Subs)
    requires Evolves(a, b) && Evolves(b, c)
    ensures Evolves(a, c)
  {}

  lemma MarkEvolves(p: Reg, x: Id, now: nat)
    requires x in p.subs
    ensures Evolves(p.subs, Mark(p, x, now).subs)
  {
    MarkIsMarked(p, x, now);
  }

  lemma {:induction false} MarkAllEvolves(p: Reg, cs: seq<Conn>, now: nat)
    ensures Evolves(p.subs, MarkAll(p, cs, now).subs)
  {
    if cs != [] {
      MarkAllEvolves(p, cs[..|cs|-1], now);
      var q, c := MarkAll(p, cs[..|cs|-1], now), cs[|cs|-1];
      if c in q.active && q.active[c] in q.subs {
        MarkEvolves(q, q.active[c], now);
        EvolvesTransitive(p.subs, q.subs, Mark(q, q.active[c], now).subs);
      }
    }
  }

  lemma RowEvolves(subs: Subs, x: Id, o: Sub)
    requires x in subs ==> RowMoves(subs[x], o)
    ensures Evolves(subs, subs[x := o])
  {}

  lemma SettledEvolves(p: Reg, c: Conn, spare: Id, revision: int, users: set<string>)
    requires Own(p.subs, p.onlineSub, p.active) && (c in p.onlineSub || spare !in p.subs)
             && SubOf(p, c, spare).revision <= revision
    ensures Evolves(p.subs, Settled(p, c, spare, revision, users).subs)
            && SubIdOf(p, c, spare) in Settled(p, c, spare, revision, users).subs
  {
    var x, o := SubIdOf(p, c, spare), SubOf(p, c, spare);
    SubOfIs(p, c, spare);
    SettledFields(p, c, spare, revision, users);
    RowEvolves(p.subs, x, o.(revision := revision, users := users, remark := false, lastSuccess := 0));
  }

  lemma SubscribeEvolves(s: State, c: Conn, spare: Id, revision: int, users: set<string>, now: nat)
    requires Own(s.reg.subs, s.reg.onlineSub, s.reg.active) && spare !in s.reg.subs
    ensures Evolves(s.reg.subs, Subscribe(s, c, spare, revision, users, now).0.reg.subs)
  {
    if Refused(s, c, spare, revision, users).None? { AcceptedEvolves(s.reg, c, spare, revision, users, now); }
  }

  lemma AcceptedEvolves(p: Reg, c: Conn, spare: Id, revision: int, users: set<string>, now: nat)
    requires Own(p.subs, p.onlineSub, p.active) && (c in p.onlineSub || spare !in p.subs)
             && SubOf(p, c, spare).revision < revision
    ensures var q := Settled(p, c, spare, revision, users); var x := SubIdOf(p, c, spare);
            x in q.subs && Evolves(p.subs, (if users == {} then q else Mark(q, x, now)).subs)
  {
    var x, q := SubIdOf(p, c, spare), Settled(p, c, spare, revision, users);
    SettledEvolves(p, c, spare, revision, users);
    if users != {} {
      MarkEvolves(q, x, now);
      EvolvesTransitive(p.subs, q.subs, Mark(q, x, now).subs);
    }
  }

  lemma {:induction false} DropAllEvolves(p: Reg, cs: seq<Conn>)
    ensures Evolves(p.subs, DropAll(p, cs).subs)
  {
    if cs != [] {
      DropAllEvolves(p, cs[..|cs|-1]);
      var q, c := DropAll(p, cs[..|cs|-1]), cs[|cs|-1];
      if c in q.active && q.active[c] in q.subs { DropFields(q, q.active[c]); }
    }
  }

  /** Only x's row differs, and only in its marker and last success. */
  ghost predicate OneRow(subs: Subs, q: Subs, x: Id) {
    && x in subs && q.Keys == subs.Keys && (forall y :: y in q && y != x ==> q[y] == subs[y])
    && q[x] == subs[x].(remark := q[x].remark, lastSuccess := q[x].lastSuccess)
  }

  lemma RescheduledRow(p: Reg, x: Id, now: nat)
    requires x in p.subs
    ensures OneRow(p.subs, Rescheduled(p, x, now).subs, x)
  {
    RequeueFields(SetSub(p, x, p.subs[x].(remark := false)), x,
                  if p.subs[x].remark then now else now + SNAPSHOT_INTERVAL);
  }

  lemma DeliveredRow(s: State, job: Job, ok: bool, fate: Fate, now: nat)
    requires job.sub in s.reg.subs
    ensures OneRow(s.reg.subs, Delivered(s, job, ok, fate, now).reg.subs, job.sub)
  {
    var o := s.reg.subs[job.sub];
    assert OneRow(s.reg.subs, s.reg.subs, job.sub)
      && OneRow(s.reg.subs, s.reg.subs[job.sub := o.(lastSuccess := now)], job.sub);
  }

  lemma ConcludedRow(s: State, job: Job, ok: bool, fate: Fate, now: nat)
    requires job.sub in s.reg.subs
    ensures OneRow(s.reg.subs, Concluded(s, job, ok, fate, now).reg.subs, job.sub)
  {
    RescheduledRow(s.reg, job.sub, now);
    if StillWanted(s, job.sub) { DeliveredRow(s.(reg := Rescheduled(s.reg, job.sub, now)), job, ok, fate, now); }
  }

  lemma FinishEvolves(s: State, job: Job, ok: bool, fate: Fate, now: nat)
    requires job.sub in s.reg.subs && s.pool.slots > 0
    ensures Evolves(s.reg.subs, Finish(s, job, ok, fate, now).reg.subs)
  {
    ConcludedRow(Completed(s.(clock := now), job), job, ok, fate, now);
  }

  // ---------------------------------------------------------------- minimum interval

  /** The admitted connection's subscription will not be due before its interval is over. */
  ghost predicate Spaced(subs: Subs, a: (Conn, nat)) {
    exists x :: x in subs && subs[x].client == a.0 && a.1 + MIN_INTERVAL <= subs[x].nextAttempt
  }

  ghost predicate TimeOk(subs: Subs, admitted: seq<(Conn, nat)>, now: nat) {
    && (forall i :: 0 <= i < |admitted| ==> Spaced(subs, admitted[i]) && admitted[i].1 <= now)
    && (forall i, j :: 0 <= i < j < |admitted| && admitted[i].0 == admitted[j].0 ==>
         admitted[i].1 + MIN_INTERVAL <= admitted[j].1)
  }

  lemma TimeEvolves(subs: Subs, subs': Subs, admitted: seq<(Conn, nat)>, now: nat, now': nat)
    requires TimeOk(subs, admitted, now) && Evolves(subs, subs') && now <= now'
    ensures TimeOk(subs', admitted, now')
  {}

  /** Every earlier admission of the connection is at least the interval ago. */
  lemma DueIsSpaced(s: State, x: Id, now: nat, a: (Conn, nat))
    requires StructOk(s) && x in s.reg.due && s.reg.due[x].readyAt <= now && Spaced(s.reg.subs, a)
             && s.reg.subs[x].client == a.0
    ensures a.1 + MIN_INTERVAL <= now
  {}

  lemma AdmitTime(s: State, x: Id, now: nat, tokens: nat -> nat)
    requires StructOk(s) && x in s.reg.due && s.reg.due[x].readyAt <= now && TimeOk(s.reg.subs, s.hist.admitted, now)
    ensures var s' := Admit(s, x, now, tokens);
            Evolves(s.reg.subs, s'.reg.subs) && TimeOk(s'.reg.subs, s'.hist.admitted, now)
  {
    assert Waiting(s.reg.subs[x], x, s.reg.active, s.reg.due[x], s.reg.order);
    var c, o := s.reg.subs[x].client,
      s.reg.subs[x].(reading := true, remark := false, nextAttempt := now + MIN_INTERVAL);
    RowEvolves(s.reg.subs, x, o);
    forall i | 0 <= i < |s.hist.admitted| && s.hist.admitted[i].0 == c
      ensures s.hist.admitted[i].1 + MIN_INTERVAL <= now
    {
      DueIsSpaced(s, x, now, s.hist.admitted[i]);
    }
    TimeAdmits(s.reg.subs, s.hist.admitted, now, x, o);
  }

  lemma TimeAdmits(subs: Subs, admitted: seq<(Conn, nat)>, now: nat, x: Id, o: Sub)
    requires TimeOk(subs, admitted, now) && Evolves(subs, subs[x := o]) && o.nextAttempt == now + MIN_INTERVAL
    requires forall i :: 0 <= i < |admitted| && admitted[i].0 == o.client ==> admitted[i].1 + MIN_INTERVAL <= now
    ensures TimeOk(subs[x := o], admitted + [(o.client, now)], now)
  {
    TimeEvolves(subs, subs[x := o], admitted, now, now);
    assert subs[x := o][x].client == o.client;
    assert Spaced(subs[x := o], (o.client, now));
  }

  lemma {:induction false} DispatchTime(s: State, now: nat, tokens: nat -> nat)
    requires StructOk(s) && LiveBut(s, None) && TimeOk(s.reg.subs, s.hist.admitted, now)
    ensures var s' := Dispatch(s, now, tokens).0;
            Evolves(s.reg.subs, s'.reg.subs) && TimeOk(s'.reg.subs, s'.hist.admitted, now)
    decreases |s.reg.due|
  {
    if Blocked(s, now).None? {
      QueuedAreSubs(s);
      DispatchTurn(s, now, tokens);
      var x := HeadOf(s.reg.due);
      var s' := Admit(s, x, now, tokens);
      assert StructOk(s') by { AdmitStruct(s, x, now, tokens); }
      assert LiveBut(s', None) by { AdmitLive(s, x, now, tokens); }
      AdmitTime(s, x, now, tokens);
      DispatchTime(s', now, tokens);
      EvolvesTransitive(s.reg.subs, s'.reg.subs, Dispatch(s', now, tokens).0.reg.subs);
    }
  }

  lemma StepClock(s: State, e: Event, tokens: nat -> nat)
    requires Allowed(s, e) && !e.Pass?
    ensures Next(s, e, tokens).hist.admitted == s.hist.admitted && s.clock <= Next(s, e, tokens).clock
  {}

  lemma StepEvolves(s: State, e: Event, tokens: nat -> nat)
    requires StructOk(s) && Allowed(s, e) && !e.Pass?
    ensures Evolves(s.reg.subs, Next(s, e, tokens).reg.subs)
  {
    match e
    case SetSubscriptions(c, spare, revision, users, now) => SubscribeEvolves(s, c, spare, revision, users, now);
    case RemoveSubscriptions(c) =>
      if c in s.reg.onlineSub { DropFields(s.reg, s.reg.onlineSub[c]); }
    case UsersChanged(_, cs, now) => MarkAllEvolves(s.reg, cs, now);
    case Exit(cs) => DropAllEvolves(s.reg, cs);
    case FinishRead(job, ok, fate, now) => RunningHasSlot(s, job); FinishEvolves(s, job, ok, fate, now);
    case _ =>
  }

  lemma StepTime(s: State, e: Event, tokens: nat -> nat)
    requires StructOk(s) && LiveBut(s, None) && TimeOk(s.reg.subs, s.hist.admitted, s.clock) && Allowed(s, e)
    ensures var s' := Next(s, e, tokens);
            TimeOk(s'.reg.subs, s'.hist.admitted, s'.clock) && Evolves(s.reg.subs, s'.reg.subs) && s.clock <= s'.clock
  {
    if e.Pass? {
      TimeEvolves(s.reg.subs, s.reg.subs, s.hist.admitted, s.clock, e.now);
      DispatchTime(s, e.now, tokens);
    } else {
      StepClock(s, e, tokens);
      StepEvolves(s, e, tokens);
      TimeEvolves(s.reg.subs, Next(s, e, tokens).reg.subs, s.hist.admitted, s.clock, Next(s, e, tokens).clock);
    }
  }
}
