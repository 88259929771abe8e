/** Refreshes come: nothing is scheduled further ahead than the snapshot interval, and a change is pending at once. */
module PresenceFreshness {
  import opened Common
  import opened DueHeap
  import opened PresenceModel
  import opened PresenceInvariants
  import opened PresenceSteps
  import opened PresenceTheorems

  // ---------------------------------------------------------------- nothing is scheduled far ahead

  ghost predicate Soon(subs: Subs, due: map<Id, Rank>, now: nat) {
    && (forall x :: x in subs ==> subs[x].nextAttempt <= now + MIN_INTERVAL)
    && (forall x :: x in due ==> due[x].readyAt <= now + SNAPSHOT_INTERVAL)
  }

  lemma SoonRow(subs: Subs, due: map<Id, Rank>, now: nat, x: Id, o: Sub)
    requires Soon(subs, due, now) && o.nextAttempt <= now + MIN_INTERVAL
    ensures Soon(subs[x := o], due - {x}, now) && Soon(subs[x := o], due, now)
  {}

  lemma RequeueSoon(p: Reg, x: Id, at: nat, now: nat)
    requires x in p.subs && Soon(p.subs, p.due, now) && at <= now + SNAPSHOT_INTERVAL
    ensures Soon(Requeue(p, x, at).subs, Requeue(p, x, at).due, now)
  {
    RequeueFields(p, x, at);
  }

  lemma MarkSoon(p: Reg, x: Id, now: nat)
    requires x in p.subs && Soon(p.subs, p.due, now)
    ensures Soon(Mark(p, x, now).subs, Mark(p, x, now).due, now)
  {
    if p.subs[x].reading {
      SoonRow(p.subs, p.due, now, x, p.subs[x].(remark := true));
    } else {
      RequeueSoon(p, x, now, now);
    }
  }

  lemma {:induction false} MarkAllSoon(p: Reg, cs: seq<Conn>, now: nat)
    requires Soon(p.subs, p.due, now)
    ensures Soon(MarkAll(p, cs, now).subs, MarkAll(p, cs, now).due, now)
  {
    if cs != [] {
      MarkAllSoon(p, cs[..|cs|-1], now);
      var q, c := MarkAll(p, cs[..|cs|-1], now), cs[|cs|-1];
      if c in q.active && q.active[c] in q.subs { MarkSoon(q, q.active[c], now); }
    }
  }

  lemma SettledSoon(p: Reg, c: Conn, spare: Id, revision: int, users: set<string>, now: nat)
    requires Own(p.subs, p.onlineSub, p.active) && (c in p.onlineSub || spare !in p.subs) && Soon(p.subs, p.due, now)
    ensures var q := Settled(p, c, spare, revision, users); SubIdOf(p, c, spare) in q.subs && Soon(q.subs, q.due, now)
  {
    SubOfIs(p, c, spare);
    SettledFields(p, c, spare, revision, users);
    var o := SubOf(p, c, spare).(revision := revision, users := users, remark := false, lastSuccess := 0);
    SoonRow(p.subs, p.due, now, SubIdOf(p, c, spare), o);
  }

  lemma SubscribeSoon(s: State, c: Conn, spare: Id, revision: int, users: set<string>, now: nat)
    requires Own(s.reg.subs, s.reg.onlineSub, s.reg.active) && spare !in s.reg.subs && Soon(s.reg.subs, s.reg.due, now)
    ensures var p := Subscribe(s, c, spare, revision, users, now).0.reg; Soon(p.subs, p.due, now)
  {
    if Refused(s, c, spare, revision, users).None? {
      SettledSoon(s.reg, c, spare, revision, users, now);
      if users != {} { MarkSoon(Settled(s.reg, c, spare, revision, users), SubIdOf(s.reg, c, spare), now); }
    }
  }

  lemma DropSoon(p: Reg, x: Id, now: nat)
    requires x in p.subs && Soon(p.subs, p.due, now)
    ensures Soon(Drop(p, x).subs, Drop(p, x).due, now)
  {}

  lemma {:induction false} DropAllSoon(p: Reg, cs: seq<Conn>, now: nat)
    requires Soon(p.subs, p.due, now)
    ensures Soon(DropAll(p, cs).subs, DropAll(p, cs).due, now)
  {
    if cs != [] {
      DropAllSoon(p, cs[..|cs|-1], now);
      var q, c := DropAll(p, cs[..|cs|-1]), cs[|cs|-1];
      if c in q.active && q.active[c] in q.subs { DropSoon(q, q.active[c], now); }
    }
  }

  lemma {:induction false} DispatchSoon(s: State, now: nat, tokens: nat -> nat)
    requires Soon(s.reg.subs, s.reg.due, now)
    ensures var p := Dispatch(s, now, tokens).0.reg; Soon(p.subs, p.due, now)
    decreases |s.reg.due|
  {
    if Blocked(s, now).None? && HeadOf(s.reg.due) in s.reg.subs {
      var x := HeadOf(s.reg.due);
      assert |s.reg.due - {x}| < |s.reg.due| by { assert (s.reg.due - {x}).Keys == s.reg.due.Keys - {x}; }
      SoonRow(s.reg.subs, s.reg.due, now, x,
        s.reg.subs[x].(reading := true, remark := false, nextAttempt := now + MIN_INTERVAL));
      DispatchSoon(Admit(s, x, now, tokens), now, tokens);
    }
  }

  lemma ConcludedSoon(s: State, job: Job, ok: bool, fate: Fate, now: nat)
    requires job.sub in s.reg.subs && Soon(s.reg.subs, s.reg.due, now)
    ensures var p := Concluded(s, job, ok, fate, now).reg; Soon(p.subs, p.due, now)
  {
    if StillWanted(s, job.sub) {
      var x := job.sub;
      var unmarked := SetSub(s.reg, x, s.reg.subs[x].(remark := false));
      var at := if s.reg.subs[x].remark then now else now + SNAPSHOT_INTERVAL;
      SoonRow(s.reg.subs, s.reg.due, now, x, s.reg.subs[x].(remark := false));
      RequeueSoon(unmarked, x, at, now);
      RequeueFields(unmarked, x, at);
      var p := Rescheduled(s.reg, x, now);
      SoonRow(p.subs, p.due, now, x, p.subs[x].(lastSuccess := now));
    }
  }

  lemma FinishSoon(s: State, job: Job, ok: bool, fate: Fate, now: nat)
    requires job.sub in s.reg.subs && s.pool.slots > 0 && Soon(s.reg.subs, s.reg.due, now)
    ensures var p := Finish(s, job, ok, fate, now).reg; Soon(p.subs, p.due, now)
  {
    SoonRow(s.reg.subs, s.reg.due, now, job.sub, s.reg.subs[job.sub].(reading := false));
    ConcludedSoon(Completed(s.(clock := now), job), job, ok, fate, now);
  }

  lemma SoonLater(subs: Subs, due: map<Id, Rank>, now: nat, now': nat)
    requires Soon(subs, due, now) && now <= now'
    ensures Soon(subs, due, now')
  {}

  lemma StepSoon(s: State, e: Event, tokens: nat -> nat)
    requires Own(s.reg.subs, s.reg.onlineSub, s.reg.active) && Soon(s.reg.subs, s.reg.due, s.clock) && Allowed(s, e)
    ensures var s' := Next(s, e, tokens); Soon(s'.reg.subs, s'.reg.due, s'.clock)
  {
    var p := s.reg;
    match e
    case SetSubscriptions(c, spare, revision, users, now) =>
      SoonLater(p.subs, p.due, s.clock, now); SubscribeSoon(s, c, spare, revision, users, now);
    case RemoveSubscriptions(c) => if c in p.onlineSub { DropSoon(p, p.onlineSub[c], s.clock); }
    case UsersChanged(_, cs, now) => SoonLater(p.subs, p.due, s.clock, now); MarkAllSoon(p, cs, now);
    case Pass(now) => SoonLater(p.subs, p.due, s.clock, now); DispatchSoon(s, now, tokens);
    case Exit(cs) => DropAllSoon(p, cs, s.clock);
    case FinishRead(job, ok, fate, now) =>
      SoonLater(p.subs, p.due, s.clock, now);
      if job.sub in p.subs && s.pool.slots > 0 {
        FinishSoon(s, job, ok, fate, now);
        FinishClock(s, job, ok, fate, now);
      }
    case _ =>
  }

  lemma {:induction false} RunSoon(s: State, es: seq<Event>, tokens: nat -> nat)
    requires Good(s) && Soon(s.reg.subs, s.reg.due, s.clock) && Run(s, es, tokens).Some?
    ensures var s' := Run(s, es, tokens).value; Soon(s'.reg.subs, s'.reg.due, s'.clock)
    decreases |es|
  {
    if es != [] {
      var s' := Next(s, es[0], tokens);
      assert Good(s') by { StepGood(s, es[0], tokens); }
      StepSoon(s, es[0], tokens);
      RunSoon(s', es[1..], tokens);
    }
  }

  lemma ReachableSoon(s: State, tokens: nat -> nat)
    requires Reachable(s, tokens)
    ensures Soon(s.reg.subs, s.reg.due, s.clock)
  {
    var es :| Run(Init(tokens), es, tokens) == Some(s);
    InitGood(tokens);
    RunSoon(Init(tokens), es, tokens);
  }

  /** A live active connection is being read, or will be due within the snapshot interval of the last clock reading. */
  lemma RefreshWithinInterval(s: State, tokens: nat -> nat, c: Conn)
    requires Reachable(s, tokens) && !Over(s) && c in s.reg.active && c !in s.dead
    ensures var x := s.reg.active[c];
            x in s.reg.subs && (s.reg.subs[x].reading
              || (x in s.reg.due && s.reg.due[x].readyAt <= s.clock + 30_000_000_000))
  {
    ReachableSoon(s, tokens);
    LiveIsQueuedXorReading(s, tokens, c);
  }

  // ---------------------------------------------------------------- a change is pending at once

  /**
   x will be refreshed for a change at time now: queued for it as early as its interval allows, or marked for
   re-reading.
   */
  ghost predicate Pending(p: Reg, x: Id, now: nat) {
    x in p.subs
    && if p.subs[x].reading then p.subs[x].remark else x in p.due && p.due[x].readyAt <= Max(now, p.subs[x].nextAttempt)
  }

  lemma MarkIsPending(p: Reg, x: Id, now: nat)
    requires x in p.subs
    ensures Pending(Mark(p, x, now), x, now)
  {
    if !p.subs[x].reading { RequeueFields(p, x, now); }
  }

  lemma MarkKeepsPending(p: Reg, y: Id, x: Id, now: nat)
    requires y in p.subs && Pending(p, x, now)
    ensures Pending(Mark(p, y, now), x, now)
  {
    if x == y { MarkIsPending(p, x, now); } else if !p.subs[y].reading { RequeueFields(p, y, now); }
  }

  lemma {:induction false} MarkAllIsPending(p: Reg, cs: seq<Conn>, now: nat, c: Conn)
    requires c in cs && c in p.active && p.active[c] in p.subs
    ensures MarkAll(p, cs, now).active == p.active && Pending(MarkAll(p, cs, now), p.active[c], now)
  {
    var front, d := cs[..|cs|-1], cs[|cs|-1];
    var q := MarkAll(p, front, now);
    MarkAllKeepsOwners(p, front, now);
    if c in front {
      MarkAllIsPending(p, front, now, c);
      if d in q.active && q.active[d] in q.subs {
        MarkKeepsPending(q, q.active[d], p.active[c], now);
        MarkIsMarked(q, q.active[d], now);
      }
    } else {
      MarkIsPending(q, p.active[c], now);
      MarkIsMarked(q, p.active[c], now);
    }
  }

  lemma {:induction false} MarkAllKeepsOwners(p: Reg, cs: seq<Conn>, now: nat)
    ensures MarkAll(p, cs, now).active == p.active && MarkAll(p, cs, now).subs.Keys == p.subs.Keys
  {
    if cs != [] {
      MarkAllKeepsOwners(p, cs[..|cs|-1], now);
      var q, c := MarkAll(p, cs[..|cs|-1], now), cs[|cs|-1];
      if c in q.active && q.active[c] in q.subs { MarkIsMarked(q, q.active[c], now); }
    }
  }

  lemma {:induction false} WalkCovers(
    byUser: map<string, set<Conn>>, users: seq<string>, cs: seq<Conn>, u: string, c: Conn)
    requires WalkOrder(byUser, users, cs) && u in users && c in Watchers(byUser, u)
    ensures c in cs
  {
    var k :| 0 <= k <= |cs| && IsEnumeration(cs[k..], Watchers(byUser, users[|users|-1]))
      && WalkOrder(byUser, users[..|users|-1], cs[..k]);
    if u == users[|users|-1] {
      assert c in cs[k..];
    } else {
      WalkCovers(byUser, users[..|users|-1], cs[..k], u, c);
    }
  }

  /** A presence change of a watched user leaves a refresh pending for every connection that watches them. */
  lemma ChangeIsPending(s: State, tokens: nat -> nat, changed: seq<string>, cs: seq<Conn>, now: nat, u: string, c: Conn)
    requires Reachable(s, tokens) && Allowed(s, UsersChanged(changed, cs, now)) && !Over(s)
    requires u in changed && c in s.reg.active && s.reg.active[c] in s.reg.subs
             && u in s.reg.subs[s.reg.active[c]].users
    ensures Pending(Next(s, UsersChanged(changed, cs, now), tokens).reg, s.reg.active[c], now)
  {
    IndexIsInverse(s, tokens, u, c);
    WalkCovers(s.reg.byUser, changed, cs, u, c);
    MarkAllIsPending(s.reg, cs, now, c);
  }

  lemma FinishedIsPending(s: State, job: Job, ok: bool, fate: Fate, now: nat)
    requires job.sub in s.reg.subs && s.pool.slots > 0 && s.reg.subs[job.sub].remark && StillWanted(s, job.sub)
    ensures Pending(Finish(s, job, ok, fate, now).reg, job.sub, now)
  {
    var d := Completed(s.(clock := now), job);
    var unmarked := SetSub(d.reg, job.sub, d.reg.subs[job.sub].(remark := false));
    RequeueFields(unmarked, job.sub, now);
  }

  /** A change that arrived during a read is served by its completion: the connection is queued for right after it. */
  lemma RemarkIsHonoured(s: State, tokens: nat -> nat, job: Job, ok: bool, fate: Fate, now: nat)
    requires Reachable(s, tokens) && Allowed(s, FinishRead(job, ok, fate, now)) && job.sub in s.reg.subs
    requires s.reg.subs[job.sub].remark && StillWanted(s, job.sub)
    ensures Pending(Next(s, FinishRead(job, ok, fate, now), tokens).reg, job.sub, now)
  {
    assert s.pool.slots > 0 by { ReachableGood(s, tokens); RunningHasSlot(s, job); }
    FinishedIsPending(s, job, ok, fate, now);
  }

  lemma SubscribedIsPending(s: State, c: Conn, spare: Id, revision: int, users: set<string>, now: nat)
    requires Own(s.reg.subs, s.reg.onlineSub, s.reg.active) && spare !in s.reg.subs
    requires Refused(s, c, spare, revision, users).None? && users != {}
    ensures var p := Subscribe(s, c, spare, revision, users, now).0.reg; c in p.active && Pending(p, p.active[c], now)
  {
    SettledIsPending(s.reg, c, spare, revision, users, now);
  }

  lemma SettledIsPending(p: Reg, c: Conn, spare: Id, revision: int, users: set<string>, now: nat)
    requires Own(p.subs, p.onlineSub, p.active) && spare !in p.subs && users != {}
    ensures var q := Settled(p, c, spare, revision, users); var x := SubIdOf(p, c, spare);
            x in q.subs && c in Mark(q, x, now).active && Mark(q, x, now).active[c] == x
              && Pending(Mark(q, x, now), x, now)
  {
    SubOfIs(p, c, spare);
    SettledFields(p, c, spare, revision, users);
    var q, x := Settled(p, c, spare, revision, users), SubIdOf(p, c, spare);
    MarkIsPending(q, x, now);
    MarkIsMarked(q, x, now);
  }

  /** A connection that sends a new set is refreshed for it as early as its interval allows. */
  lemma NewSetIsPending(s: State, tokens: nat -> nat, c: Conn, spare: Id, revision: int, users: set<string>, now: nat)
    requires Reachable(s, tokens) && Allowed(s, SetSubscriptions(c, spare, revision, users, now))
    requires Refused(s, c, spare, revision, users).None? && users != {}
    ensures var p := Next(s, SetSubscriptions(c, spare, revision, users, now), tokens).reg;
            c in p.active && Pending(p, p.active[c], now)
  {
    assert Own(s.reg.subs, s.reg.onlineSub, s.reg.active) by { ReachableGood(s, tokens); }
    SubscribedIsPending(s, c, spare, revision, users, now);
  }
}
