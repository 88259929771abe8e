/** Progress of the refresh queue: what a pass admits, and that an overdue connection has its turn. */
module PresenceProgress {
  import opened Common
  import opened DueHeap
  import opened PresenceModel
  import opened PresenceInvariants
  import opened PresenceSteps
  import opened PresenceWakeups
  import opened PresenceTiming
  import opened PresenceFairness
  import opened PresenceTheorems

  // ---------------------------------------------------------------- one pass

  /** A pass that starts now finds the node running, a slot and a token. */
  predicate CanAdmit(s: State, now: nat) { !Over(s) && s.pool.slots != WORKERS && s.pool.tokenAt <= now }

  lemma TheHead(due: map<Id, Rank>, x: Id)
    requires IsHead(due, x) && forall y :: y in due && y != x ==> due[y].order != due[x].order
    ensures HeadOf(due) == x
  {
    var h := HeadOf(due);
    assert IsHead(due, h) && !Before(due[x], due[h]) && !Before(due[h], due[x]);
  }

  /** Admissions already made stay at the front of the record, one for each grant. */
  lemma {:induction false} DispatchAppends(s: State, now: nat, tokens: nat -> nat)
    ensures s.hist.admitted <= Dispatch(s, now, tokens).0.hist.admitted
    ensures var s' := Dispatch(s, now, tokens).0;
            |s'.hist.admitted| - |s.hist.admitted| == s'.pool.granted - s.pool.granted
    decreases |s.reg.due|
  {
    if Blocked(s, now).None? && HeadOf(s.reg.due) in s.reg.subs {
      var x := HeadOf(s.reg.due);
      assert |s.reg.due - {x}| < |s.reg.due| by { assert (s.reg.due - {x}).Keys == s.reg.due.Keys - {x}; }
      DispatchAppends(Admit(s, x, now, tokens), now, tokens);
    }
  }

  /** A pass that finds its head due, a slot and a token admits the head, first of all. */
  lemma PassAdmitsHead(s: State, tokens: nat -> nat, now: nat, x: Id)
    requires Reachable(s, tokens) && Allowed(s, Pass(now)) && CanAdmit(s, now)
    requires IsHead(s.reg.due, x) && s.reg.due[x].readyAt <= now && x in s.reg.subs
    ensures var s' := Next(s, Pass(now), tokens); var n := |s.hist.admitted|;
            && n < |s'.hist.admitted| && s'.hist.admitted[n] == (s.reg.subs[x].client, now)
            && x !in s'.reg.due && s.pool.granted < s'.pool.granted
  {
    assert StructOk(s) by { ReachableGood(s, tokens); }
    TheHead(s.reg.due, x);
    QueuedAreSubs(s);
    DispatchTurn(s, now, tokens);
    var a := Admit(s, x, now, tokens);
    DispatchAppends(a, now, tokens);
    assert a.hist.admitted[|s.hist.admitted|] == (s.reg.subs[x].client, now);
    if x in Dispatch(a, now, tokens).0.reg.due { DispatchShrinks(a, now, tokens, x); }
  }

  lemma {:induction false} DispatchEnds(s: State, now: nat, tokens: nat -> nat)
    requires StructOk(s) && LiveBut(s, None)
    ensures Blocked(Dispatch(s, now, tokens).0, now).Some?
    decreases |s.reg.due|
  {
    if Blocked(s, now).None? {
      QueuedAreSubs(s);
      DispatchTurn(s, now, tokens);
      var x := HeadOf(s.reg.due);
      AdmitStruct(s, x, now, tokens);
      AdmitLive(s, x, now, tokens);
      DispatchEnds(Admit(s, x, now, tokens), now, tokens);
    }
  }

  lemma BlockedMeans(s: State, now: nat, x: Id)
    requires Blocked(s, now).Some? && x in s.reg.due && s.reg.due[x].readyAt <= now
    ensures !CanAdmit(s, now)
  {
    HeadExists(s.reg.due);
    var h := HeadOf(s.reg.due);
    assert !Before(s.reg.due[x], s.reg.due[h]);
  }

  /** A pass stops only when nothing more can be admitted: whoever is due and still queued lacks a slot or a token. */
  lemma PassLeavesNobodyDue(s: State, tokens: nat -> nat, now: nat, x: Id)
    requires Reachable(s, tokens) && Allowed(s, Pass(now)) && x in Next(s, Pass(now), tokens).reg.due
    requires Next(s, Pass(now), tokens).reg.due[x].readyAt <= now
    ensures !CanAdmit(Next(s, Pass(now), tokens), now)
  {
    assert StructOk(s) && LiveBut(s, None) by { ReachableGood(s, tokens); }
    DispatchEnds(s, now, tokens);
    BlockedMeans(Dispatch(s, now, tokens).0, now, x);
  }

  // ---------------------------------------------------------------- whose turn it is

  /** Connection c was admitted between the places from and upto of the record. */
  ghost predicate AdmittedWithin(record: seq<(Conn, nat)>, from: nat, upto: nat, c: Conn) {
    exists k :: from <= k <= upto && k < |record| && record[k].0 == c
  }

  lemma StillWithin(
    record: seq<(Conn, nat)>, record': seq<(Conn, nat)>, from: nat, upto: nat, from': nat, upto': nat, c: Conn)
    requires AdmittedWithin(record, from, upto, c) && record <= record' && from' <= from && upto <= upto'
    ensures AdmittedWithin(record', from', upto', c)
  {
    var k :| from <= k <= upto && k < |record| && record[k].0 == c;
    assert record'[k] == record[k];
  }

  /** An entry that leaves the queue in a pass was admitted after no more than those ahead of it. */
  lemma {:induction false} DispatchTakesTurn(s: State, now: nat, tokens: nat -> nat, x: Id)
    requires StructOk(s) && LiveBut(s, None) && x in s.reg.due && x in s.reg.subs
    requires x !in Dispatch(s, now, tokens).0.reg.due
    ensures var n := |s.hist.admitted|;
            AdmittedWithin(Dispatch(s, now, tokens).0.hist.admitted, n, n + |Ahead(s.reg.due, x)|, s.reg.subs[x].client)
    decreases |s.reg.due|
  {
    QueuedAreSubs(s);
    var h, n := HeadOf(s.reg.due), |s.hist.admitted|;
    DispatchTurn(s, now, tokens);
    var a := Admit(s, h, now, tokens);
    DispatchAppends(a, now, tokens);
    assert a.hist.admitted[n] == (s.reg.subs[h].client, now);
    if h != x {
      assert StructOk(a) by { AdmitStruct(s, h, now, tokens); }
      assert LiveBut(a, None) by { AdmitLive(s, h, now, tokens); }
      AdmitHolds(s, h, now, tokens, x);
      DispatchTakesTurn(a, now, tokens, x);
      var last := Dispatch(a, now, tokens).0.hist.admitted;
      StillWithin(last, last, n + 1, n + 1 + |Ahead(a.reg.due, x)|, n, n + |Ahead(s.reg.due, x)|, s.reg.subs[x].client);
    }
  }

  /** Nobody cancels, replaces or sweeps away subscription x. */
  predicate Undisturbed(s: State, e: Event, x: Id) {
    && NotReplaced(s, e, x) && !e.Exit?
    && (e.RemoveSubscriptions? && e.c in s.reg.onlineSub ==> s.reg.onlineSub[e.c] != x)
  }

  lemma MarkStays(p: Reg, y: Id, now: nat, x: Id)
    requires x in p.due && y in p.subs
    ensures x in Mark(p, y, now).due
  {
    RequeueFields(p, y, now);
  }

  lemma {:induction false} MarkAllStays(p: Reg, cs: seq<Conn>, now: nat, x: Id)
    requires x in p.due
    ensures x in MarkAll(p, cs, now).due
  {
    if cs != [] {
      MarkAllStays(p, cs[..|cs|-1], now, x);
      var q, c := MarkAll(p, cs[..|cs|-1], now), cs[|cs|-1];
      if c in q.active && q.active[c] in q.subs { MarkStays(q, q.active[c], now, x); }
    }
  }

  lemma SettledStays(p: Reg, c: Conn, spare: Id, revision: int, users: set<string>, now: nat, x: Id)
    requires Own(p.subs, p.onlineSub, p.active) && spare !in p.subs && x in p.due && x != SubIdOf(p, c, spare)
    ensures var q := Settled(p, c, spare, revision, users); var y := SubIdOf(p, c, spare);
            y in q.subs && x in q.due && x in Mark(q, y, now).due
  {
    SubOfIs(p, c, spare);
    SettledFields(p, c, spare, revision, users);
    MarkStays(Settled(p, c, spare, revision, users), SubIdOf(p, c, spare), now, x);
  }

  lemma SubscribeStays(s: State, c: Conn, spare: Id, revision: int, users: set<string>, now: nat, x: Id)
    requires Own(s.reg.subs, s.reg.onlineSub, s.reg.active) && spare !in s.reg.subs
    requires x in s.reg.due && x != SubIdOf(s.reg, c, spare)
    ensures x in Subscribe(s, c, spare, revision, users, now).0.reg.due
  {
    SettledStays(s.reg, c, spare, revision, users, now, x);
  }

  lemma FinishStays(s: State, job: Job, ok: bool, fate: Fate, now: nat, x: Id)
    requires job.sub in s.reg.subs && s.pool.slots > 0 && x in s.reg.due
    ensures x in Finish(s, job, ok, fate, now).reg.due
  {
    var d, y := Completed(s.(clock := now), job), job.sub;
    if StillWanted(d, y) {
      RequeueFields(SetSub(d.reg, y, d.reg.subs[y].(remark := false)), y,
                    if d.reg.subs[y].remark then now else now + SNAPSHOT_INTERVAL);
    }
  }

  /** Outside a pass an undisturbed entry stays queued. */
  lemma QueueStays(s: State, e: Event, tokens: nat -> nat, x: Id)
    requires Own(s.reg.subs, s.reg.onlineSub, s.reg.active) && Allowed(s, e) && Undisturbed(s, e, x) && !e.Pass?
    requires x in s.reg.due
    ensures x in Next(s, e, tokens).reg.due
  {
    match e
    case SetSubscriptions(c, spare, revision, users, now) => SubscribeStays(s, c, spare, revision, users, now, x);
    case RemoveSubscriptions(c) => if c in s.reg.onlineSub { DropFields(s.reg, s.reg.onlineSub[c]); }
    case UsersChanged(_, cs, now) => MarkAllStays(s.reg, cs, now, x);
    case FinishRead(job, ok, fate, now) =>
      if job.sub in s.reg.subs && s.pool.slots > 0 { FinishStays(s, job, ok, fate, now, x); }
    case _ =>
  }

  // ---------------------------------------------------------------- every run

  /** As long as x is queued, the run goes on without disturbing it. */
  ghost predicate WaitsUndisturbed(s: State, fs: seq<Event>, tokens: nat -> nat, x: Id)
    decreases |fs|
  {
    x in s.reg.due && fs != [] ==>
      Allowed(s, fs[0]) && Undisturbed(s, fs[0], x) && WaitsUndisturbed(Next(s, fs[0], tokens), fs[1..], tokens, x)
  }

  /** The passes of the run that find the node running, a slot and a token. */
  ghost function Openings(s: State, fs: seq<Event>, tokens: nat -> nat): nat
    decreases |fs|
  {
    if fs == [] || !Allowed(s, fs[0]) then 0
    else (if fs[0].Pass? && CanAdmit(s, fs[0].now) then 1 else 0) + Openings(Next(s, fs[0], tokens), fs[1..], tokens)
  }

  lemma StepAppends(s: State, e: Event, tokens: nat -> nat)
    requires Allowed(s, e)
    ensures var s' := Next(s, e, tokens);
            && s.hist.admitted <= s'.hist.admitted
            && |s'.hist.admitted| - |s.hist.admitted| == s'.pool.granted - s.pool.granted
  {
    if e.Pass? { DispatchAppends(s, e.now, tokens); }
  }

  lemma {:induction false} RunAppends(s: State, fs: seq<Event>, tokens: nat -> nat)
    requires Run(s, fs, tokens).Some?
    ensures s.hist.admitted <= Run(s, fs, tokens).value.hist.admitted
    decreases |fs|
  {
    if fs != [] {
      StepAppends(s, fs[0], tokens);
      RunAppends(Next(s, fs[0], tokens), fs[1..], tokens);
    }
  }

  /** With an overdue entry waiting, an opening is used. */
  lemma OpeningIsUsed(s: State, now: nat, tokens: nat -> nat, x: Id)
    requires StructOk(s) && CanAdmit(s, now) && x in s.reg.due && s.reg.due[x].readyAt <= now
    ensures Dispatch(s, now, tokens).0.pool.granted > s.pool.granted
  {
    if Blocked(s, now).Some? {
      BlockedMeans(s, now, x);
      assert false;
    }
    QueuedAreSubs(s);
    DispatchTurn(s, now, tokens);
    DispatchAppends(Admit(s, HeadOf(s.reg.due), now, tokens), now, tokens);
  }

  /** x waits on at its rank: admissions since s used up places ahead of it, and at least n were made. */
  ghost predicate StillWaits(s: State, s': State, x: Id, n: nat) {
    && x in s.reg.due && x in s'.reg.due && s'.reg.due[x] == s.reg.due[x]
    && |s'.hist.admitted| + |Ahead(s'.reg.due, x)| <= |s.hist.admitted| + |Ahead(s.reg.due, x)|
    && |s.hist.admitted| + n <= |s'.hist.admitted|
  }

  /** The connection of x was admitted since s, after no more others than were ahead of it in s. */
  ghost predicate HadTurn(s: State, s': State, x: Id) {
    && x in s.reg.due && x in s.reg.subs
    && var n := |s.hist.admitted|;
       AdmittedWithin(s'.hist.admitted, n, n + |Ahead(s.reg.due, x)|, s.reg.subs[x].client)
  }

  lemma PassWaits(s: State, now: nat, tokens: nat -> nat, x: Id)
    requires Good(s) && Allowed(s, Pass(now)) && x in s.reg.due && s.reg.due[x].readyAt < s.clock
    ensures var s' := Next(s, Pass(now), tokens);
            StillWaits(s, s', x, if CanAdmit(s, now) then 1 else 0) || HadTurn(s, s', x)
  {
    QueuedAreSubs(s);
    DispatchAppends(s, now, tokens);
    if CanAdmit(s, now) { OpeningIsUsed(s, now, tokens, x); }
    if x in Dispatch(s, now, tokens).0.reg.due {
      DispatchHolds(s, now, tokens, x);
    } else {
      DispatchTakesTurn(s, now, tokens, x);
    }
  }

  lemma StepWaits(s: State, e: Event, tokens: nat -> nat, x: Id)
    requires Good(s) && Allowed(s, e) && Undisturbed(s, e, x) && x in s.reg.due && s.reg.due[x].readyAt < s.clock
    ensures var s' := Next(s, e, tokens);
            || StillWaits(s, s', x, if e.Pass? && CanAdmit(s, e.now) then 1 else 0)
            || HadTurn(s, s', x)
  {
    if e.Pass? {
      PassWaits(s, e.now, tokens, x);
    } else {
      QueueStays(s, e, tokens, x);
      StepHolds(s, e, tokens, x);
      StepAppends(s, e, tokens);
    }
  }

  lemma WaitsOn(s: State, m: State, s': State, x: Id, a: nat, b: nat)
    requires StillWaits(s, m, x, a) && StillWaits(m, s', x, b)
    ensures StillWaits(s, s', x, a + b)
  {}

  lemma TurnComes(s: State, m: State, s': State, x: Id, a: nat)
    requires StillWaits(s, m, x, a) && HadTurn(m, s', x) && x in s.reg.subs
             && s.reg.subs[x].client == m.reg.subs[x].client
    ensures HadTurn(s, s', x)
  {
    var n, k := |s.hist.admitted|, |m.hist.admitted|;
    StillWithin(s'.hist.admitted, s'.hist.admitted, k, k + |Ahead(m.reg.due, x)|, n, n + |Ahead(s.reg.due, x)|,
      s.reg.subs[x].client);
  }

  lemma TurnStays(s: State, m: State, s': State, x: Id)
    requires HadTurn(s, m, x) && m.hist.admitted <= s'.hist.admitted
    ensures HadTurn(s, s', x)
  {
    var n := |s.hist.admitted|;
    StillWithin(m.hist.admitted, s'.hist.admitted, n, n + |Ahead(s.reg.due, x)|, n, n + |Ahead(s.reg.due, x)|,
      s.reg.subs[x].client);
  }

  lemma {:induction false} RunWaits(s: State, fs: seq<Event>, tokens: nat -> nat, x: Id)
    requires Good(s) && Run(s, fs, tokens).Some? && WaitsUndisturbed(s, fs, tokens, x)
    requires x in s.reg.due && s.reg.due[x].readyAt < s.clock
    ensures var s' := Run(s, fs, tokens).value; StillWaits(s, s', x, Openings(s, fs, tokens)) || HadTurn(s, s', x)
    decreases |fs|
  {
    if fs != [] {
      var m, s' := Next(s, fs[0], tokens), Run(s, fs, tokens).value;
      StepWaits(s, fs[0], tokens, x);
      if HadTurn(s, m, x) {
        RunAppends(m, fs[1..], tokens);
        TurnStays(s, m, s', x);
      } else {
        var a := if fs[0].Pass? && CanAdmit(s, fs[0].now) then 1 else 0;
        assert Good(m) by { StepGood(s, fs[0], tokens); }
        assert s.clock <= m.clock && Evolves(s.reg.subs, m.reg.subs) by { StepTime(s, fs[0], tokens); }
        assert x in s.reg.subs by { QueuedAreSubs(s); }
        RunWaits(m, fs[1..], tokens, x);
        if HadTurn(m, s', x) {
          TurnComes(s, m, s', x, a);
        } else {
          WaitsOn(s, m, s', x, a, Openings(m, fs[1..], tokens));
        }
      }
    }
  }

  /**
   An overdue connection has its turn: along any run that does not take its subscription away, once there were more
   passes with a slot and a token than entries ahead of it, it has been admitted, and no more others before it than
   those.
   */
  lemma OverdueHasItsTurn(s: State, fs: seq<Event>, tokens: nat -> nat, x: Id)
    requires Reachable(s, tokens) && Run(s, fs, tokens).Some? && WaitsUndisturbed(s, fs, tokens, x)
    requires x in s.reg.due && s.reg.due[x].readyAt < s.clock && Openings(s, fs, tokens) > |Ahead(s.reg.due, x)|
    ensures x in s.reg.subs
    ensures var n := |s.hist.admitted|;
            AdmittedWithin(Run(s, fs, tokens).value.hist.admitted, n, n + |Ahead(s.reg.due, x)|, s.reg.subs[x].client)
  {
    assert Good(s) by { ReachableGood(s, tokens); }
    RunWaits(s, fs, tokens, x);
  }

  /** The same counted in admissions: more of them than entries were ahead include the connection's own. */
  lemma AdmissionsReachEveryone(s: State, fs: seq<Event>, tokens: nat -> nat, x: Id)
    requires Reachable(s, tokens) && Run(s, fs, tokens).Some? && WaitsUndisturbed(s, fs, tokens, x)
    requires x in s.reg.due && s.reg.due[x].readyAt < s.clock
    requires |Run(s, fs, tokens).value.hist.admitted| > |s.hist.admitted| + |Ahead(s.reg.due, x)|
    ensures x in s.reg.subs
    ensures var n := |s.hist.admitted|;
            AdmittedWithin(Run(s, fs, tokens).value.hist.admitted, n, n + |Ahead(s.reg.due, x)|, s.reg.subs[x].client)
  {
    assert Good(s) by { ReachableGood(s, tokens); }
    RunWaits(s, fs, tokens, x);
  }
}
