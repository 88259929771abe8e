/** What each request, read and pass of the scheduler comes to, said of the state it finds and in plain numbers. */
module PresenceAnswers {
  import opened Common
  import opened DueHeap
  import opened PresenceModel
  import opened PresenceInvariants
  import opened PresenceSteps
  import opened PresenceTiming
  import opened PresenceTheorems
  import opened PresenceProgress
  import opened Sums

  // ---------------------------------------------------------------- a finished read

  /** The node runs, the connection is live, and x is its subscription to somebody. */
  predicate Wanted(s: State, x: Id) {
    && x in s.reg.subs && !s.closing && !s.stopped && s.reg.subs[x].client !in s.dead && s.reg.subs[x].users != {}
    && s.reg.subs[x].client in s.reg.onlineSub && s.reg.onlineSub[s.reg.subs[x].client] == x
  }

  /** A frame is due for this result: the set is the one read for, and a failure follows 90 s without a success. */
  predicate Reports(s: State, job: Job, ok: bool, now: nat) {
    && Wanted(s, job.sub) && s.reg.subs[job.sub].revision == job.revision
    && (ok || 0 < s.reg.subs[job.sub].lastSuccess <= now - 90_000_000_000)
  }

  lemma FinishOffers(s: State, job: Job, ok: bool, fate: Fate, now: nat)
    requires job.sub in s.reg.subs && s.pool.slots > 0
    ensures Finish(s, job, ok, fate, now).hist.offers
            == if Reports(s, job, ok, now) then
                 s.hist.offers + [Offer(s.reg.subs[job.sub].client, job.revision, job.users, !ok, fate)]
               else s.hist.offers
  {
    var d := Completed(s.(clock := now), job);
    if StillWanted(d, job.sub) {
      RequeueFields(SetSub(d.reg, job.sub, d.reg.subs[job.sub].(remark := false)), job.sub,
                    if d.reg.subs[job.sub].remark then now else now + SNAPSHOT_INTERVAL);
    }
  }

  lemma RescheduledIs(p: Reg, x: Id, now: nat)
    requires x in p.subs
    ensures Rescheduled(p, x, now).subs == p.subs[x := p.subs[x].(remark := false)]
  {
    RequeueFields(SetSub(p, x, p.subs[x].(remark := false)), x,
                  if p.subs[x].remark then now else now + SNAPSHOT_INTERVAL);
  }

  lemma ConcludedIs(s: State, job: Job, ok: bool, fate: Fate, now: nat)
    requires job.sub in s.reg.subs
    ensures var o := s.reg.subs[job.sub];
            Concluded(s, job, ok, fate, now).reg.subs
            == if !Wanted(s, job.sub) then s.reg.subs
               else s.reg.subs[job.sub := o.(remark := false,
                                             lastSuccess := if ok && Reports(s, job, ok, now) then now
                                                            else o.lastSuccess)]
  {
    if StillWanted(s, job.sub) { RescheduledIs(s.reg, job.sub, now); }
  }

  /** Only the row of the read changes, to what it is after it. */
  lemma FinishRow(s: State, job: Job, ok: bool, fate: Fate, now: nat)
    requires job.sub in s.reg.subs && s.pool.slots > 0
    ensures var s' := Finish(s, job, ok, fate, now); var o := s.reg.subs[job.sub];
            && s'.reg.subs.Keys == s.reg.subs.Keys
            && s'.reg.subs[job.sub] == o.(reading := false, remark := o.remark && !Wanted(s, job.sub),
                                          lastSuccess := if ok && Reports(s, job, ok, now) then now else o.lastSuccess)
            && (forall y :: y in s.reg.subs && y != job.sub ==> s'.reg.subs[y] == s.reg.subs[y])
  {
    var d := Completed(s.(clock := now), job);
    ConcludedIs(d, job, ok, fate, now);
    assert Wanted(d, job.sub) == Wanted(s, job.sub) && Reports(d, job, ok, now) == Reports(s, job, ok, now);
  }

  lemma FinishQueues(s: State, job: Job, ok: bool, fate: Fate, now: nat)
    requires job.sub in s.reg.subs && s.pool.slots > 0 && job.sub !in s.reg.due
    ensures var s' := Finish(s, job, ok, fate, now); var x := job.sub; var o := s.reg.subs[x];
            if Wanted(s, x) then
              && x in s'.reg.due && s'.reg.due == s.reg.due[x := s'.reg.due[x]]
              && s'.reg.due[x].readyAt == Max(o.nextAttempt, if o.remark then now else now + 30_000_000_000)
            else s'.reg.due == s.reg.due
  {
    var d := Completed(s.(clock := now), job);
    if StillWanted(d, job.sub) {
      RequeueFields(SetSub(d.reg, job.sub, d.reg.subs[job.sub].(remark := false)), job.sub,
                    if d.reg.subs[job.sub].remark then now else now + SNAPSHOT_INTERVAL);
    }
  }

  /**
   A read that ends offers a frame if and only if its node runs, its connection is live and still wants the set it was
   made for, and it succeeded or nothing has for 90 seconds. The frame names that set; a success is remembered, changes
   that came in meanwhile or not, and the next read is queued for the change, or for 30 seconds on.
   */
  lemma ReadIsReported(s: State, tokens: nat -> nat, job: Job, ok: bool, fate: Fate, now: nat)
    requires Reachable(s, tokens) && Allowed(s, FinishRead(job, ok, fate, now))
    ensures job.sub in s.reg.subs
    ensures var s' := Next(s, FinishRead(job, ok, fate, now), tokens); var x := job.sub; var o := s.reg.subs[x];
            && s'.hist.offers == (if Reports(s, job, ok, now) then
                                    s.hist.offers + [Offer(o.client, job.revision, job.users, !ok, fate)]
                                  else s.hist.offers)
            && s'.reg.subs.Keys == s.reg.subs.Keys
            && s'.reg.subs[x] == o.(reading := false, remark := o.remark && !Wanted(s, x),
                                    lastSuccess := if ok && Reports(s, job, ok, now) then now else o.lastSuccess)
            && (forall y :: y in s.reg.subs && y != x ==> s'.reg.subs[y] == s.reg.subs[y])
            && (if Wanted(s, x) then
                  && x in s'.reg.due && s'.reg.due == s.reg.due[x := s'.reg.due[x]]
                  && s'.reg.due[x].readyAt == Max(o.nextAttempt, if o.remark then now else now + 30_000_000_000)
                else s'.reg.due == s.reg.due)
  {
    var x := job.sub;
    assert StructOk(s) by { ReachableGood(s, tokens); }
    RunningHasSlot(s, job);
    assert x in s.reg.due ==> Waiting(s.reg.subs[x], x, s.reg.active, s.reg.due[x], s.reg.order);
    FinishOffers(s, job, ok, fate, now);
    FinishRow(s, job, ok, fate, now);
    FinishQueues(s, job, ok, fate, now);
  }

  // ---------------------------------------------------------------- tokens

  /** One token for each admission, none of them taken before it was free. */
  ghost predicate Metered(s: State, tokens: nat -> nat) {
    && s.pool.granted == |s.hist.admitted| && s.pool.tokenAt == tokens(|s.hist.admitted|)
    && forall i :: 0 <= i < |s.hist.admitted| ==> tokens(i) <= s.hist.admitted[i].1
  }

  lemma {:induction false} DispatchMetered(s: State, now: nat, tokens: nat -> nat)
    requires Metered(s, tokens)
    ensures Metered(Dispatch(s, now, tokens).0, tokens)
    decreases |s.reg.due|
  {
    if Blocked(s, now).None? && HeadOf(s.reg.due) in s.reg.subs {
      var x := HeadOf(s.reg.due);
      assert |s.reg.due - {x}| < |s.reg.due| by { assert (s.reg.due - {x}).Keys == s.reg.due.Keys - {x}; }
      DispatchMetered(Admit(s, x, now, tokens), now, tokens);
    }
  }

  lemma StepMetered(s: State, e: Event, tokens: nat -> nat)
    requires Metered(s, tokens) && Allowed(s, e)
    ensures Metered(Next(s, e, tokens), tokens)
  {
    if e.Pass? { DispatchMetered(s, e.now, tokens); }
  }

  lemma {:induction false} RunMetered(s: State, es: seq<Event>, tokens: nat -> nat)
    requires Metered(s, tokens) && Run(s, es, tokens).Some?
    ensures Metered(Run(s, es, tokens).value, tokens)
    decreases |es|
  {
    if es != [] {
      StepMetered(s, es[0], tokens);
      RunMetered(Next(s, es[0], tokens), es[1..], tokens);
    }
  }

  /** The frame limiter is obeyed: the k-th admission of every run waits for the k-th token, and takes it. */
  lemma AdmissionsAreMetered(s: State, tokens: nat -> nat)
    requires Reachable(s, tokens)
    ensures s.pool.granted == |s.hist.admitted| && s.pool.tokenAt == tokens(|s.hist.admitted|)
    ensures forall i :: 0 <= i < |s.hist.admitted| ==> tokens(i) <= s.hist.admitted[i].1
  {
    var es :| Run(Init(tokens), es, tokens) == Some(s);
    RunMetered(Init(tokens), es, tokens);
  }

  // ---------------------------------------------------------------- passes

  /** The moment a running pass that leaves somebody queued waits for, if any: the head's time, or a token for it. */
  lemma PassWaitsExactly(s: State, tokens: nat -> nat, now: nat)
    requires Reachable(s, tokens) && Allowed(s, Pass(now))
    ensures var s' := Next(s, Pass(now), tokens);
            && s'.loop.Arming? && s'.loop.at == now && s'.clock == now
            && (Over(s) ==> s'.loop.wait == 0 && s'.reg == s.reg && s'.pool == s.pool)
            && (s'.reg.due == map[] ==> s'.loop.wait == 0)
            && (forall h :: !Over(s) && IsHead(s'.reg.due, h) ==>
                  var r := s'.reg.due[h].readyAt;
                  s'.loop.wait == if now < r then r - now else if s'.pool.slots == 4 then 0 else s'.pool.tokenAt - now)
  {
    var s' := Dispatch(s, now, tokens).0;
    assert StructOk(s) && LiveBut(s, None) by { ReachableGood(s, tokens); }
    DispatchEnds(s, now, tokens);
    DispatchSays(s, now, tokens);
    forall h | !Over(s) && IsHead(s'.reg.due, h)
      ensures s'.reg.due[HeadOf(s'.reg.due)].readyAt == s'.reg.due[h].readyAt {
      var x := HeadOf(s'.reg.due);
      assert !Before(s'.reg.due[x], s'.reg.due[h]) && !Before(s'.reg.due[h], s'.reg.due[x]);
    }
  }

  /** A pass returns what stopped it. */
  lemma {:induction false} DispatchSays(s: State, now: nat, tokens: nat -> nat)
    requires StructOk(s) && LiveBut(s, None)
    ensures var (s', wait) := Dispatch(s, now, tokens); Blocked(s', now) == Some(wait) && Over(s') == Over(s)
    decreases |s.reg.due|
  {
    if Blocked(s, now).None? {
      QueuedAreSubs(s);
      DispatchTurn(s, now, tokens);
      var x := HeadOf(s.reg.due);
      AdmitStruct(s, x, now, tokens);
      AdmitLive(s, x, now, tokens);
      DispatchSays(Admit(s, x, now, tokens), now, tokens);
    }
  }

  // ---------------------------------------------------------------- the minimum interval, exactly

  /** A row is as it was, or new, as far as its connection and its clamp go. */
  ghost predicate SameClamps(subs: Subs, subs': Subs) {
    && (forall x :: x in subs' ==>
          if x in subs then subs'[x].client == subs[x].client && subs'[x].nextAttempt == subs[x].nextAttempt
          else subs'[x].nextAttempt == 0)
    && subs.Keys <= subs'.Keys
  }

  lemma MarkClamps(p: Reg, x: Id, now: nat)
    requires x in p.subs
    ensures SameClamps(p.subs, Mark(p, x, now).subs)
  {
    if !p.subs[x].reading { RequeueFields(p, x, now); }
  }

  lemma {:induction false} MarkAllClamps(p: Reg, cs: seq<Conn>, now: nat)
    ensures SameClamps(p.subs, MarkAll(p, cs, now).subs)
  {
    if cs != [] {
      MarkAllClamps(p, cs[..|cs|-1], now);
      var q, c := MarkAll(p, cs[..|cs|-1], now), cs[|cs|-1];
      if c in q.active && q.active[c] in q.subs { MarkClamps(q, q.active[c], now); }
    }
  }

  lemma {:induction false} DropAllClamps(p: Reg, cs: seq<Conn>)
    ensures SameClamps(p.subs, DropAll(p, cs).subs)
  {
    if cs != [] {
      DropAllClamps(p, cs[..|cs|-1]);
      var q, c := DropAll(p, cs[..|cs|-1]), cs[|cs|-1];
      if c in q.active && q.active[c] in q.subs { DropFields(q, q.active[c]); }
    }
  }

  lemma RowClamps(subs: Subs, x: Id, o: Sub)
    requires if x in subs then o.client == subs[x].client && o.nextAttempt == subs[x].nextAttempt
             else o.nextAttempt == 0
    ensures SameClamps(subs, subs[x := o])
  {}

  lemma ClampsTransitive(a: Subs, b: Subs, c: Subs)
    requires SameClamps(a, b) && SameClamps(b, c)
    ensures SameClamps(a, c)
  {}

  lemma SettledClamps(p: Reg, c: Conn, spare: Id, revision: int, users: set<string>)
    requires Own(p.subs, p.onlineSub, p.active) && (c in p.onlineSub || spare !in p.subs)
    ensures var q := Settled(p, c, spare, revision, users);
            SubIdOf(p, c, spare) in q.subs && SameClamps(p.subs, q.subs)
  {
    SubOfIs(p, c, spare);
    SettledFields(p, c, spare, revision, users);
    var o := SubOf(p, c, spare);
    RowClamps(p.subs, SubIdOf(p, c, spare),
      o.(revision := revision, users := users, remark := false, lastSuccess := 0));
  }

  lemma SubscribeClamps(s: State, c: Conn, spare: Id, revision: int, users: set<string>, now: nat)
    requires Own(s.reg.subs, s.reg.onlineSub, s.reg.active) && spare !in s.reg.subs
    ensures SameClamps(s.reg.subs, Subscribe(s, c, spare, revision, users, now).0.reg.subs)
  {
    if Refused(s, c, spare, revision, users).None? { AcceptedClamps(s.reg, c, spare, revision, users, now); }
  }

  lemma AcceptedClamps(p: Reg, c: Conn, spare: Id, revision: int, users: set<string>, now: nat)
    requires Own(p.subs, p.onlineSub, p.active) && (c in p.onlineSub || spare !in p.subs)
    ensures var q := Settled(p, c, spare, revision, users); var x := SubIdOf(p, c, spare);
            x in q.subs && SameClamps(p.subs, (if users == {} then q else Mark(q, x, now)).subs)
  {
    var x, q := SubIdOf(p, c, spare), Settled(p, c, spare, revision, users);
    SettledClamps(p, c, spare, revision, users);
    if users != {} {
      MarkClamps(q, x, now);
      ClampsTransitive(p.subs, q.subs, Mark(q, x, now).subs);
    }
  }

  lemma DropClamps(p: Reg, x: Id)
    requires x in p.subs
    ensures SameClamps(p.subs, Drop(p, x).subs)
  {
    DropFields(p, x);
  }

  lemma FinishClamps(s: State, job: Job, ok: bool, fate: Fate, now: nat)
    requires job.sub in s.reg.subs && s.pool.slots > 0
    ensures SameClamps(s.reg.subs, Finish(s, job, ok, fate, now).reg.subs)
  {
    FinishRow(s, job, ok, fate, now);
  }

  lemma StepClamps(s: State, e: Event, tokens: nat -> nat)
    requires StructOk(s) && Allowed(s, e) && !e.Pass?
    ensures SameClamps(s.reg.subs, Next(s, e, tokens).reg.subs)
  {
    match e
    case SetSubscriptions(c, spare, revision, users, now) => SubscribeClamps(s, c, spare, revision, users, now);
    case RemoveSubscriptions(c) =>
      if c in s.reg.onlineSub { DropClamps(s.reg, s.reg.onlineSub[c]); }
    case UsersChanged(_, cs, now) => MarkAllClamps(s.reg, cs, now);
    case Exit(cs) => DropAllClamps(s.reg, cs);
    case FinishRead(job, ok, fate, now) =>
      RunningHasSlot(s, job);
      FinishClamps(s, job, ok, fate, now);
    case _ =>
  }

  /** A connection's clamp is one second after some admission of its own, or was never set. */
  ghost predicate Clamped(subs: Subs, admitted: seq<(Conn, nat)>) {
    forall x :: x in subs && subs[x].nextAttempt != 0 ==>
      exists i :: 0 <= i < |admitted| && admitted[i].0 == subs[x].client
                  && subs[x].nextAttempt == admitted[i].1 + 1_000_000_000
  }

  lemma ClampedAdmit(s: State, x: Id, now: nat, tokens: nat -> nat)
    requires Clamped(s.reg.subs, s.hist.admitted) && x in s.reg.subs
    ensures var a := Admit(s, x, now, tokens); Clamped(a.reg.subs, a.hist.admitted)
  {
    var a := Admit(s, x, now, tokens);
    assert a.hist.admitted[|s.hist.admitted|] == (s.reg.subs[x].client, now);
    forall y | y in a.reg.subs && a.reg.subs[y].nextAttempt != 0
      ensures exists i :: 0 <= i < |a.hist.admitted| && a.hist.admitted[i].0 == a.reg.subs[y].client
                          && a.reg.subs[y].nextAttempt == a.hist.admitted[i].1 + 1_000_000_000
    {
      if y != x {
        var i :| 0 <= i < |s.hist.admitted| && s.hist.admitted[i].0 == s.reg.subs[y].client
                 && s.reg.subs[y].nextAttempt == s.hist.admitted[i].1 + 1_000_000_000;
        assert a.hist.admitted[i] == s.hist.admitted[i];
      }
    }
  }

  lemma {:induction false} DispatchClamped(s: State, now: nat, tokens: nat -> nat)
    requires Clamped(s.reg.subs, s.hist.admitted)
    ensures var a := Dispatch(s, now, tokens).0; Clamped(a.reg.subs, a.hist.admitted)
    decreases |s.reg.due|
  {
    if Blocked(s, now).None? && HeadOf(s.reg.due) in s.reg.subs {
      var x := HeadOf(s.reg.due);
      assert |s.reg.due - {x}| < |s.reg.due| by { assert (s.reg.due - {x}).Keys == s.reg.due.Keys - {x}; }
      ClampedAdmit(s, x, now, tokens);
      DispatchClamped(Admit(s, x, now, tokens), now, tokens);
    }
  }

  lemma {:induction false} RunClamped(s: State, es: seq<Event>, tokens: nat -> nat)
    requires Good(s) && Clamped(s.reg.subs, s.hist.admitted) && Run(s, es, tokens).Some?
    ensures var a := Run(s, es, tokens).value; Clamped(a.reg.subs, a.hist.admitted)
    decreases |es|
  {
    if es != [] {
      var s' := Next(s, es[0], tokens);
      assert Clamped(s'.reg.subs, s'.hist.admitted) by { StepClamped(s, es[0], tokens); }
      assert Good(s') by { StepGood(s, es[0], tokens); }
      RunClamped(s', es[1..], tokens);
    }
  }

  lemma StepClamped(s: State, e: Event, tokens: nat -> nat)
    requires StructOk(s) && Clamped(s.reg.subs, s.hist.admitted) && Allowed(s, e)
    ensures var a := Next(s, e, tokens); Clamped(a.reg.subs, a.hist.admitted)
  {
    if e.Pass? {
      DispatchClamped(s, e.now, tokens);
    } else {
      StepClamps(s, e, tokens);
      StepClock(s, e, tokens);
    }
  }

  /**
   A connection may be read again exactly one second after it last was: its clamp is that moment, for every admission it
   ever had, and none before it had one.
   */
  lemma ClampIsLastAdmission(s: State, tokens: nat -> nat, x: Id)
    requires Reachable(s, tokens) && x in s.reg.subs
    ensures var c, at := s.reg.subs[x].client, s.reg.subs[x].nextAttempt; var a := s.hist.admitted;
            && (at == 0 <==> forall i :: 0 <= i < |a| ==> a[i].0 != c)
            && (at != 0 ==> exists i :: 0 <= i < |a| && a[i].0 == c && at == a[i].1 + 1_000_000_000)
            && (forall i :: 0 <= i < |a| && a[i].0 == c ==> a[i].1 + 1_000_000_000 <= at)
  {
    var c, a := s.reg.subs[x].client, s.hist.admitted;
    assert Clamped(s.reg.subs, a) by {
      var es :| Run(Init(tokens), es, tokens) == Some(s);
      InitGood(tokens);
      RunClamped(Init(tokens), es, tokens);
    }
    assert TimeOk(s.reg.subs, a, s.clock) && Unique(s.reg.subs, s.reg.onlineSub, s.dead, s.stopped) by {
      ReachableGood(s, tokens);
    }
    forall i | 0 <= i < |a| && a[i].0 == c ensures a[i].1 + 1_000_000_000 <= s.reg.subs[x].nextAttempt {
      assert Spaced(s.reg.subs, a[i]);
    }
  }

  /** y is served before x when it is due earlier, or as early and queued longer. */
  predicate ServedBefore(y: Rank, x: Rank) { y.readyAt < x.readyAt || (y.readyAt == x.readyAt && y.order < x.order) }

  /**
   A requeue names the later of the moment asked for and the clamp, moves a queued entry only forward, and wakes the
   dispatcher exactly when the entry moved and is now the first to be served: an idle node is not woken for nothing.
   */
  lemma RequeueMoves(p: Reg, x: Id, at: nat)
    requires x in p.subs
    ensures var q := Requeue(p, x, at); var when := if at < p.subs[x].nextAttempt then p.subs[x].nextAttempt else at;
            && x in q.due && q.due == p.due[x := q.due[x]] && q == p.(due := q.due, order := q.order, wake := q.wake)
            && (x in p.due && p.due[x].readyAt <= when ==> q == p)
            && (x in p.due && when < p.due[x].readyAt ==> q.due[x] == Rank(when, p.due[x].order) && q.order == p.order)
            && (x !in p.due ==> q.due[x] == Rank(when, p.order) && q.order == p.order + 1)
            && (q.wake <==> p.wake || (q.due != p.due && forall y :: y in q.due ==> !ServedBefore(q.due[y], q.due[x])))
  {
    var q := Requeue(p, x, at);
    RequeueFields(p, x, at);
    if !(x in p.due && p.due[x].readyAt <= Max(at, p.subs[x].nextAttempt)) {
      assert x in p.due ==> q.due[x] != p.due[x];
      assert forall y :: y in q.due ==> (Before(q.due[y], q.due[x]) <==> ServedBefore(q.due[y], q.due[x]));
    }
  }

  // ---------------------------------------------------------------- requests

  /** Whom connection c watches. */
  function Watched(p: Reg, c: Conn): set<string> {
    if c in p.active && p.active[c] in p.subs then p.subs[p.active[c]].users else {}
  }

  /** The revision a connection has reached, 0 before its first. */
  function Revision(p: Reg, c: Conn): int {
    if c in p.onlineSub && p.onlineSub[c] in p.subs then p.subs[p.onlineSub[c]].revision else 0
  }

  lemma SubOfNow(p: Reg, c: Conn, spare: Id)
    requires Own(p.subs, p.onlineSub, p.active) && spare !in p.subs
    ensures SubOf(p, c, spare).revision == Revision(p, c) && SubOf(p, c, spare).users == Watched(p, c)
  {}

  /** The request goes through: a newer revision of a live connection on a running node with room for its set. */
  ghost predicate Accepts(s: State, c: Conn, revision: int, users: set<string>) {
    && !Over(s) && c !in s.dead && Revision(s.reg, c) < revision
    && Sum(WatchedBy(s.reg)) - |Watched(s.reg, c)| + |users| <= 100_000
  }

  /** Every answer a subscribe request can get, and when. */
  lemma SubscribeAnswers(s: State, tokens: nat -> nat, c: Conn, spare: Id, revision: int, users: set<string>, now: nat)
    requires Reachable(s, tokens) && Allowed(s, SetSubscriptions(c, spare, revision, users, now))
    ensures var (s', r) := Subscribe(s, c, spare, revision, users, now);
            var live, at := !Over(s) && c !in s.dead, Revision(s.reg, c); var same := users == Watched(s.reg, c);
            && (r == NodeDraining <==> Over(s)) && (r == ConnClosed <==> !Over(s) && c in s.dead)
            && (r == InvalidParam <==> live && (revision < at || (revision == at && !same)))
            && (r == TooManyRequests <==> live && at < revision && !Accepts(s, c, revision, users))
            && (r.Ack? <==> (live && revision == at && same) || Accepts(s, c, revision, users))
            && (r.Ack? ==> r.revision == revision) && r != InvalidProtocol
            && (!Accepts(s, c, revision, users) ==> s' == s.(clock := now))
  {
    assert Own(s.reg.subs, s.reg.onlineSub, s.reg.active) by { ReachableGood(s, tokens); }
    SubOfNow(s.reg, c, spare);
    RefsAreCounted(s, tokens);
  }

  lemma MarkWatches(p: Reg, x: Id, now: nat, d: Conn)
    requires x in p.subs
    ensures Watched(Mark(p, x, now), d) == Watched(p, d) && Revision(Mark(p, x, now), d) == Revision(p, d)
  {
    if !p.subs[x].reading { RequeueFields(p, x, now); }
  }

  /** One connection's subscription is replaced. */
  lemma ReplacedWatches(p: Reg, q: Reg, c: Conn, x: Id, o: Sub, d: Conn)
    requires Own(p.subs, p.onlineSub, p.active) && (if c in p.onlineSub then x == p.onlineSub[c] else x !in p.subs)
    requires q.subs == p.subs[x := o] && q.onlineSub == p.onlineSub[c := x]
    requires q.active == if o.users == {} then p.active - {c} else p.active[c := x]
    ensures Watched(q, d) == (if d == c then o.users else Watched(p, d))
    ensures Revision(q, d) == (if d == c then o.revision else Revision(p, d))
  {}

  lemma SettledWatches(p: Reg, c: Conn, spare: Id, revision: int, users: set<string>, d: Conn)
    requires Own(p.subs, p.onlineSub, p.active) && spare !in p.subs
    ensures var q := Settled(p, c, spare, revision, users);
            && SubIdOf(p, c, spare) in q.subs && Watched(q, d) == (if d == c then users else Watched(p, d))
            && Revision(q, d) == (if d == c then revision else Revision(p, d))
  {
    SubOfIs(p, c, spare);
    SettledFields(p, c, spare, revision, users);
    var o := SubOf(p, c, spare);
    ReplacedWatches(p, Settled(p, c, spare, revision, users), c, SubIdOf(p, c, spare),
                    o.(revision := revision, users := users, remark := false, lastSuccess := 0), d);
  }

  lemma AcceptedWatches(p: Reg, c: Conn, spare: Id, revision: int, users: set<string>, now: nat, d: Conn)
    requires Own(p.subs, p.onlineSub, p.active) && spare !in p.subs
    ensures var q := Settled(p, c, spare, revision, users); var x := SubIdOf(p, c, spare);
            && x in q.subs
            && var q' := if users == {} then q else Mark(q, x, now);
            && Watched(q', d) == (if d == c then users else Watched(p, d))
            && Revision(q', d) == (if d == c then revision else Revision(p, d))
  {
    SettledWatches(p, c, spare, revision, users, d);
    if users != {} { MarkWatches(Settled(p, c, spare, revision, users), SubIdOf(p, c, spare), now, d); }
  }

  /** An accepted set is watched from then on, by this connection at this revision; nobody else's changes. */
  lemma SubscribeLeaves(
    s: State, tokens: nat -> nat, c: Conn, spare: Id, revision: int, users: set<string>, now: nat, d: Conn)
    requires Reachable(s, tokens) && Allowed(s, SetSubscriptions(c, spare, revision, users, now))
    requires Accepts(s, c, revision, users)
    ensures var s' := Subscribe(s, c, spare, revision, users, now).0;
            && Watched(s'.reg, d) == (if d == c then users else Watched(s.reg, d))
            && Revision(s'.reg, d) == (if d == c then revision else Revision(s.reg, d))
            && (c, revision) in s'.hist.accepted && s'.hist.accepted[(c, revision)] == users
  {
    assert Own(s.reg.subs, s.reg.onlineSub, s.reg.active) by { ReachableGood(s, tokens); }
    assert Refused(s, c, spare, revision, users).None? by {
      SubOfNow(s.reg, c, spare);
      RefsAreCounted(s, tokens);
    }
    AcceptedWatches(s.reg, c, spare, revision, users, now, d);
  }

  // ---------------------------------------------------------------- what goes and what stays

  lemma ForgottenWatches(p: Reg, q: Reg, c: Conn, o: Sub, d: Conn)
    requires Own(p.subs, p.onlineSub, p.active) && c in p.onlineSub
    requires q.subs == p.subs[p.onlineSub[c] := o] && q.onlineSub == p.onlineSub - {c} && q.active == p.active - {c}
    ensures Watched(q, d) == (if d == c then {} else Watched(p, d))
    ensures Revision(q, d) == (if d == c then 0 else Revision(p, d))
  {}

  /** Removing a connection's subscriptions ends its own and nobody else's, and takes it out of the queue. */
  lemma UnsubscribeLeaves(s: State, tokens: nat -> nat, c: Conn, d: Conn)
    requires Reachable(s, tokens)
    ensures var p := Unsubscribe(s.reg, c);
            && Watched(p, d) == (if d == c then {} else Watched(s.reg, d))
            && Revision(p, d) == (if d == c then 0 else Revision(s.reg, d)) && c !in p.onlineSub && c !in p.active
            && p.due == if c in s.reg.onlineSub then s.reg.due - {s.reg.onlineSub[c]} else s.reg.due
  {
    var p := s.reg;
    assert Own(p.subs, p.onlineSub, p.active) by { ReachableGood(s, tokens); }
    if c in p.onlineSub {
      DropFields(p, p.onlineSub[c]);
      ForgottenWatches(p, Unsubscribe(p, c), c, p.subs[p.onlineSub[c]].(remark := false), d);
    }
  }

  /** c is in none of the walked connections, so a mark leaves it alone. */
  lemma {:induction false} UnmarkedStays(p: Reg, cs: seq<Conn>, now: nat, x: Id)
    requires Own(p.subs, p.onlineSub, p.active) && x in p.subs && p.subs[x].client !in cs
    ensures var q := MarkAll(p, cs, now);
            && q.subs.Keys == p.subs.Keys && q.active == p.active && q.onlineSub == p.onlineSub
            && (forall y :: y in p.subs ==> q.subs[y].client == p.subs[y].client && q.subs[y].users == p.subs[y].users)
            && q.subs[x] == p.subs[x] && (x in q.due <==> x in p.due) && (x in p.due ==> q.due[x] == p.due[x])
  {
    if cs != [] {
      UnmarkedStays(p, cs[..|cs|-1], now, x);
      var q, c := MarkAll(p, cs[..|cs|-1], now), cs[|cs|-1];
      if c in q.active && q.active[c] in q.subs && !q.subs[q.active[c]].reading { RequeueFields(q, q.active[c], now); }
    }
  }

  lemma {:induction false} WalkedWatch(byUser: map<string, set<Conn>>, users: seq<string>, cs: seq<Conn>, c: Conn)
    requires WalkOrder(byUser, users, cs) && c in cs
    ensures exists u :: u in users && c in Watchers(byUser, u)
  {
    var k :| 0 <= k <= |cs| && IsEnumeration(cs[k..], Watchers(byUser, users[|users|-1]))
             && WalkOrder(byUser, users[..|users|-1], cs[..k]);
    if c in cs[k..] {
      assert users[|users|-1] in users && c in Watchers(byUser, users[|users|-1]);
    } else {
      assert cs == cs[..k] + cs[k..];
      WalkedWatch(byUser, users[..|users|-1], cs[..k], c);
      var u :| u in users[..|users|-1] && c in Watchers(byUser, u);
      assert u in users;
    }
  }

  /**
   A presence change concerns those who watch a changed user, and leaves everyone else's reads where they are; a node
   that stops ignores it.
   */
  lemma ChangeLeavesOthers(s: State, tokens: nat -> nat, changed: seq<string>, cs: seq<Conn>, now: nat, x: Id)
    requires Reachable(s, tokens) && Allowed(s, UsersChanged(changed, cs, now)) && x in s.reg.subs
    requires forall u :: u in changed ==> u !in Watched(s.reg, s.reg.subs[x].client)
    ensures Over(s) ==> Next(s, UsersChanged(changed, cs, now), tokens).reg == s.reg
    ensures var p := Next(s, UsersChanged(changed, cs, now), tokens).reg;
            && x in p.subs && p.subs[x] == s.reg.subs[x]
            && (x in p.due <==> x in s.reg.due) && (x in p.due ==> p.due[x] == s.reg.due[x])
  {
    var c := s.reg.subs[x].client;
    assert Own(s.reg.subs, s.reg.onlineSub, s.reg.active) by { ReachableGood(s, tokens); }
    if c in cs {
      WalkedWatch(s.reg.byUser, changed, cs, c);
      var u :| u in changed && c in Watchers(s.reg.byUser, u);
      IndexIsInverse(s, tokens, u, c);
      assert false;
    }
    UnmarkedStays(s.reg, cs, now, x);
  }

  lemma {:induction false} DropAllEmpties(p: Reg, cs: seq<Conn>, dead: set<Conn>)
    requires RegOk(p, dead, true, true)
    ensures forall c :: c in DropAll(p, cs).active <==> c in p.active && c !in cs
  {
    if cs != [] {
      var front, c := cs[..|cs|-1], cs[|cs|-1];
      DropAllEmpties(p, front, dead);
      DropAllKeeps(p, front, dead);
      var q := DropAll(p, front);
      if c in q.active { DropFields(q, q.active[c]); }
      assert forall d :: d in cs <==> d in front || d == c;
    }
  }

  lemma NobodyIsWatched(w: Sets, byUser: Index)
    requires Inverse(w, byUser) && w == map[]
    ensures byUser == map[]
  {
    forall u ensures u !in byUser {
      forall c ensures c !in Watchers(byUser, u) { assert c !in w; }
      assert Watchers(byUser, u) == {};
    }
  }

  lemma NobodyIsLeft(p: Reg, dead: set<Conn>)
    requires RegOk(p, dead, true, true) && p.active == map[]
    ensures p.byUser == map[] && p.due == map[] && p.refs == 0
  {
    assert SetsOf(p.subs, p.active) == map[] && Sizes(SetsOf(p.subs, p.active)) == map[];
    NobodyIsWatched(SetsOf(p.subs, p.active), p.byUser);
    forall x ensures x !in p.due {}
  }

  /** A dispatcher that leaves takes everything with it: nobody watches, nothing is queued, no reference is left. */
  lemma ExitLeavesNothing(s: State, tokens: nat -> nat, cs: seq<Conn>)
    requires Reachable(s, tokens) && Allowed(s, Exit(cs))
    ensures var p := Next(s, Exit(cs), tokens).reg;
            p.active == map[] && p.byUser == map[] && p.due == map[] && p.refs == 0
  {
    var p := DropAll(s.reg, cs);
    assert RegOk(s.reg, s.dead, true, true) by {
      ReachableGood(s, tokens);
      StoppedKeeps(s);
    }
    DropAllEmpties(s.reg, cs, s.dead);
    assert RegOk(p, s.dead, true, true) by { DropAllKeeps(s.reg, cs, s.dead); }
    assert p.active == map[];
    NobodyIsLeft(p, s.dead);
  }

  lemma StoppedKeeps(s: State)
    requires StructOk(s)
    ensures RegOk(s.reg, s.dead, true, true)
  {}
}
