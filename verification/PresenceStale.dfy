/** When a stale frame qualifies a snapshot the connection already has, and when it does not. */
module PresenceStale {
  import opened Common
  import opened DueHeap
  import opened PresenceModel
  import opened PresenceInvariants
  import opened PresenceSteps
  import opened PresenceTheorems

  /** A real snapshot of revision r was read for connection c. */
  ghost predicate Answered(offers: seq<Offer>, c: Conn, r: int) {
    exists i :: 0 <= i < |offers| && offers[i].client == c && offers[i].revision == r && !offers[i].stale
  }

  /** A recorded success is a snapshot that was read for the current revision. */
  ghost predicate Recorded(subs: Subs, offers: seq<Offer>) {
    forall x :: x in subs && subs[x].lastSuccess != 0 ==> Answered(offers, subs[x].client, subs[x].revision)
  }

  ghost predicate StaleAt(offers: seq<Offer>, j: int)
    requires 0 <= j < |offers|
  {
    offers[j].stale ==> Answered(offers[..j], offers[j].client, offers[j].revision)
  }

  ghost predicate StaleOk(offers: seq<Offer>) { forall j :: 0 <= j < |offers| ==> StaleAt(offers, j) }

  /** Every success in subs' was one in subs, for the same connection and revision. */
  ghost predicate NoNewSuccess(subs: Subs, subs': Subs) {
    forall x :: x in subs' && subs'[x].lastSuccess != 0 ==>
      x in subs && subs[x].lastSuccess != 0 && subs[x].client == subs'[x].client
        && subs[x].revision == subs'[x].revision
  }

  lemma RecordedStays(subs: Subs, subs': Subs, offers: seq<Offer>)
    requires Recorded(subs, offers) && NoNewSuccess(subs, subs')
    ensures Recorded(subs', offers)
  {}

  lemma AnsweredGrows(offers: seq<Offer>, f: Offer, c: Conn, r: int)
    requires Answered(offers, c, r)
    ensures Answered(offers + [f], c, r)
  {
    var i :| 0 <= i < |offers| && offers[i].client == c && offers[i].revision == r && !offers[i].stale;
    assert (offers + [f])[i] == offers[i];
  }

  lemma StaleGrows(offers: seq<Offer>, f: Offer)
    requires StaleOk(offers) && (f.stale ==> Answered(offers, f.client, f.revision))
    ensures StaleOk(offers + [f])
  {
    var all := offers + [f];
    forall j | 0 <= j < |all| ensures StaleAt(all, j) {
      if j < |offers| {
        assert StaleAt(offers, j);
        assert all[..j] == offers[..j];
      } else {
        assert all[..j] == offers;
      }
    }
  }

  // ---------------------------------------------------------------- what moves rows

  lemma MarkSuccess(p: Reg, x: Id, now: nat)
    requires x in p.subs
    ensures NoNewSuccess(p.subs, Mark(p, x, now).subs)
  {
    MarkIsMarked(p, x, now);
  }

  lemma NoNewTransitive(a: Subs, b: Subs, c: Subs)
    requires NoNewSuccess(a, b) && NoNewSuccess(b, c)
    ensures NoNewSuccess(a, c)
  {}

  lemma {:induction false} MarkAllSuccess(p: Reg, cs: seq<Conn>, now: nat)
    ensures NoNewSuccess(p.subs, MarkAll(p, cs, now).subs)
  {
    if cs != [] {
      MarkAllSuccess(p, cs[..|cs|-1], now);
      var q, c := MarkAll(p, cs[..|cs|-1], now), cs[|cs|-1];
      if c in q.active && q.active[c] in q.subs {
        MarkSuccess(q, q.active[c], now);
        NoNewTransitive(p.subs, q.subs, Mark(q, q.active[c], now).subs);
      }
    }
  }

  lemma {:induction false} DropAllSuccess(p: Reg, cs: seq<Conn>)
    ensures NoNewSuccess(p.subs, DropAll(p, cs).subs)
  {
    if cs != [] {
      DropAllSuccess(p, cs[..|cs|-1]);
      var q, c := DropAll(p, cs[..|cs|-1]), cs[|cs|-1];
      if c in q.active && q.active[c] in q.subs { DropFields(q, q.active[c]); }
    }
  }

  lemma SettledSuccess(p: Reg, c: Conn, spare: Id, revision: int, users: set<string>)
    requires Own(p.subs, p.onlineSub, p.active) && (c in p.onlineSub || spare !in p.subs)
    ensures var q := Settled(p, c, spare, revision, users);
            SubIdOf(p, c, spare) in q.subs && NoNewSuccess(p.subs, q.subs)
  {
    SubOfIs(p, c, spare);
    SettledFields(p, c, spare, revision, users);
  }

  lemma SubscribeSuccess(s: State, c: Conn, spare: Id, revision: int, users: set<string>, now: nat)
    requires Own(s.reg.subs, s.reg.onlineSub, s.reg.active) && spare !in s.reg.subs
    ensures NoNewSuccess(s.reg.subs, Subscribe(s, c, spare, revision, users, now).0.reg.subs)
  {
    if Refused(s, c, spare, revision, users).None? {
      var q, x := Settled(s.reg, c, spare, revision, users), SubIdOf(s.reg, c, spare);
      SettledSuccess(s.reg, c, spare, revision, users);
      if users != {} {
        MarkSuccess(q, x, now);
        NoNewTransitive(s.reg.subs, q.subs, Mark(q, x, now).subs);
      }
    }
  }

  lemma {:induction false} DispatchSuccess(s: State, now: nat, tokens: nat -> nat)
    ensures NoNewSuccess(s.reg.subs, Dispatch(s, now, tokens).0.reg.subs)
    decreases |s.reg.due|
  {
    if Blocked(s, now).None? && HeadOf(s.reg.due) in s.reg.subs {
      var x := HeadOf(s.reg.due);
      assert |s.reg.due - {x}| < |s.reg.due| by { assert (s.reg.due - {x}).Keys == s.reg.due.Keys - {x}; }
      var s' := Admit(s, x, now, tokens);
      DispatchSuccess(s', now, tokens);
      NoNewTransitive(s.reg.subs, s'.reg.subs, Dispatch(s', now, tokens).0.reg.subs);
    }
  }

  // ---------------------------------------------------------------- what makes offers

  ghost predicate Honest(s: State) { Recorded(s.reg.subs, s.hist.offers) && StaleOk(s.hist.offers) }

  lemma DeliveredHonest(s: State, job: Job, ok: bool, fate: Fate, now: nat)
    requires Honest(s) && job.sub in s.reg.subs
    ensures Honest(Delivered(s, job, ok, fate, now))
  {
    var sub := s.reg.subs[job.sub];
    if Sends(sub, job, ok, now) {
      var f := Offer(sub.client, sub.revision, job.users, !ok, fate);
      StaleGrows(s.hist.offers, f);
      var s' := Delivered(s, job, ok, fate, now);
      assert (s.hist.offers + [f])[|s.hist.offers|] == f;
      forall x | x in s'.reg.subs && s'.reg.subs[x].lastSuccess != 0
        ensures Answered(s'.hist.offers, s'.reg.subs[x].client, s'.reg.subs[x].revision)
      {
        if x != job.sub || !ok { AnsweredGrows(s.hist.offers, f, s.reg.subs[x].client, s.reg.subs[x].revision); }
      }
    }
  }

  lemma FinishHonest(s: State, job: Job, ok: bool, fate: Fate, now: nat)
    requires Honest(s) && job.sub in s.reg.subs && s.pool.slots > 0
    ensures Honest(Finish(s, job, ok, fate, now))
  {
    var d := Completed(s.(clock := now), job);
    RecordedStays(s.reg.subs, d.reg.subs, s.hist.offers);
    if StillWanted(d, job.sub) {
      var x := job.sub;
      RequeueFields(SetSub(d.reg, x, d.reg.subs[x].(remark := false)), x,
                    if d.reg.subs[x].remark then now else now + SNAPSHOT_INTERVAL);
      var r := d.(reg := Rescheduled(d.reg, x, now));
      RecordedStays(d.reg.subs, r.reg.subs, s.hist.offers);
      DeliveredHonest(r, job, ok, fate, now);
    }
  }

  lemma StepHonest(s: State, e: Event, tokens: nat -> nat)
    requires Own(s.reg.subs, s.reg.onlineSub, s.reg.active) && Honest(s) && Allowed(s, e)
    ensures Honest(Next(s, e, tokens))
  {
    var p, s' := s.reg, Next(s, e, tokens);
    match e
    case FinishRead(job, ok, fate, now) =>
      if job.sub in p.subs && s.pool.slots > 0 { FinishHonest(s, job, ok, fate, now); }
    case SetSubscriptions(c, spare, revision, users, now) =>
      SubscribeSuccess(s, c, spare, revision, users, now); RecordedStays(p.subs, s'.reg.subs, s.hist.offers);
    case RemoveSubscriptions(c) =>
      if c in p.onlineSub { DropFields(p, p.onlineSub[c]); }
      RecordedStays(p.subs, s'.reg.subs, s.hist.offers);
    case UsersChanged(_, cs, now) => MarkAllSuccess(p, cs, now); RecordedStays(p.subs, s'.reg.subs, s.hist.offers);
    case Pass(now) =>
      DispatchFrames(s, now, tokens);
      DispatchSuccess(s, now, tokens);
      RecordedStays(p.subs, s'.reg.subs, s.hist.offers);
    case Exit(cs) => DropAllSuccess(p, cs); RecordedStays(p.subs, s'.reg.subs, s.hist.offers);
    case _ =>
  }

  lemma {:induction false} RunHonest(s: State, es: seq<Event>, tokens: nat -> nat)
    requires Good(s) && Honest(s) && Run(s, es, tokens).Some?
    ensures Honest(Run(s, es, tokens).value)
    decreases |es|
  {
    if es != [] {
      var s' := Next(s, es[0], tokens);
      assert Good(s') by { StepGood(s, es[0], tokens); }
      assert Honest(s') by { StepHonest(s, es[0], tokens); }
      RunHonest(s', es[1..], tokens);
    }
  }

  // ---------------------------------------------------------------- a closing connection

  /** An offer that found its connection closing is the last one made to that connection. */
  ghost predicate Final(offers: seq<Offer>, dead: set<Conn>) {
    forall i :: 0 <= i < |offers| && offers[i].fate.ConnClosing? ==>
      offers[i].client in dead && forall j :: i < j < |offers| ==> offers[j].client != offers[i].client
  }

  lemma FinishFinal(s: State, job: Job, ok: bool, fate: Fate, now: nat)
    requires Final(s.hist.offers, s.dead) && job.sub in s.reg.subs && s.pool.slots > 0
    ensures var s' := Finish(s, job, ok, fate, now); Final(s'.hist.offers, s'.dead)
  {
    var d, x := Completed(s.(clock := now), job), job.sub;
    if StillWanted(d, x) {
      RequeueFields(SetSub(d.reg, x, d.reg.subs[x].(remark := false)), x,
                    if d.reg.subs[x].remark then now else now + SNAPSHOT_INTERVAL);
      assert s.reg.subs[x].client !in s.dead;
    }
  }

  lemma {:induction false} RunFinal(s: State, es: seq<Event>, tokens: nat -> nat)
    requires Good(s) && Final(s.hist.offers, s.dead) && Run(s, es, tokens).Some?
    ensures var s' := Run(s, es, tokens).value; Final(s'.hist.offers, s'.dead)
    decreases |es|
  {
    if es != [] {
      var s' := Next(s, es[0], tokens);
      assert Good(s') by { StepGood(s, es[0], tokens); }
      assert Final(s'.hist.offers, s'.dead) by { StepFinal(s, es[0], tokens); }
      RunFinal(s', es[1..], tokens);
    }
  }

  lemma StepFinal(s: State, e: Event, tokens: nat -> nat)
    requires Final(s.hist.offers, s.dead) && Allowed(s, e)
    ensures var s' := Next(s, e, tokens); Final(s'.hist.offers, s'.dead)
  {
    match e
    case FinishRead(job, ok, fate, now) =>
      if job.sub in s.reg.subs && s.pool.slots > 0 { FinishFinal(s, job, ok, fate, now); }
    case Pass(now) => DispatchFrames(s, now, tokens);
    case _ =>
  }

  // ---------------------------------------------------------------- what a stale frame follows

  /** Offer i is a successful read of offer j's revision, made to the same connection before it. */
  ghost predicate Precedes(offers: seq<Offer>, i: int, j: int) {
    0 <= i < j < |offers| && offers[i].client == offers[j].client && offers[i].revision == offers[j].revision
      && !offers[i].stale
  }

  /**
   A stale frame always follows a successful read of its revision, and never one that found the connection closing.
   */
  lemma StaleFollowsRead(s: State, tokens: nat -> nat, j: nat)
    requires Reachable(s, tokens) && j < |s.hist.offers| && s.hist.offers[j].stale
    ensures exists i :: Precedes(s.hist.offers, i, j)
    ensures forall i :: Precedes(s.hist.offers, i, j) ==> !s.hist.offers[i].fate.ConnClosing?
  {
    var es :| Run(Init(tokens), es, tokens) == Some(s);
    var f := s.hist.offers;
    assert StaleOk(f) by { InitGood(tokens); RunHonest(Init(tokens), es, tokens); }
    assert StaleAt(f, j);
    var i :| 0 <= i < |f[..j]| && f[..j][i].client == f[j].client && f[..j][i].revision == f[j].revision
      && !f[..j][i].stale;
    assert f[..j][i] == f[i];
    assert Precedes(f, i, j);
    assert Final(f, s.dead) by { InitGood(tokens); RunFinal(Init(tokens), es, tokens); }
  }

  /**
   A stale frame stands alone, with no real snapshot of its revision enqueued on the connection before it, exactly when
   that revision was read successfully and the budget or a full queue turned away every snapshot of it.
   */
  lemma StaleStandsAlone(s: State, tokens: nat -> nat, j: nat)
    requires Reachable(s, tokens) && j < |s.hist.offers| && s.hist.offers[j].stale
    ensures (forall i :: Precedes(s.hist.offers, i, j) ==> !s.hist.offers[i].fate.Enqueued?)
            <==> (exists i :: Precedes(s.hist.offers, i, j)) &&
                 forall i :: Precedes(s.hist.offers, i, j) ==>
                   s.hist.offers[i].fate.OverBudget? || s.hist.offers[i].fate.QueueFull?
  {
    StaleFollowsRead(s, tokens, j);
  }

  /** A failed read is reported as stale only 90 seconds after the last successful read of its revision. */
  lemma StaleNeedsSilence(s: State, tokens: nat -> nat, job: Job, ok: bool, fate: Fate, now: nat, f: Offer)
    requires Reachable(s, tokens) && Allowed(s, FinishRead(job, ok, fate, now)) && job.sub in s.reg.subs
    requires Next(s, FinishRead(job, ok, fate, now), tokens).hist.offers == s.hist.offers + [f] && f.stale
    ensures !ok && 0 < s.reg.subs[job.sub].lastSuccess <= now - 90_000_000_000
  {
    assert s.pool.slots > 0 by { ReachableGood(s, tokens); RunningHasSlot(s, job); }
    FinishedStale(s, job, ok, fate, now, f);
  }

  lemma FinishedStale(s: State, job: Job, ok: bool, fate: Fate, now: nat, f: Offer)
    requires job.sub in s.reg.subs && s.pool.slots > 0
             && Finish(s, job, ok, fate, now).hist.offers == s.hist.offers + [f] && f.stale
    ensures !ok && 0 < s.reg.subs[job.sub].lastSuccess <= now - STALE_AFTER
  {
    var d, x := Completed(s.(clock := now), job), job.sub;
    RequeueFields(SetSub(d.reg, x, d.reg.subs[x].(remark := false)), x,
                  if d.reg.subs[x].remark then now else now + SNAPSHOT_INTERVAL);
    assert |s.hist.offers + [f]| != |s.hist.offers|;
    assert (s.hist.offers + [f])[|s.hist.offers|] == f;
  }
}
