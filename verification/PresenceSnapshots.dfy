/** Snapshot agreement: what a presence frame names is what was read, and revisions on a connection never go back. */
module PresenceSnapshots {
  import opened Common
  import opened DueHeap
  import opened PresenceModel
  import opened PresenceInvariants
  import opened PresenceSteps
  import opened PresenceTiming

  type Accepted = map<(Conn, int), set<string>>

  /** The current set of every subscription is the one accepted for its revision. */
  ghost predicate CurrentOk(subs: Subs, acc: Accepted) {
    forall x :: x in subs ==>
      if subs[x].revision > 0 then (subs[x].client, subs[x].revision) in acc
        && acc[(subs[x].client, subs[x].revision)] == subs[x].users
      else subs[x].revision == 0 && subs[x].users == {}
  }

  /** Connection c has a subscription that has reached revision r. */
  ghost predicate Reached(subs: Subs, c: Conn, r: int) {
    exists x :: x in subs && subs[x].client == c && r <= subs[x].revision
  }

  ghost predicate AcceptedOk(subs: Subs, acc: Accepted) {
    forall c, r {:trigger Reached(subs, c, r)} :: (c, r) in acc ==> Reached(subs, c, r)
  }

  /** A job reads the set its revision was accepted with. */
  ghost predicate JobOk(subs: Subs, acc: Accepted, job: Job) {
    job.sub in subs && (subs[job.sub].client, job.revision) in acc
      && acc[(subs[job.sub].client, job.revision)] == job.users
  }

  ghost predicate JobsOk(subs: Subs, acc: Accepted, jobs: seq<Job>, running: set<Job>) {
    && (forall i :: 0 <= i < |jobs| ==> JobOk(subs, acc, jobs[i]))
    && (forall j :: j in running ==> JobOk(subs, acc, j))
  }

  ghost predicate FrameOk(subs: Subs, acc: Accepted, f: Offer) {
    (f.client, f.revision) in acc && acc[(f.client, f.revision)] == f.users && Reached(subs, f.client, f.revision)
  }

  ghost predicate FramesOk(subs: Subs, acc: Accepted, offers: seq<Offer>) {
    && (forall i :: 0 <= i < |offers| ==> FrameOk(subs, acc, offers[i]))
    && (forall i, j :: 0 <= i < j < |offers| && offers[i].client == offers[j].client ==>
         offers[i].revision <= offers[j].revision)
  }

  ghost predicate Snap(subs: Subs, acc: Accepted, jobs: seq<Job>, running: set<Job>, offers: seq<Offer>) {
    CurrentOk(subs, acc) && AcceptedOk(subs, acc) && JobsOk(subs, acc, jobs, running) && FramesOk(subs, acc, offers)
  }

  ghost predicate SnapOk(s: State) { Snap(s.reg.subs, s.hist.accepted, s.pool.jobs, s.pool.running, s.hist.offers) }

  // ---------------------------------------------------------------- what survives as rows and acceptances grow

  ghost predicate Grows(acc: Accepted, acc': Accepted) { forall k :: k in acc ==> k in acc' && acc'[k] == acc[k] }

  lemma ReachedEvolves(subs: Subs, subs': Subs, c: Conn, r: int)
    requires Reached(subs, c, r) && Evolves(subs, subs')
    ensures Reached(subs', c, r)
  {}

  lemma JobsEvolve(subs: Subs, subs': Subs, acc: Accepted, acc': Accepted, jobs: seq<Job>, running: set<Job>)
    requires JobsOk(subs, acc, jobs, running) && Evolves(subs, subs') && Grows(acc, acc')
    ensures JobsOk(subs', acc', jobs, running)
  {}

  lemma FramesEvolve(subs: Subs, subs': Subs, acc: Accepted, acc': Accepted, offers: seq<Offer>)
    requires FramesOk(subs, acc, offers) && Evolves(subs, subs') && Grows(acc, acc')
    ensures FramesOk(subs', acc', offers)
  {}

  lemma AcceptedEvolve(subs: Subs, subs': Subs, acc: Accepted)
    requires AcceptedOk(subs, acc) && Evolves(subs, subs')
    ensures AcceptedOk(subs', acc)
  {
    forall c, r | (c, r) in acc ensures Reached(subs', c, r) {
      assert Reached(subs, c, r);
      ReachedEvolves(subs, subs', c, r);
    }
  }

  /** Rows that keep their connection, revision and set. */
  ghost predicate SameSets(subs: Subs, subs': Subs) {
    subs'.Keys == subs.Keys
    && forall x :: x in subs ==>
         && subs'[x].client == subs[x].client && subs'[x].revision == subs[x].revision
         && subs'[x].users == subs[x].users
  }

  lemma CurrentSame(subs: Subs, subs': Subs, acc: Accepted)
    requires CurrentOk(subs, acc) && SameSets(subs, subs')
    ensures CurrentOk(subs', acc)
  {}

  // ---------------------------------------------------------------- a new revision

  /** Revisions are used once per connection. */
  lemma FreshRevision(s: State, c: Conn, spare: Id, revision: int, users: set<string>)
    requires StructOk(s) && AcceptedOk(s.reg.subs, s.hist.accepted) && Refused(s, c, spare, revision, users).None?
    ensures (c, revision) !in s.hist.accepted
  {
    forall x | x in s.reg.subs && s.reg.subs[x].client == c ensures s.reg.subs[x].revision < revision {
      assert c in s.reg.onlineSub && s.reg.onlineSub[c] == x;
    }
    assert !Reached(s.reg.subs, c, revision);
  }

  lemma AcceptCurrent(subs: Subs, acc: Accepted, x: Id, o: Sub)
    requires CurrentOk(subs, acc) && o.revision > 0 && (o.client, o.revision) !in acc
    requires forall y :: y in subs && y != x ==> subs[y].client != o.client
    ensures CurrentOk(subs[x := o], acc[(o.client, o.revision) := o.users])
  {}

  lemma AcceptReached(subs: Subs, acc: Accepted, x: Id, o: Sub)
    requires AcceptedOk(subs, acc) && Evolves(subs, subs[x := o])
    ensures AcceptedOk(subs[x := o], acc[(o.client, o.revision) := o.users])
  {
    AcceptedEvolve(subs, subs[x := o], acc);
    assert subs[x := o][x] == o;
    assert Reached(subs[x := o], o.client, o.revision);
  }

  lemma OthersElsewhere(s: State, c: Conn, spare: Id)
    requires StructOk(s) && !s.stopped && c !in s.dead
    ensures forall y :: y in s.reg.subs && y != SubIdOf(s.reg, c, spare) ==> s.reg.subs[y].client != c
  {}

  lemma SettledSnap(s: State, c: Conn, spare: Id, revision: int, users: set<string>)
    requires StructOk(s) && SnapOk(s) && spare !in s.reg.subs && revision > 0
             && Refused(s, c, spare, revision, users).None?
    ensures SnapOk(s.(reg := Settled(s.reg, c, spare, revision, users),
                      hist := s.hist.(accepted := s.hist.accepted[(c, revision) := users])))
  {
    var x, o := SubIdOf(s.reg, c, spare), SubOf(s.reg, c, spare);
    var o' := o.(revision := revision, users := users, remark := false, lastSuccess := 0);
    var subs', acc' := s.reg.subs[x := o'], s.hist.accepted[(c, revision) := users];
    FreshRevision(s, c, spare, revision, users);
    SubOfIs(s.reg, c, spare);
    SettledFields(s.reg, c, spare, revision, users);
    assert Evolves(s.reg.subs, subs') by { RowEvolves(s.reg.subs, x, o'); }
    assert CurrentOk(subs', acc') by {
      OthersElsewhere(s, c, spare);
      AcceptCurrent(s.reg.subs, s.hist.accepted, x, o');
    }
    assert AcceptedOk(subs', acc') by { AcceptReached(s.reg.subs, s.hist.accepted, x, o'); }
    assert Grows(s.hist.accepted, acc');
    JobsEvolve(s.reg.subs, subs', s.hist.accepted, acc', s.pool.jobs, s.pool.running);
    FramesEvolve(s.reg.subs, subs', s.hist.accepted, acc', s.hist.offers);
  }

  /** Steps that move rows but no set, job, frame or acceptance. */
  lemma SameSnap(
    subs: Subs, subs': Subs, acc: Accepted, jobs: seq<Job>, running: set<Job>, running': set<Job>, offers: seq<Offer>)
    requires Snap(subs, acc, jobs, running, offers) && SameSets(subs, subs') && running' <= running
    ensures Snap(subs', acc, jobs, running', offers)
  {
    CurrentSame(subs, subs', acc);
    forall c, r | (c, r) in acc ensures Reached(subs', c, r) {
      assert Reached(subs, c, r);
      SameReached(subs, subs', c, r);
    }
    forall i | 0 <= i < |offers| ensures FrameOk(subs', acc, offers[i]) {
      SameReached(subs, subs', offers[i].client, offers[i].revision);
    }
    forall i | 0 <= i < |jobs| ensures JobOk(subs', acc, jobs[i]) { assert JobOk(subs, acc, jobs[i]); }
    forall j | j in running' ensures JobOk(subs', acc, j) { assert JobOk(subs, acc, j); }
  }

  lemma SameReached(subs: Subs, subs': Subs, c: Conn, r: int)
    requires Reached(subs, c, r) && SameSets(subs, subs')
    ensures Reached(subs', c, r)
  {}

  lemma RegSnap(s: State, s': State)
    requires SnapOk(s) && SameSets(s.reg.subs, s'.reg.subs) && s'.hist == s.hist && s'.pool == s.pool
    ensures SnapOk(s')
  {
    SameSnap(s.reg.subs, s'.reg.subs, s.hist.accepted, s.pool.jobs, s.pool.running, s.pool.running, s.hist.offers);
  }

  lemma MarkSameSets(p: Reg, x: Id, now: nat)
    requires x in p.subs
    ensures SameSets(p.subs, Mark(p, x, now).subs)
  {
    MarkIsMarked(p, x, now);
  }

  lemma {:induction false} MarkAllSameSets(p: Reg, cs: seq<Conn>, now: nat)
    ensures SameSets(p.subs, MarkAll(p, cs, now).subs)
  {
    if cs != [] {
      MarkAllSameSets(p, cs[..|cs|-1], now);
      var q, c := MarkAll(p, cs[..|cs|-1], now), cs[|cs|-1];
      if c in q.active && q.active[c] in q.subs { MarkSameSets(q, q.active[c], now); }
    }
  }

  lemma {:induction false} DropAllSameSets(p: Reg, cs: seq<Conn>)
    ensures SameSets(p.subs, DropAll(p, cs).subs)
  {
    if cs != [] {
      DropAllSameSets(p, cs[..|cs|-1]);
      var q, c := DropAll(p, cs[..|cs|-1]), cs[|cs|-1];
      if c in q.active && q.active[c] in q.subs { DropFields(q, q.active[c]); }
    }
  }

  lemma MarkSnap(s: State, x: Id, now: nat)
    requires SnapOk(s) && x in s.reg.subs
    ensures SnapOk(s.(reg := Mark(s.reg, x, now)))
  {
    MarkSameSets(s.reg, x, now);
    RegSnap(s, s.(reg := Mark(s.reg, x, now)));
  }

  lemma SettledHas(p: Reg, c: Conn, spare: Id, revision: int, users: set<string>)
    ensures SubIdOf(p, c, spare) in Settled(p, c, spare, revision, users).subs
  {}

  lemma SubscribeSnap(s: State, c: Conn, spare: Id, revision: int, users: set<string>, now: nat)
    requires StructOk(s) && SnapOk(s) && spare !in s.reg.subs && revision > 0
    ensures SnapOk(Subscribe(s, c, spare, revision, users, now).0)
  {
    if Refused(s, c, spare, revision, users).None? {
      var mid := s.(clock := now, reg := Settled(s.reg, c, spare, revision, users),
                    hist := s.hist.(accepted := s.hist.accepted[(c, revision) := users]));
      assert SnapOk(mid) by { SettledSnap(s, c, spare, revision, users); }
      if users != {} {
        SettledHas(s.reg, c, spare, revision, users);
        MarkSnap(mid, SubIdOf(s.reg, c, spare), now);
      }
    }
  }

  // ---------------------------------------------------------------- dispatch and completion

  lemma SendSnap(subs: Subs, acc: Accepted, jobs: seq<Job>, running: set<Job>, offers: seq<Offer>, x: Id)
    requires Snap(subs, acc, jobs, running, offers) && x in subs && subs[x].users != {}
    ensures Snap(subs, acc, jobs + [Job(x, subs[x].revision, subs[x].users)], running, offers)
  {}

  lemma QueuedHasSet(s: State, x: Id)
    requires StructOk(s) && x in s.reg.due
    ensures x in s.reg.subs && s.reg.subs[x].users != {}
  {}

  lemma AdmittedSnap(s: State, x: Id, now: nat, tokens: nat -> nat)
    requires SnapOk(s) && x in s.reg.subs && s.reg.subs[x].users != {}
    ensures SnapOk(Admit(s, x, now, tokens))
  {
    var s' := Admit(s, x, now, tokens);
    assert Snap(s.reg.subs, s'.hist.accepted, s'.pool.jobs, s'.pool.running, s'.hist.offers) by {
      SendSnap(s.reg.subs, s.hist.accepted, s.pool.jobs, s.pool.running, s.hist.offers, x);
    }
    SameSnap(s.reg.subs, s'.reg.subs, s'.hist.accepted, s'.pool.jobs, s'.pool.running, s'.pool.running, s'.hist.offers);
  }

  lemma AdmitSnap(s: State, x: Id, now: nat, tokens: nat -> nat)
    requires StructOk(s) && SnapOk(s) && x in s.reg.due && x in s.reg.subs
    ensures SnapOk(Admit(s, x, now, tokens))
  {
    assert s.reg.subs[x].users != {} by { QueuedHasSet(s, x); }
    AdmittedSnap(s, x, now, tokens);
  }

  lemma {:induction false} DispatchSnap(s: State, now: nat, tokens: nat -> nat)
    requires StructOk(s) && LiveBut(s, None) && SnapOk(s)
    ensures SnapOk(Dispatch(s, now, tokens).0)
    decreases |s.reg.due|
  {
    if Blocked(s, now).None? {
      QueuedAreSubs(s);
      DispatchTurn(s, now, tokens);
      var x := HeadOf(s.reg.due);
      var s' := Admit(s, x, now, tokens);
      assert StructOk(s') by { AdmitStruct(s, x, now, tokens); }
      assert LiveBut(s', None) by { AdmitLive(s, x, now, tokens); }
      assert SnapOk(s') by { AdmitSnap(s, x, now, tokens); }
      DispatchSnap(s', now, tokens);
    }
  }

  lemma FrameSnap(
    subs: Subs, acc: Accepted, jobs: seq<Job>, running: set<Job>, offers: seq<Offer>, job: Job, stale: bool, fate: Fate)
    requires Snap(subs, acc, jobs, running, offers) && JobOk(subs, acc, job) && subs[job.sub].revision == job.revision
    requires forall y :: y in subs && y != job.sub ==> subs[y].client != subs[job.sub].client
    ensures Snap(subs, acc, jobs, running, offers + [Offer(subs[job.sub].client, job.revision, job.users, stale, fate)])
  {}

  lemma DeliveredSnap(s: State, job: Job, ok: bool, fate: Fate, now: nat)
    requires SnapOk(s) && Unique(s.reg.subs, s.reg.onlineSub, s.dead, s.stopped)
             && JobOk(s.reg.subs, s.hist.accepted, job)
    ensures SnapOk(Delivered(s, job, ok, fate, now))
  {
    var x := job.sub;
    var o := s.reg.subs[x];
    if Sends(o, job, ok, now) {
      FrameSnap(s.reg.subs, s.hist.accepted, s.pool.jobs, s.pool.running, s.hist.offers, job, !ok, fate);
      if ok {
        SameSnap(s.reg.subs, s.reg.subs[x := o.(lastSuccess := now)], s.hist.accepted, s.pool.jobs, s.pool.running,
                 s.pool.running, s.hist.offers + [Offer(o.client, o.revision, job.users, false, fate)]);
      }
    }
  }

  lemma RescheduledSame(p: Reg, x: Id, now: nat)
    requires x in p.subs
    ensures SameSets(p.subs, Rescheduled(p, x, now).subs) && Rescheduled(p, x, now).onlineSub == p.onlineSub
  {
    RequeueFields(SetSub(p, x, p.subs[x].(remark := false)), x,
                  if p.subs[x].remark then now else now + SNAPSHOT_INTERVAL);
  }

  lemma SameUnique(subs: Subs, subs': Subs, onlineSub: map<Conn, Id>, dead: set<Conn>, stopped: bool)
    requires Unique(subs, onlineSub, dead, stopped) && SameSets(subs, subs')
    ensures Unique(subs', onlineSub, dead, stopped)
  {}

  lemma ConcludedSnap(s: State, job: Job, ok: bool, fate: Fate, now: nat)
    requires SnapOk(s) && Unique(s.reg.subs, s.reg.onlineSub, s.dead, s.stopped)
             && JobOk(s.reg.subs, s.hist.accepted, job)
    ensures SnapOk(Concluded(s, job, ok, fate, now))
  {
    if StillWanted(s, job.sub) {
      var s' := s.(reg := Rescheduled(s.reg, job.sub, now));
      RescheduledSame(s.reg, job.sub, now);
      assert SnapOk(s') by { RegSnap(s, s'); }
      SameUnique(s.reg.subs, s'.reg.subs, s.reg.onlineSub, s.dead, s.stopped);
      DeliveredSnap(s', job, ok, fate, now);
    }
  }

  lemma FinishSnap(s: State, job: Job, ok: bool, fate: Fate, now: nat)
    requires StructOk(s) && SnapOk(s) && job in s.pool.running && job.sub in s.reg.subs && s.pool.slots > 0
    ensures SnapOk(Finish(s, job, ok, fate, now))
  {
    var d := Completed(s.(clock := now), job);
    var o := s.reg.subs[job.sub].(reading := false);
    SameSnap(s.reg.subs, d.reg.subs, s.hist.accepted, s.pool.jobs, s.pool.running, d.pool.running, s.hist.offers);
    RowUnique(s.reg.subs, s.reg.onlineSub, s.dead, s.stopped, job.sub, o);
    ConcludedSnap(d, job, ok, fate, now);
  }

  lemma UnsubscribeSnap(s: State, c: Conn)
    requires SnapOk(s)
    ensures SnapOk(s.(reg := Unsubscribe(s.reg, c)))
  {
    if c in s.reg.onlineSub && s.reg.onlineSub[c] in s.reg.subs { DropFields(s.reg, s.reg.onlineSub[c]); }
    RegSnap(s, s.(reg := Unsubscribe(s.reg, c)));
  }

  lemma StepSnap(s: State, e: Event, tokens: nat -> nat)
    requires StructOk(s) && LiveBut(s, None) && SnapOk(s) && Allowed(s, e)
    ensures SnapOk(Next(s, e, tokens))
  {
    match e
    case SetSubscriptions(c, spare, revision, users, now) => SubscribeSnap(s, c, spare, revision, users, now);
    case RemoveSubscriptions(c) => UnsubscribeSnap(s, c);
    case UsersChanged(_, cs, now) => MarkAllSameSets(s.reg, cs, now); RegSnap(s, Next(s, e, tokens));
    case Pass(now) => DispatchSnap(s, now, tokens);
    case Exit(cs) => DropAllSameSets(s.reg, cs); RegSnap(s, Next(s, e, tokens));
    case TakeJob => assert JobOk(s.reg.subs, s.hist.accepted, s.pool.jobs[0]);
    case FinishRead(job, ok, fate, now) => RunningHasSlot(s, job); FinishSnap(s, job, ok, fate, now);
    case _ =>
  }
}
