/** What every run of the presence scheduler keeps. */
module PresenceTheorems {
  import opened Common
  import opened DueHeap
  import opened PresenceModel
  import opened PresenceInvariants
  import opened PresenceSteps
  import opened PresenceWakeups
  import opened PresenceTiming
  import opened PresenceFairness
  import opened PresenceSnapshots
  import opened Sums

  function Init(tokens: nat -> nat): State {
    State(Reg(map[], map[], map[], map[], 0, map[], 0, false), Pool(0, [], {}, tokens(0), 0), {}, false, false, 0,
          Dispatching, Hist([], [], map[]))
  }

  /** The state es leads to from s, or None when some event is not possible where it stands. */
  ghost function Run(s: State, es: seq<Event>, tokens: nat -> nat): Option<State>
    decreases |es|
  {
    if es == [] then Some(s)
    else if Allowed(s, es[0]) then Run(Next(s, es[0], tokens), es[1..], tokens)
    else None
  }

  /** Some run of a node whose k-th frame token frees at tokens(k) is in state s. */
  ghost predicate Reachable(s: State, tokens: nat -> nat) { exists es :: Run(Init(tokens), es, tokens) == Some(s) }

  lemma {:induction false} RunOneMore(s: State, es: seq<Event>, e: Event, tokens: nat -> nat)
    requires Run(s, es, tokens).Some? && Allowed(Run(s, es, tokens).value, e)
    ensures Run(s, es + [e], tokens) == Some(Next(Run(s, es, tokens).value, e, tokens))
    decreases |es|
  {
    if es == [] {
      assert [e][1..] == [];
    } else {
      assert (es + [e])[1..] == es[1..] + [e];
      RunOneMore(Next(s, es[0], tokens), es[1..], e, tokens);
    }
  }

  lemma ReachableStep(s: State, e: Event, tokens: nat -> nat)
    requires Reachable(s, tokens) && Allowed(s, e)
    ensures Reachable(Next(s, e, tokens), tokens)
  {
    var es :| Run(Init(tokens), es, tokens) == Some(s);
    RunOneMore(Init(tokens), es, e, tokens);
  }

  lemma InitReachable(tokens: nat -> nat)
    ensures Reachable(Init(tokens), tokens)
  {
    assert Run(Init(tokens), [], tokens) == Some(Init(tokens));
  }

  ghost predicate Good(s: State) {
    StructOk(s) && LiveBut(s, None) && WakeOk(s) && TimeOk(s.reg.subs, s.hist.admitted, s.clock) && SnapOk(s)
  }

  lemma StepGood(s: State, e: Event, tokens: nat -> nat)
    requires Good(s) && Allowed(s, e)
    ensures Good(Next(s, e, tokens))
  {
    var s' := Next(s, e, tokens);
    assert StructOk(s') && LiveBut(s', None) by { StepStruct(s, e, tokens); }
    assert WakeOk(s') by { StepWake(s, e, tokens); }
    assert TimeOk(s'.reg.subs, s'.hist.admitted, s'.clock) by { StepTime(s, e, tokens); }
    assert SnapOk(s') by { StepSnap(s, e, tokens); }
  }

  lemma InitStruct(tokens: nat -> nat)
    ensures StructOk(Init(tokens)) && LiveBut(Init(tokens), None)
  {
    var s := Init(tokens);
    assert SetsOf(s.reg.subs, s.reg.active) == map[];
    assert Counted(map[], 0) by { assert Sizes(map[]) == map[]; }
    assert FlightSet([], {}) == {} == ReadingSet(map[]);
  }

  lemma InitGood(tokens: nat -> nat)
    ensures Good(Init(tokens))
  {
    assert StructOk(Init(tokens)) && LiveBut(Init(tokens), None) by { InitStruct(tokens); }
    assert SnapOk(Init(tokens));
  }

  lemma {:induction false} RunGood(s: State, es: seq<Event>, tokens: nat -> nat)
    requires Good(s) && Run(s, es, tokens).Some?
    ensures Good(Run(s, es, tokens).value)
    decreases |es|
  {
    if es != [] {
      assert Good(Next(s, es[0], tokens)) by { StepGood(s, es[0], tokens); }
      RunGood(Next(s, es[0], tokens), es[1..], tokens);
    }
  }

  lemma ReachableGood(s: State, tokens: nat -> nat)
    requires Reachable(s, tokens)
    ensures Good(s)
  {
    var es :| Run(Init(tokens), es, tokens) == Some(s);
    InitGood(tokens);
    RunGood(Init(tokens), es, tokens);
  }

  // ---------------------------------------------------------------- no lost wakeup

  /** The dispatcher has been woken, or every slot is reading, or the timer fires once x is due and a token is free. */
  ghost predicate WillLookAgain(s: State, x: Id)
    requires s.loop.Parked? && x in s.reg.due
  {
    || Allowed(s, WakeUp)
    || |s.pool.jobs| + |s.pool.running| == 4
    || (s.loop.deadline.Some? && s.loop.deadline.value <= Max(s.reg.due[x].readyAt, s.pool.tokenAt) + s.loop.lag)
  }

  /** In every reachable parked state of a running node, every queued connection will be looked at in time. */
  lemma NoLostWakeup(s: State, tokens: nat -> nat, x: Id)
    requires Reachable(s, tokens) && s.loop.Parked? && !Over(s) && x in s.reg.due
    ensures WillLookAgain(s, x)
  {
    assert WakeOk(s) && Slots(s.pool.jobs, s.pool.running, s.pool.slots) by { ReachableGood(s, tokens); }
  }

  /** A completion always leaves a wake behind, so full slots are never the end of it. */
  lemma CompletionWakes(s: State, tokens: nat -> nat, job: Job, ok: bool, fate: Fate, now: nat)
    requires Reachable(s, tokens) && Allowed(s, FinishRead(job, ok, fate, now))
    ensures var s' := Next(s, FinishRead(job, ok, fate, now), tokens);
            s'.reg.wake && s'.pool.slots == s.pool.slots - 1
  {
    assert job.sub in s.reg.subs && s.pool.slots > 0 by { ReachableGood(s, tokens); RunningHasSlot(s, job); }
    FinishWakes(s, job, ok, fate, now);
  }

  // ---------------------------------------------------------------- the whole structure

  ghost predicate QueuedXorReading(s: State, c: Conn)
    requires c in s.reg.active
  {
    var x := s.reg.active[c];
    x in s.reg.subs && ((x in s.reg.due) <==> !s.reg.subs[x].reading)
  }

  /** Every live active connection is queued or reading, never both. */
  lemma LiveIsQueuedXorReading(s: State, tokens: nat -> nat, c: Conn)
    requires Reachable(s, tokens) && !Over(s) && c in s.reg.active && c !in s.dead
    ensures QueuedXorReading(s, c)
  {
    ReachableGood(s, tokens);
    var x := s.reg.active[c];
    assert x in s.reg.due ==> Waiting(s.reg.subs[x], x, s.reg.active, s.reg.due[x], s.reg.order);
  }

  /** A marker is only held while the read that will serve it is in flight. */
  lemma MarkerMeansReading(s: State, tokens: nat -> nat, x: Id)
    requires Reachable(s, tokens) && !Over(s) && x in s.reg.subs && s.reg.subs[x].client !in s.dead
             && s.reg.subs[x].remark
    ensures s.reg.subs[x].reading && s.reg.subs[x].users != {}
  {
    ReachableGood(s, tokens);
    assert RemarkOk(s.reg.subs[x], s.dead, Over(s));
  }

  /** byUser is the inverse of the active sets, without empty entries. */
  lemma IndexIsInverse(s: State, tokens: nat -> nat, u: string, c: Conn)
    requires Reachable(s, tokens)
    ensures var p := s.reg;
            && (u in p.byUser ==> p.byUser[u] != {})
            && (u in p.byUser && c in p.byUser[u] <==>
                 c in p.active && p.active[c] in p.subs && u in p.subs[p.active[c]].users)
  {
    var p := s.reg;
    assert Inverse(SetsOf(p.subs, p.active), p.byUser) by { ReachableGood(s, tokens); }
    assert c in Watchers(p.byUser, u) <==> c in SetsOf(p.subs, p.active) && u in SetsOf(p.subs, p.active)[c];
  }

  ghost function WatchedBy(p: Reg): map<Conn, int> {
    map c | c in p.active :: if p.active[c] in p.subs then |p.subs[p.active[c]].users| else 0
  }

  /** refs is the total size of the active sets and never passes the node's cap. */
  lemma RefsAreCounted(s: State, tokens: nat -> nat)
    requires Reachable(s, tokens)
    ensures s.reg.refs == Sum(WatchedBy(s.reg)) && s.reg.refs <= 100_000
  {
    var p := s.reg;
    assert Counted(SetsOf(p.subs, p.active), p.refs) by { ReachableGood(s, tokens); }
    assert Sizes(SetsOf(p.subs, p.active)) == WatchedBy(p);
  }

  /** All reads that have been admitted and not finished. */
  ghost function InFlight(s: State): set<Job> { (set i | 0 <= i < |s.pool.jobs| :: s.pool.jobs[i]) + s.pool.running }

  /** One read per connection, across cancellation and resubscription, and a slot for each. */
  lemma OneReadPerConnection(s: State, tokens: nat -> nat, a: Job, b: Job)
    requires Reachable(s, tokens) && a in InFlight(s) && b in InFlight(s)
    ensures a.sub in s.reg.subs && b.sub in s.reg.subs
            && (s.reg.subs[a.sub].client == s.reg.subs[b.sub].client ==> a == b)
    ensures s.pool.slots == |s.pool.jobs| + |s.pool.running| <= 4
  {
    ReachableGood(s, tokens);
    assert a.sub in FlightSet(s.pool.jobs, s.pool.running) && b.sub in FlightSet(s.pool.jobs, s.pool.running);
    assert a.sub in ReadingSet(s.reg.subs) && b.sub in ReadingSet(s.reg.subs);
  }

  /** Each admission of one dispatch pass finds room in the job channel, whose capacity is the number of workers. */
  ghost predicate RoomThroughout(s: State, now: nat, tokens: nat -> nat)
    decreases |s.reg.due|
  {
    Blocked(s, now).None? && HeadOf(s.reg.due) in s.reg.subs ==>
      && |s.pool.jobs| < WORKERS
      && |Admit(s, HeadOf(s.reg.due), now, tokens).reg.due| < |s.reg.due|
      && RoomThroughout(Admit(s, HeadOf(s.reg.due), now, tokens), now, tokens)
  }

  lemma {:induction false} DispatchHasRoom(s: State, now: nat, tokens: nat -> nat)
    requires StructOk(s) && LiveBut(s, None)
    ensures RoomThroughout(s, now, tokens)
    decreases |s.reg.due|
  {
    if Blocked(s, now).None? {
      QueuedAreSubs(s);
      DispatchTurn(s, now, tokens);
      var x := HeadOf(s.reg.due);
      AdmitStruct(s, x, now, tokens);
      AdmitLive(s, x, now, tokens);
      DispatchHasRoom(Admit(s, x, now, tokens), now, tokens);
    }
  }

  lemma JobSendNeverBlocks(s: State, tokens: nat -> nat, now: nat)
    requires Reachable(s, tokens)
    ensures RoomThroughout(s, now, tokens)
  {
    ReachableGood(s, tokens);
    DispatchHasRoom(s, now, tokens);
  }

  // ---------------------------------------------------------------- timing and fairness

  /** Two admissions of one connection are a second apart, whatever marks, revisions and completions came between. */
  lemma AdmissionsAreSpaced(s: State, tokens: nat -> nat, i: nat, j: nat)
    requires Reachable(s, tokens) && i < j < |s.hist.admitted|
    requires var a := s.hist.admitted; a[i].0 == a[j].0
    ensures var a := s.hist.admitted; a[i].1 + 1_000_000_000 <= a[j].1
  {
    assert TimeOk(s.reg.subs, s.hist.admitted, s.clock) by { ReachableGood(s, tokens); }
  }

  /** x stays queued through fs and nobody replaces its subscription. */
  ghost predicate StaysQueued(s: State, fs: seq<Event>, tokens: nat -> nat, x: Id)
    decreases |fs|
  {
    x in s.reg.due && (fs != [] ==>
      Allowed(s, fs[0]) && NotReplaced(s, fs[0], x) && StaysQueued(Next(s, fs[0], tokens), fs[1..], tokens, x))
  }

  lemma HoldsStep(s: State, e: Event, tokens: nat -> nat, x: Id)
    requires Good(s) && Allowed(s, e) && NotReplaced(s, e, x)
    requires x in s.reg.due && s.reg.due[x].readyAt < s.clock && x in Next(s, e, tokens).reg.due
    ensures var s' := Next(s, e, tokens);
            HoldsPlace(s.reg.due, s'.reg.due, x) && Closer(s, s', x) && s.clock <= s'.clock
  {
    StepHolds(s, e, tokens, x);
    StepTime(s, e, tokens);
  }

  lemma {:induction false} RunHolds(s: State, fs: seq<Event>, tokens: nat -> nat, x: Id)
    requires Good(s) && StaysQueued(s, fs, tokens, x) && s.reg.due[x].readyAt < s.clock
    ensures Run(s, fs, tokens).Some?
    ensures var s' := Run(s, fs, tokens).value; HoldsPlace(s.reg.due, s'.reg.due, x) && Closer(s, s', x)
    decreases |fs|
  {
    if fs != [] {
      var m := Next(s, fs[0], tokens);
      assert Good(m) by { StepGood(s, fs[0], tokens); }
      assert HoldsPlace(s.reg.due, m.reg.due, x) && Closer(s, m, x) && s.clock <= m.clock by {
        HoldsStep(s, fs[0], tokens, x);
      }
      RunHolds(m, fs[1..], tokens, x);
      HoldsPlaceTransitive(s.reg.due, m.reg.due, Run(s, fs, tokens).value.reg.due, x);
    }
  }

  /**
   Once overdue, x is overtaken by nobody new: whatever happens while it waits, the entries ahead of it only leave,
   and the number of admissions is bounded by those that were ahead when the wait began.
   */
  lemma BoundedOvertaking(s: State, fs: seq<Event>, tokens: nat -> nat, x: Id)
    requires Reachable(s, tokens) && StaysQueued(s, fs, tokens, x) && s.reg.due[x].readyAt < s.clock
    ensures Run(s, fs, tokens).Some?
    ensures var s' := Run(s, fs, tokens).value;
            && x in s'.reg.due && Ahead(s'.reg.due, x) <= Ahead(s.reg.due, x)
            && s'.pool.granted - s.pool.granted <= |Ahead(s.reg.due, x)| - |Ahead(s'.reg.due, x)|
  {
    ReachableGood(s, tokens);
    RunHolds(s, fs, tokens, x);
  }

  /**
   A requeue of y at x's time or later passes x exactly when it pulls y, queued behind x at an older position, to x's
   very moment.
   */
  lemma RequeuePasses(s: State, tokens: nat -> nat, x: Id, y: Id, at: nat)
    requires Reachable(s, tokens) && x in s.reg.due && y in s.reg.subs && x != y && s.reg.due[x].readyAt <= at
    ensures var p := s.reg; var due' := Requeue(p, y, at).due;
            && x in due'
            && (Passes(p.due, due', y, x)
                <==> Max(at, p.subs[y].nextAttempt) == p.due[x].readyAt
                     && y in p.due && Before(p.due[x], p.due[y]) && p.due[y].order < p.due[x].order)
  {
    assert Queue(s.reg.subs, s.reg.active, s.reg.due, s.reg.order) by { ReachableGood(s, tokens); }
    assert Waiting(s.reg.subs[x], x, s.reg.active, s.reg.due[x], s.reg.order);
    RequeueFields(s.reg, y, at);
  }

  /**
   Who passes an entry whose time has come, over every step of every run: exactly those queued behind it at an older
   position that the step pulls forward to its very moment, which is the moment of the step.
   */
  lemma OnlyTiesPass(s: State, tokens: nat -> nat, e: Event, x: Id, y: Id)
    requires Reachable(s, tokens) && Allowed(s, e) && NotReplaced(s, e, x)
    requires x in s.reg.due && s.reg.due[x].readyAt <= s.clock && x in Next(s, e, tokens).reg.due
    ensures var s' := Next(s, e, tokens); var due := s.reg.due;
            Passes(due, s'.reg.due, y, x) <==> PulledTo(due, s'.reg.due, y, x) && s'.clock == due[x].readyAt
  {
    assert Own(s.reg.subs, s.reg.onlineSub, s.reg.active) by { ReachableGood(s, tokens); }
    assert Queue(s.reg.subs, s.reg.active, s.reg.due, s.reg.order) by { ReachableGood(s, tokens); }
    if e.Pass? {
      DispatchShrinks(s, e.now, tokens, x);
      if y in Next(s, e, tokens).reg.due { DispatchShrinks(s, e.now, tokens, y); }
    } else {
      assert Waiting(s.reg.subs[x], x, s.reg.active, s.reg.due[x], s.reg.order);
      QueuePlaces(s, e, tokens, x);
      KeptPasses(s.reg.due, Next(s, e, tokens).reg.due, x, y, Next(s, e, tokens).clock);
    }
  }

  // ---------------------------------------------------------------- snapshot agreement

  /**
   Every frame offered was read for the set accepted with its revision, and a connection's revisions never go back.
   */
  lemma FramesAgree(s: State, tokens: nat -> nat, i: nat, j: nat)
    requires Reachable(s, tokens) && i <= j < |s.hist.offers|
    ensures var h := s.hist; var f := h.offers[i];
            && (f.client, f.revision) in h.accepted && h.accepted[(f.client, f.revision)] == f.users
            && (h.offers[j].client == f.client ==> f.revision <= h.offers[j].revision)
  {
    assert FramesOk(s.reg.subs, s.hist.accepted, s.hist.offers) by { ReachableGood(s, tokens); }
    assert FrameOk(s.reg.subs, s.hist.accepted, s.hist.offers[i]);
  }

  /** f names the current revision and set of its connection's own subscription. */
  ghost predicate Current(s: State, f: Offer) {
    && (f.client in s.dead ==> f.fate.ConnClosing?) && !Over(s) && f.client in s.reg.onlineSub
         && s.reg.onlineSub[f.client] in s.reg.subs
    && s.reg.subs[s.reg.onlineSub[f.client]].revision == f.revision
    && s.reg.subs[s.reg.onlineSub[f.client]].users == f.users
  }

  lemma DeliveredFrames(s: State, job: Job, ok: bool, fate: Fate, now: nat)
    requires job.sub in s.reg.subs
    ensures var s', sub := Delivered(s, job, ok, fate, now), s.reg.subs[job.sub];
            && s'.hist.offers == (if Sends(sub, job, ok, now) then
               s.hist.offers + [Offer(sub.client, sub.revision, job.users, !ok, fate)] else s.hist.offers)
            && SameSets(s.reg.subs, s'.reg.subs) && s'.reg.onlineSub == s.reg.onlineSub
               && (fate.ConnClosing? || s'.dead == s.dead) && Over(s') == Over(s)
  {}

  lemma ConcludedFrames(s: State, job: Job, ok: bool, fate: Fate, now: nat)
    requires job.sub in s.reg.subs && CurrentOk(s.reg.subs, s.hist.accepted) && JobOk(s.reg.subs, s.hist.accepted, job)
    requires s.reg.subs[job.sub].revision >= 0
    ensures var s' := Concluded(s, job, ok, fate, now);
            s'.hist.offers == s.hist.offers || exists f :: s'.hist.offers == s.hist.offers + [f] && Current(s', f)
  {
    if StillWanted(s, job.sub) {
      var p := Rescheduled(s.reg, job.sub, now);
      RescheduledSame(s.reg, job.sub, now);
      DeliveredFrames(s.(reg := p), job, ok, fate, now);
      var sub := p.subs[job.sub];
      if Sends(sub, job, ok, now) {
        assert Current(Concluded(s, job, ok, fate, now), Offer(sub.client, sub.revision, job.users, !ok, fate));
      }
    }
  }

  lemma {:induction false} DispatchFrames(s: State, now: nat, tokens: nat -> nat)
    ensures Dispatch(s, now, tokens).0.hist.offers == s.hist.offers && Dispatch(s, now, tokens).0.dead == s.dead
    decreases |s.reg.due|
  {
    if Blocked(s, now).None? && HeadOf(s.reg.due) in s.reg.subs {
      var x := HeadOf(s.reg.due);
      assert |s.reg.due - {x}| < |s.reg.due| by { assert (s.reg.due - {x}).Keys == s.reg.due.Keys - {x}; }
      DispatchFrames(Admit(s, x, now, tokens), now, tokens);
    }
  }

  /** Only a finishing read offers a frame, at most one, and the frame is current when it is offered. */
  lemma FrameIsCurrent(s: State, tokens: nat -> nat, e: Event)
    requires Reachable(s, tokens) && Allowed(s, e)
    ensures var s' := Next(s, e, tokens);
            || s'.hist.offers == s.hist.offers
            || (e.FinishRead? && exists f :: s'.hist.offers == s.hist.offers + [f] && Current(s', f))
  {
    match e
    case Pass(now) => DispatchFrames(s, now, tokens);
    case FinishRead(job, ok, fate, now) =>
      assert job.sub in s.reg.subs && s.pool.slots > 0 by { ReachableGood(s, tokens); RunningHasSlot(s, job); }
      assert SnapOk(s) by { ReachableGood(s, tokens); }
      FinishFrames(s, job, ok, fate, now);
    case _ =>
  }

  lemma FinishFrames(s: State, job: Job, ok: bool, fate: Fate, now: nat)
    requires SnapOk(s) && job in s.pool.running && job.sub in s.reg.subs && s.pool.slots > 0
    ensures var s' := Finish(s, job, ok, fate, now);
            s'.hist.offers == s.hist.offers || exists f :: s'.hist.offers == s.hist.offers + [f] && Current(s', f)
  {
    var d := Completed(s.(clock := now), job);
    assert JobOk(s.reg.subs, s.hist.accepted, job);
    assert CurrentOk(d.reg.subs, d.hist.accepted) by { CurrentSame(s.reg.subs, d.reg.subs, s.hist.accepted); }
    ConcludedFrames(d, job, ok, fate, now);
  }
}
