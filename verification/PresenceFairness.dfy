/** Bounded overtaking: once an entry's time has passed, only those already ahead of it can be admitted first. */
module PresenceFairness {
  import opened Common
  import opened DueHeap
  import opened PresenceModel
  import opened PresenceInvariants
  import opened PresenceSteps

  ghost function Ahead(due: map<Id, Rank>, x: Id): set<Id>
    requires x in due
  {
    set y | y in due && Before(due[y], due[x])
  }

  /** x keeps its rank and nobody new is ahead of it. */
  ghost predicate HoldsPlace(due: map<Id, Rank>, due': map<Id, Rank>, x: Id) {
    x in due && x in due' && due'[x] == due[x] && Ahead(due', x) <= Ahead(due, x)
  }

  lemma HoldsPlaceTransitive(a: map<Id, Rank>, b: map<Id, Rank>, c: map<Id, Rank>, x: Id)
    requires HoldsPlace(a, b, x) && HoldsPlace(b, c, x)
    ensures HoldsPlace(a, c, x)
  {}

  // ---------------------------------------------------------------- what a queue keeps at a moment

  /** x keeps its rank, every older queue position was there before, and everyone due before now is where they were. */
  ghost predicate Kept(due: map<Id, Rank>, due': map<Id, Rank>, x: Id, now: nat) {
    && x in due && x in due' && due'[x] == due[x]
    && (forall y :: y in due' && due'[y].order < due[x].order ==> y in due && due'[y].order == due[y].order)
    && (forall y :: y in due' && due'[y].readyAt < now ==> y in due && due'[y] == due[y])
  }

  lemma KeptTransitive(a: map<Id, Rank>, b: map<Id, Rank>, c: map<Id, Rank>, x: Id, now: nat)
    requires Kept(a, b, x, now) && Kept(b, c, x, now)
    ensures Kept(a, c, x, now)
  {}

  /** An entry whose own time has passed holds its place. */
  lemma KeptHolds(due: map<Id, Rank>, due': map<Id, Rank>, x: Id, now: nat)
    requires Kept(due, due', x, now) && due[x].readyAt < now
    ensures HoldsPlace(due, due', x)
  {}

  /** y is ahead of x in due' and was not in due. */
  ghost predicate Passes(due: map<Id, Rank>, due': map<Id, Rank>, y: Id, x: Id)
    requires x in due && x in due'
  {
    y in Ahead(due', x) && y !in Ahead(due, x)
  }

  /** y was queued behind x at an older position and is now at that position in x's very moment. */
  ghost predicate PulledTo(due: map<Id, Rank>, due': map<Id, Rank>, y: Id, x: Id)
    requires x in due
  {
    && y in due && Before(due[x], due[y]) && due[y].order < due[x].order
    && y in due' && due'[y] == Rank(due[x].readyAt, due[y].order)
  }

  lemma KeptPasses(due: map<Id, Rank>, due': map<Id, Rank>, x: Id, y: Id, now: nat)
    requires Kept(due, due', x, now) && due[x].readyAt <= now
    ensures Passes(due, due', y, x) <==> PulledTo(due, due', y, x) && now == due[x].readyAt
  {}

  lemma ShrinkPlaces(due: map<Id, Rank>, y: Id, x: Id, now: nat)
    requires x in due && x != y
    ensures Kept(due, due - {y}, x, now)
  {}

  /** A requeue at or after x's own time passes x only by pulling an older position forward to that very moment. */
  lemma RequeuePlaces(p: Reg, y: Id, at: nat, x: Id, now: nat)
    requires y in p.subs && x in p.due && p.due[x].order < p.order && p.due[x].readyAt <= now <= at
    ensures Kept(p.due, Requeue(p, y, at).due, x, now)
  {
    RequeueFields(p, y, at);
  }

  lemma MarkPlaces(p: Reg, y: Id, x: Id, now: nat)
    requires y in p.subs && x in p.due && p.due[x].order < p.order && p.due[x].readyAt <= now
    ensures Kept(p.due, Mark(p, y, now).due, x, now) && p.order <= Mark(p, y, now).order
  {
    if !p.subs[y].reading { RequeuePlaces(p, y, now, x, now); }
  }

  lemma {:induction false} MarkAllPlaces(p: Reg, cs: seq<Conn>, x: Id, now: nat)
    requires x in p.due && p.due[x].order < p.order && p.due[x].readyAt <= now
    ensures Kept(p.due, MarkAll(p, cs, now).due, x, now) && p.order <= MarkAll(p, cs, now).order
  {
    if cs != [] {
      MarkAllPlaces(p, cs[..|cs|-1], x, now);
      var q, c := MarkAll(p, cs[..|cs|-1], now), cs[|cs|-1];
      if c in q.active && q.active[c] in q.subs {
        MarkPlaces(q, q.active[c], x, now);
        KeptTransitive(p.due, q.due, Mark(q, q.active[c], now).due, x, now);
      }
    }
  }

  lemma SubscribePlaces(s: State, c: Conn, spare: Id, revision: int, users: set<string>, now: nat, x: Id)
    requires Own(s.reg.subs, s.reg.onlineSub, s.reg.active) && spare !in s.reg.subs
    requires x in s.reg.due && s.reg.due[x].order < s.reg.order && s.reg.due[x].readyAt <= now
             && x != SubIdOf(s.reg, c, spare)
    ensures Kept(s.reg.due, Subscribe(s, c, spare, revision, users, now).0.reg.due, x, now)
  {
    if Refused(s, c, spare, revision, users).None? {
      var y, q := SubIdOf(s.reg, c, spare), Settled(s.reg, c, spare, revision, users);
      SubOfIs(s.reg, c, spare);
      SettledFields(s.reg, c, spare, revision, users);
      ShrinkPlaces(s.reg.due, y, x, now);
      if users != {} {
        MarkPlaces(q, y, x, now);
        KeptTransitive(s.reg.due, q.due, Mark(q, y, now).due, x, now);
      }
    }
  }

  lemma FinishPlaces(s: State, job: Job, ok: bool, fate: Fate, now: nat, x: Id)
    requires job.sub in s.reg.subs && s.pool.slots > 0
    requires x in s.reg.due && s.reg.due[x].order < s.reg.order && s.reg.due[x].readyAt <= now
    ensures Kept(s.reg.due, Finish(s, job, ok, fate, now).reg.due, x, now)
  {
    var d := Completed(s.(clock := now), job);
    if StillWanted(d, job.sub) {
      RequeuePlaces(SetSub(d.reg, job.sub, d.reg.subs[job.sub].(remark := false)), job.sub,
                   if d.reg.subs[job.sub].remark then now else now + SNAPSHOT_INTERVAL, x, now);
    }
  }

  lemma {:induction false} DropAllPlaces(p: Reg, cs: seq<Conn>, x: Id, now: nat)
    requires x in p.due && x in DropAll(p, cs).due
    ensures Kept(p.due, DropAll(p, cs).due, x, now)
  {
    if cs != [] {
      var q, c := DropAll(p, cs[..|cs|-1]), cs[|cs|-1];
      if c in q.active && q.active[c] in q.subs {
        DropFields(q, q.active[c]);
        DropAllPlaces(p, cs[..|cs|-1], x, now);
        ShrinkPlaces(q.due, q.active[c], x, now);
        KeptTransitive(p.due, q.due, q.due - {q.active[c]}, x, now);
      } else {
        DropAllPlaces(p, cs[..|cs|-1], x, now);
      }
    }
  }

  /** Its own connection has not asked for another set. */
  predicate NotReplaced(s: State, e: Event, x: Id) {
    e.SetSubscriptions? ==> SubIdOf(s.reg, e.c, e.spare) != x
  }

  /** Every step but a pass keeps the queue as it was before the moment the step is made. */
  lemma QueuePlaces(s: State, e: Event, tokens: nat -> nat, x: Id)
    requires Own(s.reg.subs, s.reg.onlineSub, s.reg.active) && Allowed(s, e) && NotReplaced(s, e, x) && !e.Pass?
    requires x in s.reg.due && s.reg.due[x].order < s.reg.order && s.reg.due[x].readyAt <= s.clock
             && x in Next(s, e, tokens).reg.due
    ensures Kept(s.reg.due, Next(s, e, tokens).reg.due, x, Next(s, e, tokens).clock)
            && s.clock <= Next(s, e, tokens).clock
  {
    match e
    case SetSubscriptions(c, spare, revision, users, now) => SubscribePlaces(s, c, spare, revision, users, now, x);
    case RemoveSubscriptions(c) =>
      if c in s.reg.onlineSub {
        DropFields(s.reg, s.reg.onlineSub[c]);
        ShrinkPlaces(s.reg.due, s.reg.onlineSub[c], x, s.clock);
      }
    case UsersChanged(_, cs, now) => MarkAllPlaces(s.reg, cs, x, now);
    case Exit(cs) => DropAllPlaces(s.reg, cs, x, s.clock);
    case FinishRead(job, ok, fate, now) =>
      if job.sub in s.reg.subs && s.pool.slots > 0 {
        FinishPlaces(s, job, ok, fate, now, x);
        FinishClock(s, job, ok, fate, now);
      }
    case _ =>
  }

  // ---------------------------------------------------------------- admissions

  /** Places ahead plus admissions so far: what a waiting entry's turn is bounded by. */
  ghost predicate Closer(s: State, s': State, x: Id)
    requires x in s.reg.due && x in s'.reg.due
  {
    s'.pool.granted + |Ahead(s'.reg.due, x)| <= s.pool.granted + |Ahead(s.reg.due, x)|
  }

  lemma AdmitHolds(s: State, h: Id, now: nat, tokens: nat -> nat, x: Id)
    requires StructOk(s) && IsHead(s.reg.due, h) && h in s.reg.subs && x in s.reg.due && x != h
    ensures HoldsPlace(s.reg.due, Admit(s, h, now, tokens).reg.due, x)
    ensures Admit(s, h, now, tokens).pool.granted + |Ahead(Admit(s, h, now, tokens).reg.due, x)|
            == s.pool.granted + |Ahead(s.reg.due, x)|
  {
    assert Before(s.reg.due[h], s.reg.due[x]) by { assert s.reg.due[h].order != s.reg.due[x].order; }
    assert Ahead(s.reg.due - {h}, x) == Ahead(s.reg.due, x) - {h};
  }

  lemma {:induction false} DispatchHolds(s: State, now: nat, tokens: nat -> nat, x: Id)
    requires StructOk(s) && LiveBut(s, None) && x in s.reg.due && x in Dispatch(s, now, tokens).0.reg.due
    ensures HoldsPlace(s.reg.due, Dispatch(s, now, tokens).0.reg.due, x) && Closer(s, Dispatch(s, now, tokens).0, x)
    decreases |s.reg.due|
  {
    if Blocked(s, now).None? {
      QueuedAreSubs(s);
      DispatchTurn(s, now, tokens);
      var h := HeadOf(s.reg.due);
      var s' := Admit(s, h, now, tokens);
      assert StructOk(s') by { AdmitStruct(s, h, now, tokens); }
      assert LiveBut(s', None) by { AdmitLive(s, h, now, tokens); }
      DispatchShrinks(s', now, tokens, x);
      AdmitHolds(s, h, now, tokens, x);
      DispatchHolds(s', now, tokens, x);
      HoldsPlaceTransitive(s.reg.due, s'.reg.due, Dispatch(s, now, tokens).0.reg.due, x);
    }
  }

  /** A pass queues nobody and moves nobody. */
  lemma {:induction false} DispatchShrinks(s: State, now: nat, tokens: nat -> nat, y: Id)
    requires y in Dispatch(s, now, tokens).0.reg.due
    ensures y in s.reg.due && Dispatch(s, now, tokens).0.reg.due[y] == s.reg.due[y]
    decreases |s.reg.due|
  {
    if Blocked(s, now).None? && HeadOf(s.reg.due) in s.reg.subs {
      var x := HeadOf(s.reg.due);
      assert |s.reg.due - {x}| < |s.reg.due| by { assert (s.reg.due - {x}).Keys == s.reg.due.Keys - {x}; }
      DispatchShrinks(Admit(s, x, now, tokens), now, tokens, y);
    }
  }

  lemma StepGrants(s: State, e: Event, tokens: nat -> nat)
    requires Allowed(s, e) && !e.Pass?
    ensures Next(s, e, tokens).pool.granted == s.pool.granted
  {}

  lemma StepHolds(s: State, e: Event, tokens: nat -> nat, x: Id)
    requires StructOk(s) && LiveBut(s, None) && Allowed(s, e) && NotReplaced(s, e, x)
    requires x in s.reg.due && s.reg.due[x].readyAt < s.clock && x in Next(s, e, tokens).reg.due
    ensures HoldsPlace(s.reg.due, Next(s, e, tokens).reg.due, x) && Closer(s, Next(s, e, tokens), x)
  {
    if e.Pass? {
      DispatchHolds(s, e.now, tokens, x);
    } else {
      StepGrants(s, e, tokens);
      QueuePlaces(s, e, tokens, x);
      KeptHolds(s.reg.due, Next(s, e, tokens).reg.due, x, Next(s, e, tokens).clock);
      SubsetSize(Ahead(Next(s, e, tokens).reg.due, x), Ahead(s.reg.due, x));
    }
  }

  lemma {:induction false} SubsetSize(a: set<Id>, b: set<Id>)
    requires a <= b
    ensures |a| <= |b|
  {
    assert |b| == |a| + |b - a| by { assert b == a + (b - a); }
  }
}
