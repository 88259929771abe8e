/** Two runs that show where the scheduler stops short: a stale frame that stands alone, and an overtaking at a tie. */
module PresenceWitnesses {
  import opened Common
  import opened DueHeap
  import opened PresenceModel
  import opened PresenceInvariants
  import opened PresenceSteps
  import opened PresenceTheorems
  import opened PresenceFairness
  import Identity
  import Node = PresenceNode

  // ---------------------------------------------------------------- runs of requests the node lets through

  /** The request ids, past the checks of setOnlineSubscriptions, asks for users at this revision. */
  ghost predicate Asks(ids: seq<string>, revision: int, users: set<string>) {
    Node.WellFormed(revision, ids) && users == set i | 0 <= i < |ids| :: ids[i]
  }

  ghost predicate LetThrough(e: Event) { e.SetSubscriptions? ==> exists ids :: Asks(ids, e.revision, e.users) }

  /** Some run of requests the node lets through is in state s. */
  ghost predicate Served(s: State, tokens: nat -> nat) {
    exists es :: Run(Init(tokens), es, tokens) == Some(s) && forall i :: 0 <= i < |es| ==> LetThrough(es[i])
  }

  lemma ServedStep(s: State, e: Event, tokens: nat -> nat)
    requires Served(s, tokens) && Allowed(s, e) && LetThrough(e)
    ensures Served(Next(s, e, tokens), tokens)
  {
    var es :| Run(Init(tokens), es, tokens) == Some(s) && forall i :: 0 <= i < |es| ==> LetThrough(es[i]);
    RunOneMore(Init(tokens), es, e, tokens);
    assert forall i :: 0 <= i < |es + [e]| ==> LetThrough((es + [e])[i]);
  }

  lemma InitServed(tokens: nat -> nat)
    ensures Served(Init(tokens), tokens)
  {
    assert Run(Init(tokens), [], tokens) == Some(Init(tokens));
  }

  const FIRST_USER: string := "u___1"
  const SECOND_USER: string := "u___2"

  lemma AsksForOne(u: string)
    requires Identity.Valid(u)
    ensures Asks([u], 1, {u})
  {
    var ids := [u];
    assert ids[0] == u;
    assert (set i | 0 <= i < |ids| :: ids[i]) == {u};
  }

  /** Subscribing to one of the two users is let through. */
  lemma FirstRequests(c: Conn, x: Id, u: string, now: nat)
    requires u == FIRST_USER || u == SECOND_USER
    ensures LetThrough(SetSubscriptions(c, x, 1, {u}, now))
  {
    Identity.NumberedIsValid(1, FIRST_USER);
    Identity.NumberedIsValid(2, SECOND_USER);
    AsksForOne(u);
  }

  // ---------------------------------------------------------------- one subscription and its first read

  function Start(tokens: nat -> nat): nat { tokens(0) + 1 }

  function Row(reading: bool, nextAttempt: nat, lastSuccess: nat): Sub {
    Sub(0, 1, {FIRST_USER}, reading, false, nextAttempt, lastSuccess)
  }

  /** Connection 0 watches the first user with subscription 0 at revision 1. */
  function One(sub: Sub, due: map<Id, Rank>, order: nat, wake: bool): Reg {
    Reg(map[0 := sub], map[0 := 0], map[0 := 0], map[FIRST_USER := {0}], 1, due, order, wake)
  }

  const FIRST := Job(0, 1, {FIRST_USER})

  const ACCEPTED := map[(0, 1) := {FIRST_USER}]

  function Subscribed(tokens: nat -> nat): State {
    var t := Start(tokens);
    State(One(Row(false, 0, 0), map[0 := Rank(t, 0)], 1, true), Pool(0, [], {}, tokens(0), 0), {}, false, false, t,
          Dispatching,
          Hist([], [], ACCEPTED))
  }

  function Admitted(tokens: nat -> nat): State {
    var t := Start(tokens);
    State(One(Row(true, t + SECOND, 0), map[], 1, true), Pool(1, [FIRST], {}, tokens(1), 1), {}, false, false, t,
          Arming(0, t),
          Hist([(0, t)], [], ACCEPTED))
  }

  /** The first read is over and the next is queued thirty seconds on; fate is what became of its snapshot. */
  function ReadOnce(tokens: nat -> nat, fate: Fate): State {
    var t := Start(tokens);
    State(One(Row(false, t + SECOND, t), map[0 := Rank(t + 30 * SECOND, 1)], 2, true), Pool(0, [], {}, tokens(1), 1),
          {}, false, false, t, Arming(0, t), Hist([(0, t)], [Offer(0, 1, {FIRST_USER}, false, fate)], ACCEPTED))
  }

  lemma SubscribedIs(tokens: nat -> nat)
    ensures Subscribe(Init(tokens), 0, 0, 1, {FIRST_USER}, Start(tokens)).0 == Subscribed(tokens)
  {
    var i := Init(tokens).reg;
    SettledFields(i, 0, 0, 1, {FIRST_USER});
    assert i.due - {0} == map[] && Watch(i.byUser, {FIRST_USER}, 0) == map[FIRST_USER := {0}];
    assert Settled(i, 0, 0, 1, {FIRST_USER}) == One(Row(false, 0, 0), map[], 0, false);
  }

  lemma SubscribedServed(tokens: nat -> nat)
    ensures Served(Subscribed(tokens), tokens)
  {
    var e := SetSubscriptions(0, 0, 1, {FIRST_USER}, Start(tokens));
    assert LetThrough(e) by { FirstRequests(0, 0, FIRST_USER, Start(tokens)); }
    InitServed(tokens);
    ServedStep(Init(tokens), e, tokens);
    SubscribedIs(tokens);
  }

  lemma OnlyHead(x: Id, r: Rank)
    ensures IsHead(map[x := r], x) && HeadOf(map[x := r]) == x
  {
    assert IsHead(map[x := r], x);
  }

  /** One queued read is due, a slot and a token are free: the pass admits it and ends on an empty queue. */
  lemma PassAdmitsOne(s: State, x: Id, now: nat, tokens: nat -> nat)
    requires !Over(s) && x in s.reg.due && s.reg.due == map[x := s.reg.due[x]] && x in s.reg.subs
    requires s.reg.due[x].readyAt <= now && s.pool.slots < WORKERS && s.pool.tokenAt <= now
    ensures Dispatch(s, now, tokens) == (Admit(s, x, now, tokens), 0)
  {
    OnlyHead(x, s.reg.due[x]);
    var s' := Admit(s, x, now, tokens);
    assert s'.reg.due == map[];
    assert Blocked(s', now) == Some(0);
    assert Dispatch(s', now, tokens) == (s', 0);
  }

  lemma AdmittedServed(tokens: nat -> nat)
    ensures Served(Admitted(tokens), tokens)
  {
    SubscribedServed(tokens);
    var s, t := Subscribed(tokens), Start(tokens);
    ServedStep(s, Pass(t), tokens);
    PassAdmitsOne(s, 0, t, tokens);
    AdmittedIs(tokens);
  }

  lemma AdmittedIs(tokens: nat -> nat)
    ensures var t := Start(tokens);
            Admit(Subscribed(tokens), 0, t, tokens).(clock := t, loop := Arming(0, t)) == Admitted(tokens)
  {
    assert Subscribed(tokens).reg.due - {0} == map[];
  }

  lemma RescheduledOne(t: nat, next: nat, last: nat, order: nat)
    requires next <= t + 30 * SECOND
    ensures Rescheduled(One(Row(false, next, last), map[], order, true), 0, t)
            == One(Row(false, next, last), map[0 := Rank(t + 30 * SECOND, order)], order + 1, true)
  {}

  lemma FinishedIs(tokens: nat -> nat, fate: Fate)
    requires !fate.ConnClosing?
    ensures var s := Admitted(tokens); var t := Start(tokens);
            Finish(Reading(s), FIRST, true, fate, t) == ReadOnce(tokens, fate)
  {
    var s, t := Admitted(tokens), Start(tokens);
    var d := Completed(Reading(s), FIRST);
    assert d.reg == One(Row(false, t + SECOND, 0), map[], 1, true);
    RescheduledOne(t, t + SECOND, 0, 1);
  }

  /** s with its one queued job taken. */
  function Reading(s: State): State { s.(pool := s.pool.(jobs := [], running := {FIRST})) }

  lemma TakenServed(s: State, tokens: nat -> nat)
    requires Served(s, tokens) && s.pool.jobs == [FIRST] && s.pool.running == {}
    ensures Served(Reading(s), tokens)
  {
    assert Next(s, TakeJob, tokens).pool == Reading(s).pool;
    ServedStep(s, TakeJob, tokens);
  }

  lemma ReadServed(s: State, ok: bool, fate: Fate, now: nat, tokens: nat -> nat)
    requires Served(s, tokens) && s.pool.jobs == [FIRST] && s.pool.running == {} && s.clock <= now
    requires FIRST.sub in s.reg.subs && s.pool.slots > 0
    ensures Served(Finish(Reading(s), FIRST, ok, fate, now), tokens)
  {
    TakenServed(s, tokens);
    ServedStep(Reading(s), FinishRead(FIRST, ok, fate, now), tokens);
  }

  lemma ReadOnceServed(tokens: nat -> nat, fate: Fate)
    requires !fate.ConnClosing?
    ensures Served(ReadOnce(tokens, fate), tokens)
  {
    AdmittedServed(tokens);
    ReadServed(Admitted(tokens), true, fate, Start(tokens), tokens);
    FinishedIs(tokens, fate);
  }

  // ---------------------------------------------------------------- a stale frame that stands alone

  /** Late enough for the first success to be stale and for the second token. */
  function Later(tokens: nat -> nat): nat { Start(tokens) + STALE_AFTER + tokens(1) }

  function Woken(tokens: nat -> nat): State {
    ReadOnce(tokens, OverBudget).(reg := ReadOnce(tokens, OverBudget).reg.(wake := false), loop := Dispatching)
  }

  function AdmittedAgain(tokens: nat -> nat): State {
    var t, u := Start(tokens), Later(tokens);
    State(One(Row(true, u + SECOND, t), map[], 2, false), Pool(1, [FIRST], {}, tokens(2), 2), {}, false, false, u,
          Arming(0, u),
          Hist([(0, t), (0, u)], [Offer(0, 1, {FIRST_USER}, false, OverBudget)], ACCEPTED))
  }

  lemma WokenServed(tokens: nat -> nat)
    ensures Served(Woken(tokens), tokens)
  {
    ReadOnceServed(tokens, OverBudget);
    var s, t := ReadOnce(tokens, OverBudget), Start(tokens);
    ServedStep(s, Arm(t), tokens);
    var s' := s.(loop := Parked(None, 0));
    assert Next(s, Arm(t), tokens) == s';
    ServedStep(s', WakeUp, tokens);
  }

  lemma AdmittedAgainServed(tokens: nat -> nat)
    ensures Served(AdmittedAgain(tokens), tokens)
  {
    WokenServed(tokens);
    var s, u := Woken(tokens), Later(tokens);
    ServedStep(s, Pass(u), tokens);
    PassAdmitsOne(s, 0, u, tokens);
    AdmittedAgainIs(tokens);
  }

  lemma AdmittedAgainIs(tokens: nat -> nat)
    ensures Admit(Woken(tokens), 0, Later(tokens), tokens).(clock := Later(tokens), loop := Arming(0, Later(tokens)))
            == AdmittedAgain(tokens)
  {
    assert Woken(tokens).reg.due - {0} == map[];
  }

  lemma FailureIsReported(tokens: nat -> nat)
    ensures var s := AdmittedAgain(tokens);
            Finish(Reading(s), FIRST, false, Enqueued, Later(tokens)).hist.offers
            == [Offer(0, 1, {FIRST_USER}, false, OverBudget), Offer(0, 1, {FIRST_USER}, true, Enqueued)]
  {
    var s, u := AdmittedAgain(tokens), Later(tokens);
    var d := Completed(Reading(s), FIRST);
    assert d.reg == One(Row(false, u + SECOND, Start(tokens)), map[], 2, true);
    RescheduledOne(u, u + SECOND, Start(tokens), 2);
  }

  /**
   The only successful read of a revision is refused by the budget, the next read fails ninety seconds later and the
   budget has recovered: the connection's queue takes a stale frame of a revision it never got a snapshot of.
   */
  lemma StaleCanStandAlone(tokens: nat -> nat) returns (s: State)
    ensures Served(s, tokens)
    ensures s.hist.offers
            == [Offer(0, 1, {FIRST_USER}, false, OverBudget), Offer(0, 1, {FIRST_USER}, true, Enqueued)]
  {
    AdmittedAgainServed(tokens);
    var a := AdmittedAgain(tokens);
    ReadServed(a, false, Enqueued, Later(tokens), tokens);
    FailureIsReported(tokens);
    s := Finish(Reading(a), FIRST, false, Enqueued, Later(tokens));
  }

  // ---------------------------------------------------------------- an overtaking at a tie

  const NEWCOMER := Sub(1, 1, {SECOND_USER}, false, false, 0, 0)

  /** p with connection 1 watching the second user besides, queued for time t. */
  function Beside(p: Reg, t: nat): Reg {
    p.(subs := p.subs[1 := NEWCOMER], onlineSub := p.onlineSub[1 := 1], active := p.active[1 := 1],
       byUser := Watch(p.byUser, {SECOND_USER}, 1),
       refs := p.refs + 1, due := p.due[1 := Rank(t, p.order)], order := p.order + 1)
  }

  /** Connection 1 joins at the moment connection 0 may be read again; 0 still waits for its interval. */
  function Joined(tokens: nat -> nat): State {
    var s, t := ReadOnce(tokens, Enqueued), Start(tokens) + SECOND;
    s.(clock := t, reg := Beside(s.reg, t), hist := s.hist.(accepted := s.hist.accepted[(1, 1) := {SECOND_USER}]))
  }

  lemma NewFields(p: Reg)
    requires 1 !in p.onlineSub && 1 !in p.subs && 1 !in p.due && 1 !in p.active
    ensures var q := Settled(p, 1, 1, 1, {SECOND_USER});
            && q.subs == p.subs[1 := NEWCOMER] && q.onlineSub == p.onlineSub[1 := 1] && q.active == p.active[1 := 1]
            && q.byUser == Watch(p.byUser, {SECOND_USER}, 1) && q.refs == p.refs + 1 && q.due == p.due
            && q.order == p.order && q.wake == p.wake
  {
    assert SubIdOf(p, 1, 1) == 1 && SubOf(p, 1, 1) == NewSub(1);
    assert p.due - {1} == p.due;
    SettledFields(p, 1, 1, 1, {SECOND_USER});
  }

  /** A second connection's first set goes in beside what is there. */
  lemma SettlesBeside(p: Reg)
    requires 1 !in p.onlineSub && 1 !in p.subs && 1 !in p.due && 1 !in p.active
    ensures Settled(p, 1, 1, 1, {SECOND_USER}) == Beside(p, 0).(due := p.due, order := p.order)
  {
    NewFields(p);
  }

  /** A woken node stays woken. */
  lemma MarksBeside(p: Reg, t: nat)
    requires p.wake && 1 !in p.due
    ensures Mark(Beside(p, 0).(due := p.due, order := p.order), 1, t) == Beside(p, t)
  {
    RequeueFields(Beside(p, 0).(due := p.due, order := p.order), 1, t);
  }

  lemma JoinedServed(tokens: nat -> nat)
    ensures Served(Joined(tokens), tokens)
  {
    var s, t := ReadOnce(tokens, Enqueued), Start(tokens) + SECOND;
    ReadOnceServed(tokens, Enqueued);
    var e := SetSubscriptions(1, 1, 1, {SECOND_USER}, t);
    assert LetThrough(e) by { FirstRequests(1, 1, SECOND_USER, t); }
    ServedStep(s, e, tokens);
    JoinedIs(tokens);
  }

  lemma JoinedIs(tokens: nat -> nat)
    ensures Subscribe(ReadOnce(tokens, Enqueued), 1, 1, 1, {SECOND_USER}, Start(tokens) + SECOND).0 == Joined(tokens)
  {
    SubscribesBeside(ReadOnce(tokens, Enqueued), Start(tokens) + SECOND);
  }

  lemma SubscribesBeside(s: State, t: nat)
    requires !Over(s) && 1 !in s.dead && s.reg.refs < MAX_REFS && s.reg.wake
    requires 1 !in s.reg.onlineSub && 1 !in s.reg.subs && 1 !in s.reg.due && 1 !in s.reg.active
    ensures Subscribe(s, 1, 1, 1, {SECOND_USER}, t).0
            == s.(clock := t, reg := Beside(s.reg, t),
                  hist := s.hist.(accepted := s.hist.accepted[(1, 1) := {SECOND_USER}]))
  {
    SettlesBeside(s.reg);
    MarksBeside(s.reg, t);
    assert SubOf(s.reg, 1, 1) == NewSub(1);
  }

  lemma MarksFirst(p: Reg, now: nat)
    requires 0 in p.active && p.active[0] == 0 && 0 in p.subs && !p.subs[0].reading
    requires 0 in p.due && p.subs[0].nextAttempt <= now < p.due[0].readyAt
    ensures MarkAll(p, [0], now).due == p.due[0 := Rank(now, p.due[0].order)]
  {
    assert MarkAll(p, [0][..0], now) == p;
    RequeueFields(p, 0, now);
  }

  lemma WalksFirst(byUser: map<string, set<Conn>>)
    requires FIRST_USER in byUser && byUser[FIRST_USER] == {0}
    ensures WalkOrder(byUser, [FIRST_USER], [0])
  {
    assert IsEnumeration([0][0..], {0});
    assert [FIRST_USER][..0] == [];
  }

  /**
   A change of the first user in the very moment connection 1 is due pulls connection 0, queued earlier, ahead of it.
   */
  lemma TieIsOvertaken(tokens: nat -> nat) returns (s: State, e: Event)
    ensures Served(s, tokens) && Allowed(s, e) && e.UsersChanged? && NotReplaced(s, e, 1)
    ensures 1 in s.reg.due && s.reg.due[1].readyAt == s.clock && 1 in Next(s, e, tokens).reg.due
    ensures Ahead(s.reg.due, 1) == {} && Passes(s.reg.due, Next(s, e, tokens).reg.due, 0, 1)
  {
    JoinedServed(tokens);
    s := Joined(tokens);
    e := UsersChanged([FIRST_USER], [0], s.clock);
    WalksFirst(s.reg.byUser);
    MarksFirst(s.reg, s.clock);
  }
}
