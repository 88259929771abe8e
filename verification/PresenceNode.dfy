/**
 presence.go as it runs: the fields its mutex guards, changed step by step, with the queue in a real heap. Every method
 is proved to do what PresenceModel says and to keep the heap and the queue's order intact; that the rest of what
 PresenceInvariants describes holds of the objects follows in PresenceRefinement, where they run the machine.
 */
module PresenceNode {
  import opened Common
  import opened DueHeap
  import opened PresenceModel
  import Identity

  /** FIFO positions are used once. */
  ghost predicate Distinct(due: map<Id, Rank>, order: nat) {
    && (forall x :: x in due ==> due[x].order < order)
    && (forall x, y :: x in due && y in due && x != y ==> due[x].order != due[y].order)
  }

  lemma HeadIsUnique(due: map<Id, Rank>, order: nat, x: Id, y: Id)
    requires Distinct(due, order) && IsHead(due, x) && IsHead(due, y)
    ensures x == y
  {}

  lemma UnwatchOne(byUser: map<string, set<Conn>>, done: set<string>, u: string, c: Conn)
    requires u !in done
    ensures var b := Unwatch(byUser, done, c); var left := Watchers(b, u) - {c};
            Unwatch(byUser, done + {u}, c) == if left == {} then b - {u} else b[u := left]
  {}

  lemma DistinctWithout(due: map<Id, Rank>, order: nat, x: Id)
    requires Distinct(due, order)
    ensures Distinct(due - {x}, order)
  {}

  lemma DistinctWith(due: map<Id, Rank>, order: nat, x: Id, at: nat)
    requires Distinct(due, order)
    ensures x in due ==> Distinct(due[x := Rank(at, due[x].order)], order)
    ensures Distinct(due[x := Rank(at, order)], order + 1)
  {}

  lemma WatchOne(byUser: map<string, set<Conn>>, done: set<string>, u: string, c: Conn)
    ensures var b := Watch(byUser, done, c); Watch(byUser, done + {u}, c) == b[u := Watchers(b, u) + {c}]
  {}

  lemma WalkOn(byUser: map<string, set<Conn>>, users: seq<string>, u: string, cs: seq<Conn>, more: seq<Conn>)
    requires WalkOrder(byUser, users, cs) && IsEnumeration(more, Watchers(byUser, u))
    ensures WalkOrder(byUser, users + [u], cs + more)
  {
    var all, k := users + [u], |cs|;
    assert all[..|all|-1] == users && all[|all|-1] == u;
    assert (cs + more)[k..] == more && (cs + more)[..k] == cs;
  }

  lemma {:induction false} MarkAllTwice(p: Reg, cs: seq<Conn>, more: seq<Conn>, now: nat)
    ensures MarkAll(MarkAll(p, cs, now), more, now) == MarkAll(p, cs + more, now)
  {
    if more == [] {
      assert cs + more == cs;
    } else {
      MarkAllTwice(p, cs, more[..|more|-1], now);
      assert (cs + more)[..|cs + more|-1] == cs + more[..|more|-1];
    }
  }

  /** The registry an accepted request leaves. */
  function Subscribed(p: Reg, c: Conn, spare: Id, revision: int, users: set<string>, now: nat): Reg {
    var q := Settled(p, c, spare, revision, users);
    if users == {} then q else Mark(q, SubIdOf(p, c, spare), now)
  }

  lemma SubscribeIs(s: State, c: Conn, spare: Id, revision: int, users: set<string>, now: nat)
    requires Refused(s, c, spare, revision, users).None?
    ensures Subscribe(s, c, spare, revision, users, now)
         == (State(Subscribed(s.reg, c, spare, revision, users, now), s.pool, s.dead, s.stopped, s.closing, now, s.loop,
                   s.hist.(accepted := s.hist.accepted[(c, revision) := users])),
             Ack(revision))
  {}

  /** Every pointer a critical section follows leads to a subscription, and every job holds a slot. */
  ghost predicate Links(s: State) {
    && (forall c :: c in s.reg.onlineSub ==> s.reg.onlineSub[c] in s.reg.subs)
    && (forall c :: c in s.reg.active ==> s.reg.active[c] in s.reg.subs)
    && s.reg.due.Keys <= s.reg.subs.Keys
    && (forall j :: j in s.pool.running ==> j.sub in s.reg.subs)
    && s.pool.slots == |s.pool.jobs| + |s.pool.running|
  }

  lemma RequeueIs(p: Reg, x: Id, when: nat, p': Reg)
    requires x in p.subs && (x in p.due ==> Max(when, p.subs[x].nextAttempt) < p.due[x].readyAt)
    requires p' == p.(due := p.due[x :=
             Rank(Max(when, p.subs[x].nextAttempt), if x in p.due then p.due[x].order else p.order)],
                      order := if x in p.due then p.order else p.order + 1)
    ensures Requeue(p, x, when) == p'.(wake := p.wake || IsHead(p'.due, x))
  {}

  lemma HeadIs(due: map<Id, Rank>, order: nat, x: Id)
    requires Distinct(due, order) && IsHead(due, x)
    ensures HeadOf(due) == x
  {}

  /** One turn of the loop: the head is admitted and the rest is dispatched from there. */
  lemma AdmitLinks(s: State, x: Id, now: nat, tokens: nat -> nat)
    requires Distinct(s.reg.due, s.reg.order) && IsHead(s.reg.due, x) && Links(s) && Blocked(s, now).None?
    ensures x in s.reg.subs && Links(Admit(s, x, now, tokens)) && |Admit(s, x, now, tokens).reg.due| < |s.reg.due|
    ensures Dispatch(s, now, tokens) == Dispatch(Admit(s, x, now, tokens), now, tokens)
  {}

  predicate WellFormed(revision: int, userIds: seq<string>) {
    revision > 0 && |userIds| <= MAX_SUBSCRIPTIONS && forall i :: 0 <= i < |userIds| ==> Identity.Valid(userIds[i])
  }

  class OnlineSubscriptions {
    /** Every subscription object made so far, by identity, and Client.onlineSub. */
    var subs: map<Id, Sub>
    var onlineSub: map<Conn, Id>
    var active: map<Conn, Id>
    var byUser: map<string, set<Conn>>
    const due: OnlineDue
    var order: nat
    var slots: nat
    var refs: int
    var stopped: bool
    /** The job channel, the jobs workers hold, the wake channel and the limiter's next token. */
    var jobs: seq<Job>
    var running: set<Job>
    var wake: bool
    const tokens: nat -> nat
    var granted: nat
    var tokenAt: nat
    /** Gateway.closing and the connections whose activeCtx has ended. */
    var closing: bool
    var dead: set<Conn>

    ghost function Registry(): Reg
      reads this`subs, this`onlineSub, this`active, this`byUser, this`refs, this`order, this`wake, due
    {
      Reg(subs, onlineSub, active, byUser, refs, due.rank, order, wake)
    }

    ghost function Refreshes(): Pool
      reads this`slots, this`jobs, this`running, this`tokenAt, this`granted
    {
      Pool(slots, jobs, running, tokenAt, granted)
    }

    /** The object's fields are those of s; the rest of s is time and history, which the code does not keep. */
    ghost predicate Shows(s: State)
      reads this, due
    {
      Registry() == s.reg && Refreshes() == s.pool && dead == s.dead && stopped == s.stopped && closing == s.closing
    }

    /** The entries of the queue, as long as its heap is in order and its positions are distinct. */
    ghost function Queue(): Option<map<Id, Rank>>
      reads this`order, due
    {
      if due.Valid() && Distinct(due.rank, order) then Some(due.rank) else None
    }

    ghost predicate Queued()
      reads this`order, due
    {
      Queue() == Some(due.rank)
    }

    constructor (tokens: nat -> nat)
      ensures Queued() && fresh(due) && this.tokens == tokens
      ensures Registry() == Reg(map[], map[], map[], map[], 0, map[], 0, false)
              && Refreshes() == Pool(0, [], {}, tokens(0), 0)
      ensures dead == {} && !stopped && !closing
    {
      due := new OnlineDue();
      subs, onlineSub, active, byUser, order, slots, refs, stopped := map[], map[], map[], map[], 0, 0, 0, false;
      jobs, running, wake, granted, tokenAt, closing, dead := [], {}, false, 0, tokens(0), false, {};
      this.tokens := tokens;
    }

    // ---------------------------------------------------------------- under the mutex

    /** heap.Remove when queued. */
    method Dequeue(x: Id)
      requires Queued()
      modifies due
      ensures Queued() && due.rank == old(due.rank) - {x}
    {
      DistinctWithout(due.rank, order, x);
      if x in due.index { due.Remove(x); } else { assert due.rank - {x} == due.rank; }
    }

    /** The loop that takes c from the watchers of each user. */
    method UnwatchAll(users: set<string>, c: Conn)
      modifies this`byUser
      ensures byUser == Unwatch(old(byUser), users, c)
    {
      var rest := users;
      assert byUser == Unwatch(byUser, users - rest, c);
      while rest != {}
        invariant rest <= users && byUser == Unwatch(old(byUser), users - rest, c)
      {
        var u :| u in rest;
        UnwatchOne(old(byUser), users - rest, u, c);
        rest := rest - {u};
        assert users - rest == users - (rest + {u}) + {u};
        var left := (if u in byUser then byUser[u] else {}) - {c};
        byUser := if left == {} then byUser - {u} else byUser[u := left];
      }
      assert users - rest == users;
    }

    /** remove. */
    method Remove(x: Id)
      requires Queued() && x in subs
      modifies this`subs, this`active, this`byUser, this`refs, due
      ensures Queued() && Registry() == Drop(old(Registry()), x)
    {
      var s := subs[x];
      Dequeue(x);
      subs := subs[x := s.(remark := false)];
      if s.client in active {
        active := active - {s.client};
        refs := refs - |s.users|;
        UnwatchAll(s.users, s.client);
      }
    }

    /** Whether x sits in the head slot. */
    method AtHead(x: Id) returns (head: bool)
      requires Queued() && x in due.rank
      ensures head <==> IsHead(due.rank, x)
    {
      assert due.index[x] < |due.due|;
      due.Least();
      head := due.index[x] == 0;
      if IsHead(due.rank, x) { HeadIsUnique(due.rank, order, x, due.due[0]); }
    }

    /** Queue x for a moment that is earlier than any it is queued for. */
    method Enqueue(x: Id, at: nat)
      requires Queued()
      modifies due, this`order
      ensures Queued()
      ensures due.rank == old(due.rank)[x :=
              Rank(at, if x in old(due.rank) then old(due.rank)[x].order else old(order))]
      ensures order == if x in old(due.rank) then old(order) else old(order) + 1
    {
      DistinctWith(due.rank, order, x, at);
      if x in due.index {
        due.Fix(x, Rank(at, due.rank[x].order));
      } else {
        due.Push(x, Rank(at, order));
        order := order + 1;
      }
    }

    /** requeue. */
    method Requeue(x: Id, when: nat)
      requires Queued() && x in subs
      modifies this`order, this`wake, due
      ensures Queued() && Registry() == PresenceModel.Requeue(old(Registry()), x, when)
    {
      var at := if when < subs[x].nextAttempt then subs[x].nextAttempt else when;
      if x in due.index && at >= due.rank[x].readyAt { return; }
      ghost var p := Registry();
      Enqueue(x, at);
      ghost var p' := Registry();
      var head := AtHead(x);
      if head { wake := true; }
      RequeueIs(p, x, when, p');
    }

    /** mark. */
    method Mark(x: Id, now: nat)
      requires Queued() && x in subs
      modifies this`subs, this`order, this`wake, due
      ensures Queued() && Registry() == PresenceModel.Mark(old(Registry()), x, now) && subs.Keys == old(subs).Keys
    {
      if subs[x].reading {
        subs := subs[x := subs[x].(remark := true)];
      } else {
        Requeue(x, now);
      }
    }

    /** The loop that adds c to the watchers of each user. */
    method WatchAll(users: set<string>, c: Conn)
      modifies this`byUser
      ensures byUser == Watch(old(byUser), users, c)
    {
      var rest := users;
      while rest != {}
        invariant rest <= users && byUser == Watch(old(byUser), users - rest, c)
      {
        var u :| u in rest;
        WatchOne(old(byUser), users - rest, u, c);
        rest := rest - {u};
        assert users - rest == users - (rest + {u}) + {u};
        byUser := byUser[u := (if u in byUser then byUser[u] else {}) + {c}];
      }
      assert users - rest == users;
    }

    /** The checks that leave everything as it was. */
    method Check(c: Conn, spare: Id, revision: int, users: set<string>, ghost s: State) returns (refused: Option<Reply>)
      requires Shows(s) && spare !in subs && (c in onlineSub ==> onlineSub[c] in subs)
      ensures refused == Refused(s, c, spare, revision, users)
    {
      if stopped || closing { return Some(NodeDraining); }
      if c in dead { return Some(ConnClosed); }
      var sub := if c in onlineSub then subs[onlineSub[c]] else NewSub(c);
      if revision < sub.revision { return Some(InvalidParam); }
      if revision == sub.revision {
        if users != sub.users { return Some(InvalidParam); }
        return Some(Ack(revision));
      }
      if refs - |sub.users| + |users| > MAX_REFS { return Some(TooManyRequests); }
      return None;
    }

    method Adopt(c: Conn, spare: Id, revision: int, users: set<string>, now: nat)
      requires Queued() && spare !in subs && (c in onlineSub ==> onlineSub[c] in subs)
      modifies this`subs, this`onlineSub, this`active, this`byUser, this`refs, this`order, this`wake, due
      ensures Queued() && Registry() == Subscribed(old(Registry()), c, spare, revision, users, now)
    {
      var x := if c in onlineSub then onlineSub[c] else spare;
      Revise(c, x, if c in onlineSub then subs[x] else NewSub(c), revision, users);
      if users != {} { Engage(x, now); }
    }

    method Revise(c: Conn, x: Id, s: Sub, revision: int, users: set<string>)
      requires Queued()
      modifies this`subs, this`onlineSub, this`active, this`byUser, this`refs, due
      ensures Queued() && x in subs
      ensures var p := Drop(SetSub(old(Registry()), x, s), x);
              Registry() == SetSub(p, x, p.subs[x].(revision := revision, users := users,
                lastSuccess := 0)).(onlineSub := p.onlineSub[c := x])
    {
      subs := subs[x := s];
      Remove(x);
      subs := subs[x := subs[x].(revision := revision, users := users, lastSuccess := 0)];
      onlineSub := onlineSub[c := x];
    }

    method Engage(x: Id, now: nat)
      requires Queued() && x in subs
      modifies this`subs, this`active, this`byUser, this`refs, this`order, this`wake, due
      ensures Queued() && Registry() == PresenceModel.Mark(Activate(old(Registry()), x), x, now)
    {
      Enlist(x);
      Mark(x, now);
    }

    method Enlist(x: Id)
      requires x in subs
      modifies this`active, this`byUser, this`refs
      ensures Registry() == Activate(old(Registry()), x)
    {
      var s := subs[x];
      active := active[s.client := x];
      refs := refs + |s.users|;
      WatchAll(s.users, s.client);
    }

    method Forget(c: Conn)
      requires Queued() && (c in onlineSub ==> onlineSub[c] in subs)
      modifies this`subs, this`onlineSub, this`active, this`byUser, this`refs, due
      ensures Queued() && Registry() == Unsubscribe(old(Registry()), c)
    {
      if c in onlineSub {
        Remove(onlineSub[c]);
        onlineSub := onlineSub - {c};
      }
    }

    method MarkWatchers(rest0: set<Conn>, now: nat) returns (ghost cs: seq<Conn>)
      requires Queued() && forall c :: c in active ==> active[c] in subs
      modifies this`subs, this`order, this`wake, due
      ensures Queued() && subs.Keys == old(subs).Keys && IsEnumeration(cs, rest0)
              && Registry() == MarkAll(old(Registry()), cs, now)
    {
      var rest := rest0;
      cs := [];
      while rest != {}
        invariant Queued() && old(subs).Keys == subs.Keys && rest <= rest0
        invariant IsEnumeration(cs, rest0 - rest) && Registry() == MarkAll(old(Registry()), cs, now)
      {
        var c :| c in rest;
        rest := rest - {c};
        if c in active { Mark(active[c], now); }
        assert (cs + [c])[..|cs + [c]| - 1] == cs;
        cs := cs + [c];
      }
      assert rest0 - rest == rest0;
    }

    // ---------------------------------------------------------------- one critical section each

    /**
     setOnlineSubscriptions; spare is the identity a newly allocated subscription would have. A node showing s shows
     afterwards what Subscribe makes of s, or s itself when the request is malformed.
     */
    /** setOnlineSubscriptions; configured: the node has a presence store and a user service. */
    method SetSubscriptions(
      configured: bool, c: Conn, spare: Id, revision: int, userIds: seq<string>, now: nat, ghost s: State)
      returns (r: Reply)
      requires Queued() && Links(s) && Shows(s) && spare !in subs
      modifies this`subs, this`onlineSub, this`active, this`byUser, this`refs, this`order, this`wake, due
      ensures Queued()
      ensures configured && WellFormed(revision, userIds) ==>
                var (s', reply) := Subscribe(s, c, spare, revision, set i | 0 <= i < |userIds| :: userIds[i], now);
                Shows(s') && r == reply
      ensures configured && !WellFormed(revision, userIds) ==> Shows(s) && r == InvalidParam
      ensures !configured ==> Shows(s) && r == InvalidProtocol
      ensures r.Ack? ==> 1 <= revision && |userIds| <= 100
      ensures configured && (revision < 1 || 100 < |userIds|) ==> r == InvalidParam
      ensures configured && (exists u :: u in userIds && !Identity.Valid(u)) ==> r == InvalidParam
    {
      if !configured { return InvalidProtocol; }
      if revision <= 0 || |userIds| > MAX_SUBSCRIPTIONS { return InvalidParam; }
      for i := 0 to |userIds|
        invariant forall k :: 0 <= k < i ==> Identity.Valid(userIds[k])
      {
        if !Identity.Valid(userIds[i]) { return InvalidParam; }
      }
      r := Settle(c, spare, revision, set i | 0 <= i < |userIds| :: userIds[i], now, s);
    }

    method Settle(c: Conn, spare: Id, revision: int, users: set<string>, now: nat, ghost s: State) returns (r: Reply)
      requires Queued() && Links(s) && Shows(s) && spare !in subs
      modifies this`subs, this`onlineSub, this`active, this`byUser, this`refs, this`order, this`wake, due
      ensures Queued() && Shows(Subscribe(s, c, spare, revision, users, now).0)
              && r == Subscribe(s, c, spare, revision, users, now).1
    {
      var refused := Check(c, spare, revision, users, s);
      if refused.Some? { return refused.value; }
      Accept(c, spare, revision, users, now, s);
      r := Ack(revision);
    }

    method Accept(c: Conn, spare: Id, revision: int, users: set<string>, now: nat, ghost s: State)
      requires Queued() && Links(s) && Shows(s) && spare !in subs && Refused(s, c, spare, revision, users).None?
      modifies this`subs, this`onlineSub, this`active, this`byUser, this`refs, this`order, this`wake, due
      ensures Queued() && Shows(Subscribe(s, c, spare, revision, users, now).0)
    {
      Adopt(c, spare, revision, users, now);
      SubscribeIs(s, c, spare, revision, users, now);
    }

    /** removeOnlineSubscriptions. */
    method RemoveSubscriptions(c: Conn, ghost s: State)
      requires Queued() && Links(s) && Shows(s)
      modifies this`subs, this`onlineSub, this`active, this`byUser, this`refs, due
      ensures Queued() && Shows(s.(reg := Unsubscribe(s.reg, c)))
    {
      Forget(c);
    }

    /** markOnlineChanged; cs is the order in which the watcher maps were walked. */
    method UsersChanged(userIds: seq<string>, now: nat, ghost s: State) returns (ghost cs: seq<Conn>)
      requires Queued() && Links(s) && Shows(s)
      modifies this`subs, this`order, this`wake, due
      ensures Queued() && Shows(MarkChanged(s, cs, now)) && (!Over(s) ==> WalkOrder(s.reg.byUser, userIds, cs))
    {
      cs := [];
      if stopped || closing { return; }
      cs := MarkEach(userIds, now);
    }

    /** The watchers cs of the users, in the order they were walked, have been marked since the registry was p. */
    ghost predicate Walked(p: Reg, users: seq<string>, cs: seq<Conn>, now: nat)
      reads this, due
    {
      Queued() && (forall c :: c in active ==> active[c] in subs) && WalkOrder(byUser, users, cs)
        && Registry() == MarkAll(p, cs, now)
    }

    method MarkUser(u: string, now: nat, ghost p: Reg, ghost users: seq<string>, ghost cs: seq<Conn>)
      returns (ghost all: seq<Conn>)
      requires Walked(p, users, cs, now)
      modifies this`subs, this`order, this`wake, due
      ensures Walked(p, users + [u], all, now)
    {
      ghost var more := MarkWatchers(if u in byUser then byUser[u] else {}, now);
      MarkAllTwice(p, cs, more, now);
      WalkOn(byUser, users, u, cs, more);
      all := cs + more;
    }

    method MarkEach(userIds: seq<string>, now: nat) returns (ghost cs: seq<Conn>)
      requires Queued() && forall c :: c in active ==> active[c] in subs
      modifies this`subs, this`order, this`wake, due
      ensures Walked(old(Registry()), userIds, cs, now)
    {
      cs := [];
      ghost var p, done: seq<string> := Registry(), [];
      for i := 0 to |userIds|
        invariant done == userIds[..i] && Walked(p, done, cs, now)
      {
        cs := MarkUser(userIds[i], now, p, done, cs);
        done := done + [userIds[i]];
      }
      assert done == userIds;
    }

    /** What the head of the queue, the slots and the limiter allow now: wait, or admit the head. */
    method Inspect(now: nat, ghost s: State) returns (stop: Option<nat>)
      requires Queued() && Links(s) && Shows(s) && !Over(s)
      ensures stop == Blocked(s, now)
              && (stop.None? ==> |due.due| > 0 && IsHead(s.reg.due, due.due[0]) && slots != WORKERS)
    {
      if |due.due| == 0 {
        assert s.reg.due == map[];
        return Some(0);
      }
      due.Least();
      var x := due.due[0];
      HeadIs(s.reg.due, s.reg.order, x);
      if due.rank[x].readyAt > now { return Some(due.rank[x].readyAt - now); }
      if slots == WORKERS { return Some(0); }
      if tokenAt > now { return Some(tokenAt - now); }
      return None;
    }

    /** dispatchOnline. */
    method DispatchOnline(now: nat, ghost s0: State) returns (wait: nat)
      requires Queued() && Links(s0) && Shows(s0) && s0.pool.slots <= WORKERS
      modifies this`subs, this`slots, this`jobs, this`tokenAt, this`granted, due
      ensures Queued() && Shows(Dispatch(s0, now, tokens).0) && wait == Dispatch(s0, now, tokens).1
    {
      if closing || stopped { return 0; }
      ghost var s := s0;
      while true
        invariant Queued() && Links(s) && Shows(s) && !Over(s) && slots <= WORKERS
        invariant Dispatch(s, now, tokens) == Dispatch(s0, now, tokens)
        decreases |s.reg.due|
      {
        var stop := Inspect(now, s);
        if stop.Some? { return stop.value; }
        AdmitLinks(s, due.due[0], now, tokens);
        s := AdmitHead(now, s);
      }
    }

    /** Take the token, hand over the job, leave the queue. The channel holds WORKERS jobs, so the send finds room. */
    method AdmitHead(now: nat, ghost s: State) returns (ghost s': State)
      requires Queued() && Links(s) && Shows(s) && |due.due| > 0 && slots < WORKERS
      modifies this`subs, this`slots, this`jobs, this`tokenAt, this`granted, due
      ensures Queued() && old(due.due[0]) in s.reg.subs && s' == Admit(s, old(due.due[0]), now, tokens) && Shows(s')
    {
      var x := due.due[0];
      assert x in due.rank;
      assert |jobs| < WORKERS;
      s' := Admit(s, x, now, tokens);
      var sub := subs[x];
      Grant(Job(x, sub.revision, sub.users));
      TakeHead(x);
      subs := subs[x := sub.(reading := true, remark := false, nextAttempt := now + MIN_INTERVAL)];
    }

    method Grant(job: Job)
      modifies this`slots, this`jobs, this`tokenAt, this`granted
      ensures var p := old(Refreshes());
              Refreshes() == Pool(p.slots + 1, p.jobs + [job], p.running, tokens(p.granted + 1), p.granted + 1)
    {
      granted := granted + 1;
      tokenAt := tokens(granted);
      jobs := jobs + [job];
      slots := slots + 1;
    }

    method TakeHead(x: Id)
      requires Queued() && |due.due| > 0 && x == due.due[0]
      modifies due
      ensures Queued() && due.rank == old(due.rank) - {x}
    {
      DistinctWithout(due.rank, order, x);
      var _ := due.Pop();
    }

    /** A worker receives the oldest job. */
    method TakeJob(ghost s: State) returns (job: Job)
      requires Shows(s) && jobs != []
      modifies this`jobs, this`running
      ensures job == s.pool.jobs[0] && Shows(s.(pool :=
              s.pool.(jobs := s.pool.jobs[1..], running := s.pool.running + {job})))
    {
      job := jobs[0];
      jobs, running := jobs[1..], running + {job};
    }

    /** The read is over and its slot free; the dispatcher is woken. */
    method Release(job: Job)
      requires job.sub in subs && slots > 0
      modifies this`subs, this`running, this`slots, this`wake
      ensures Registry() == SetSub(old(Registry()), job.sub, old(subs)[job.sub].(reading := false)).(wake := true)
      ensures Refreshes() == old(Refreshes()).(running := old(running) - {job}, slots := old(slots) - 1)
    {
      subs := subs[job.sub := subs[job.sub].(reading := false)];
      running := running - {job};
      slots := slots - 1;
      wake := true;
    }

    method Reschedule(x: Id, now: nat)
      requires Queued() && x in subs
      modifies this`subs, this`order, this`wake, due
      ensures Queued() && Registry() == Rescheduled(old(Registry()), x, now) && x in subs
    {
      var next := if subs[x].remark then now else now + SNAPSHOT_INTERVAL;
      subs := subs[x := subs[x].(remark := false)];
      Requeue(x, next);
    }

    /**
     The frame for this result, if the job's revision is still current and a failure is old enough to report; fate is
     what becomes of it at the budget and the queue, where a closing connection shows that its context has ended.
     */
    method Report(job: Job, ok: bool, fate: Fate, now: nat, ghost s: State) returns (offer: Option<Offer>)
      requires Shows(s) && job.sub in subs
      modifies this`subs, this`dead
      ensures var s' := Delivered(s, job, ok, fate, now);
              Shows(s') && s'.hist.offers == (if offer.Some? then s.hist.offers + [offer.value] else s.hist.offers)
    {
      var sub := subs[job.sub];
      if sub.revision != job.revision { return None; }
      if !ok {
        if sub.lastSuccess == 0 || now - sub.lastSuccess < STALE_AFTER { return None; }
      } else {
        subs := subs[job.sub := sub.(lastSuccess := now)];
      }
      if fate.ConnClosing? { dead := dead + {sub.client}; }
      offer := Some(Offer(sub.client, sub.revision, job.users, !ok, fate));
    }

    /** finishOnlineRead; the offer it returns is what it hands to queueOnlineSnapshot. */
    method FinishOnlineRead(job: Job, ok: bool, fate: Fate, now: nat, ghost s: State) returns (offer: Option<Offer>)
      requires Queued() && Links(s) && Shows(s) && job in running
      modifies this`subs, this`running, this`slots, this`order, this`wake, this`dead, due
      ensures Queued() && job.sub in s.reg.subs && s.pool.slots > 0
      ensures var s' := Finish(s, job, ok, fate, now);
              Shows(s') && s'.hist.offers == (if offer.Some? then s.hist.offers + [offer.value] else s.hist.offers)
    {
      assert job in s.pool.running;
      Release(job);
      offer := Conclude(job, ok, fate, now, Completed(s.(clock := now), job));
    }

    method Conclude(job: Job, ok: bool, fate: Fate, now: nat, ghost s: State) returns (offer: Option<Offer>)
      requires Queued() && Shows(s) && job.sub in subs
      modifies this`subs, this`order, this`wake, this`dead, due
      ensures Queued()
      ensures var s' := Concluded(s, job, ok, fate, now);
              Shows(s') && s'.hist.offers == (if offer.Some? then s.hist.offers + [offer.value] else s.hist.offers)
    {
      var x := job.sub;
      var sub := subs[x];
      if stopped || closing || sub.client in dead || sub.client !in onlineSub || onlineSub[sub.client] != x
        || sub.users == {} {
        return None;
      }
      Reschedule(x, now);
      offer := Report(job, ok, fate, now, s.(reg := Rescheduled(s.reg, x, now)));
    }

    /** The dispatcher's deferred cleanup; cs is the order in which active was walked. */
    method ExitDispatcher(ghost s: State) returns (ghost cs: seq<Conn>)
      requires Queued() && Links(s) && Shows(s)
      modifies this`stopped, this`subs, this`onlineSub, this`active, this`byUser, this`refs, due
      ensures Queued() && IsEnumeration(cs, s.reg.active.Keys)
      ensures Shows(s.(stopped := true, reg := DropAll(s.reg, cs), loop := Exited))
    {
      stopped := true;
      cs := DropEach();
    }

    /** The connections cs, which are those of done, have been dropped since the registry was p. */
    ghost predicate Dropped(p: Reg, done: set<Conn>, cs: seq<Conn>)
      reads this, due
    {
      Queued() && (forall c :: c in active ==> active[c] in subs) && IsEnumeration(cs, done)
        && Registry() == DropAll(p, cs)
    }

    method DropOne(c: Conn, ghost p: Reg, ghost done: set<Conn>, ghost cs: seq<Conn>)
      requires Dropped(p, done, cs) && c !in done
      modifies this`subs, this`onlineSub, this`active, this`byUser, this`refs, due
      ensures Dropped(p, done + {c}, cs + [c])
    {
      assert (cs + [c])[..|cs + [c]| - 1] == cs;
      if c in active { Discard(c); }
    }

    method DropEach() returns (ghost cs: seq<Conn>)
      requires Queued() && forall c :: c in active ==> active[c] in subs
      modifies this`subs, this`onlineSub, this`active, this`byUser, this`refs, due
      ensures Queued() && IsEnumeration(cs, old(active).Keys) && Registry() == DropAll(old(Registry()), cs)
    {
      var rest := active.Keys;
      ghost var p, done: set<Conn> := Registry(), {};
      cs := [];
      while rest != {}
        invariant done + rest == old(active).Keys && done !! rest && Dropped(p, done, cs)
      {
        var c :| c in rest;
        rest := rest - {c};
        DropOne(c, p, done, cs);
        done, cs := done + {c}, cs + [c];
      }
      assert done == old(active).Keys;
    }

    method Discard(c: Conn)
      requires Queued() && c in active && active[c] in subs
      modifies this`subs, this`onlineSub, this`active, this`byUser, this`refs, due
      ensures Queued() && Registry() == Drop(old(Registry()), old(active)[c]).(onlineSub := old(onlineSub) - {c})
      ensures subs.Keys == old(subs).Keys && forall d :: d in active ==> d in old(active) && active[d] == old(active)[d]
    {
      Remove(active[c]);
      onlineSub := onlineSub - {c};
    }
  }
}
