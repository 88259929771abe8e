/**
 Presence registration (internal/gateway/gateway.go) over the Redis driver's sorted sets: Add, Remove and Renew under
 the node's presence lock. Contexts end, and rows expire or are trimmed by others, at any moment, including between a
 check and the store call it allowed; a store call may fail after it took effect, a pipeline after part of it did.
 */
module Registration {
  import opened Common
  import opened Decimal
  import opened RedisOnline

  /** What the holder of the presence lock is doing. */
  datatype Holder =
    | Free
    | Checking(c: ConnRef)
    | Adding(c: ConnRef)
    | Removing(c: ConnRef)
    | Renewing(refs: seq<ConnRef>, todo: seq<ConnRef>)
    | Readding(todo: seq<ConnRef>, writing: Option<ConnRef>)

  /** z: the store; added: onlineAdded; dead: activeCtx ended; closed: close has run; removed: a Remove succeeded. */
  datatype State = State(
    node: string, conns: set<ConnRef>, dead: set<ConnRef>, closed: set<ConnRef>, added: set<ConnRef>,
    removed: set<ConnRef>,
    z: Zsets, holder: Holder)

  datatype Event =
    | Connect(c: ConnRef)
    | EndContexts(cs: set<ConnRef>)
    | Close(c: ConnRef)
    | Elsewhere(z: Zsets)
    | LockToAdd(c: ConnRef)
    | CheckAdd
    | AddReturns(ok: bool, applied: bool, score: int)
    | LockToRemove(c: ConnRef)
    | RemoveReturns(ok: bool, applied: bool)
    | LockToRenew(clients: seq<ConnRef>)
    | RenewReturns(ok: bool, done: nat, score: int, now: int)
    | CheckReadd
    | ReaddReturns(ok: bool, applied: bool, score: int)
    | Unlock

  predicate HasRow(z: Zsets, node: string, c: ConnRef) { Member(node, c) in Zset(z, c.userId) }

  predicate Int64(c: ConnRef) { MIN_INT64 <= c.platformId <= MAX_INT64 }

  /** addOnline goes on to its store call. */
  predicate Proceeds(s: State, c: ConnRef) { c !in s.added && c !in s.dead }

  /** A connection id is used once; other nodes, trims and expiry may take this node's rows away but never make one. */
  predicate Allowed(s: State, e: Event) {
    match e
    case Connect(c) => c !in s.conns && Int64(c)
    case EndContexts(cs) => cs <= s.conns
    case Close(c) => c in s.conns
    case Elsewhere(z) => forall c :: c in s.conns && HasRow(z, s.node, c) ==> HasRow(s.z, s.node, c)
    case LockToAdd(c) => s.holder.Free? && c in s.conns && c !in s.dead
    case CheckAdd => s.holder.Checking?
    case AddReturns(ok, applied, _) => s.holder.Adding? && (ok ==> applied)
    case LockToRemove(c) => s.holder.Free? && c in s.closed
    case RemoveReturns(ok, applied) => s.holder.Removing? && (ok ==> applied)
    case LockToRenew(clients) => s.holder.Free? && forall i :: 0 <= i < |clients| ==> clients[i] in s.conns
    case RenewReturns(ok, done, _, _) =>
      && s.holder.Renewing? && done <= |s.holder.refs|
      && (ok ==> done == |s.holder.refs|)
    case CheckReadd => s.holder.Readding? && s.holder.writing.None? && s.holder.todo != []
    case ReaddReturns(ok, applied, _) => s.holder.Readding? && s.holder.writing.Some? && (ok ==> applied)
    case Unlock => s.holder.Readding? && s.holder.writing.None? && s.holder.todo == []
  }

  /** The clients whose context has not ended, in order. */
  function Alive(dead: set<ConnRef>, clients: seq<ConnRef>): seq<ConnRef> {
    if clients == [] then []
    else Alive(dead, clients[..|clients|-1]) + if clients[|clients|-1] in dead then [] else [clients[|clients|-1]]
  }

  /** A store call to add c that returned ok, and took effect or not. */
  function Wrote(s: State, c: ConnRef, ok: bool, applied: bool, score: int): State {
    s.(z := if applied then Put(s.z, c.userId, Member(s.node, c), score) else s.z,
       added := if ok then s.added + {c} else s.added)
  }

  function Next(s: State, e: Event): State
    requires Allowed(s, e)
  {
    match e
    case Connect(c) => s.(conns := s.conns + {c})
    case EndContexts(cs) => s.(dead := s.dead + cs)
    case Close(c) => s.(closed := s.closed + {c}, dead := s.dead + {c})
    case Elsewhere(z) => s.(z := z)
    case LockToAdd(c) => s.(holder := Checking(c))
    case CheckAdd => s.(holder := if Proceeds(s, s.holder.c) then Adding(s.holder.c) else Free)
    case AddReturns(ok, applied, score) => Wrote(s, s.holder.c, ok, applied, score).(holder := Free)
    case LockToRemove(c) => s.(holder := Removing(c))
    case RemoveReturns(ok, applied) =>
      var c := s.holder.c;
      s.(z := if applied then Drop(s.z, c.userId, Member(s.node, c)) else s.z,
         added := if ok then s.added - {c} else s.added,
         removed := if ok then s.removed + {c} else s.removed, holder := Free)
    case LockToRenew(clients) => s.(holder := Renewing(Alive(s.dead, clients), clients))
    case RenewReturns(ok, done, score, now) =>
      s.(z := RenewAll(s.z, s.node, s.holder.refs[..done], score, now).0,
         holder := if ok then Readding(s.holder.todo, None) else Free)
    case CheckReadd =>
      var c := s.holder.todo[0];
      s.(holder := Readding(s.holder.todo[1..], if Proceeds(s, c) then Some(c) else None))
    case ReaddReturns(ok, applied, score) =>
      Wrote(s, s.holder.writing.value, ok, applied, score).(holder := Readding(s.holder.todo, None))
    case Unlock => s.(holder := Free)
  }

  // ---------------------------------------------------------------- rows

  lemma {:induction false} AliveIs(dead: set<ConnRef>, clients: seq<ConnRef>, c: ConnRef)
    ensures c in Alive(dead, clients) <==> c in clients && c !in dead
  {
    if clients != [] {
      AliveIs(dead, clients[..|clients|-1], c);
      assert clients == clients[..|clients|-1] + [clients[|clients|-1]];
    }
  }

  /** Two connections of a node never share a row. */
  lemma RowsDiffer(node: string, a: ConnRef, b: ConnRef)
    requires Int64(a) && Int64(b) && SameRow(node, a, b)
    ensures a == b
  {
    MembersDiffer(node, a, b);
  }

  lemma PutElsewhere(z: Zsets, node: string, c: ConnRef, score: int, d: ConnRef)
    requires Int64(c) && Int64(d) && c != d
    ensures HasRow(Put(z, c.userId, Member(node, c), score), node, d) <==> HasRow(z, node, d)
  {
    if SameRow(node, c, d) { RowsDiffer(node, c, d); }
  }

  /** A renewal makes no row but those of its batch. */
  lemma {:induction false} RenewRows(z: Zsets, node: string, refs: seq<ConnRef>, score: int, now: int, d: ConnRef)
    requires HasRow(RenewAll(z, node, refs, score, now).0, node, d)
    ensures HasRow(z, node, d) || Touches(node, refs, d.userId, Member(node, d))
  {
    if refs != [] {
      var front, c := refs[..|refs|-1], refs[|refs|-1];
      assert refs == front + [c];
      TouchesLast(node, front, c, d.userId, Member(node, d));
      if HasRow(RenewAll(z, node, front, score, now).0, node, d) { RenewRows(z, node, front, score, now, d); }
    }
  }

  // ---------------------------------------------------------------- what every step keeps

  /** The connections whose row a store call in progress may still write. */
  function MayWrite(h: Holder): seq<ConnRef> {
    match h
    case Adding(c) => [c]
    case Renewing(refs, _) => refs
    case Readding(_, writing) => if writing.Some? then [writing.value] else []
    case _ => []
  }

  /** The connections the holder has still to look at. */
  function Named(h: Holder): seq<ConnRef> {
    match h
    case Checking(c) => [c]
    case Removing(c) => [c]
    case Renewing(_, todo) => todo
    case Readding(todo, _) => todo
    case _ => []
  }

  ghost predicate Known(s: State) {
    && s.removed <= s.closed <= s.dead <= s.conns && (forall c :: c in s.conns ==> Int64(c))
    && (forall c :: c in MayWrite(s.holder) ==> c in s.conns && c !in s.removed)
         && (forall c :: c in Named(s.holder) ==> c in s.conns)
    && (s.holder.Removing? ==> s.holder.c in s.closed)
  }

  ghost predicate Gone(s: State) { forall c :: c in s.removed ==> !HasRow(s.z, s.node, c) }

  ghost predicate Good(s: State) { Known(s) && Gone(s) }

  lemma StepKnown(s: State, e: Event)
    requires Known(s) && Allowed(s, e)
    ensures Known(Next(s, e))
  {
    if e.LockToRenew? {
      forall c ensures c in Alive(s.dead, e.clients) <==> c in e.clients && c !in s.dead {
        AliveIs(s.dead, e.clients, c);
      }
    }
  }

  lemma StepGone(s: State, e: Event)
    requires Good(s) && Allowed(s, e)
    ensures Gone(Next(s, e))
  {
    var s' := Next(s, e);
    forall d | d in s'.removed ensures !HasRow(s'.z, s.node, d) {
      match e
      case AddReturns(_, _, score) => PutElsewhere(s.z, s.node, s.holder.c, score, d);
      case ReaddReturns(_, _, score) => PutElsewhere(s.z, s.node, s.holder.writing.value, score, d);
      case RenewReturns(_, done, score, now) => RenewLeavesGone(s, done, score, now, d);
      case _ =>
    }
  }

  lemma RenewLeavesGone(s: State, done: nat, score: int, now: int, d: ConnRef)
    requires Good(s) && s.holder.Renewing? && done <= |s.holder.refs| && d in s.removed
    ensures !HasRow(RenewAll(s.z, s.node, s.holder.refs[..done], score, now).0, s.node, d)
  {
    var refs := s.holder.refs[..done];
    if HasRow(RenewAll(s.z, s.node, refs, score, now).0, s.node, d) {
      RenewRows(s.z, s.node, refs, score, now, d);
      var i :| 0 <= i < |refs| && refs[i].userId == d.userId && Member(s.node, refs[i]) == Member(s.node, d);
      assert refs[i] in MayWrite(s.holder);
      RowsDiffer(s.node, refs[i], d);
    }
  }

  lemma StepGood(s: State, e: Event)
    requires Good(s) && Allowed(s, e)
    ensures Good(Next(s, e))
  {
    StepKnown(s, e);
    StepGone(s, e);
  }

  // ---------------------------------------------------------------- every run

  ghost function Run(s: State, es: seq<Event>): Option<State>
    decreases |es|
  {
    if es == [] then Some(s) else if Allowed(s, es[0]) then Run(Next(s, es[0]), es[1..]) else None
  }

  function Init(node: string, z: Zsets): State { State(node, {}, {}, {}, {}, {}, z, Free) }

  /** Some run of a node that came up to some store is in state s. */
  ghost predicate Reachable(s: State) { exists z, es :: Run(Init(s.node, z), es) == Some(s) }

  ghost predicate Leads(s: State, s': State) { exists es :: Run(s, es) == Some(s') }

  lemma {:induction false} RunGood(s: State, es: seq<Event>)
    requires Good(s) && Run(s, es).Some?
    ensures Good(Run(s, es).value)
    decreases |es|
  {
    if es != [] {
      StepGood(s, es[0]);
      RunGood(Next(s, es[0]), es[1..]);
    }
  }

  lemma ReachableGood(s: State)
    requires Reachable(s)
    ensures Good(s)
  {
    var z, es :| Run(Init(s.node, z), es) == Some(s);
    RunGood(Init(s.node, z), es);
  }

  lemma {:induction false} RunRemoved(s: State, es: seq<Event>, c: ConnRef)
    requires c in s.removed && Run(s, es).Some?
    ensures c in Run(s, es).value.removed && Run(s, es).value.node == s.node
    decreases |es|
  {
    if es != [] { RunRemoved(Next(s, es[0]), es[1..], c); }
  }

  /**
   Once a closed connection's Remove has succeeded its member is gone from its user's sorted set, and no run ever brings
   it back.
   */
  lemma NoResurrection(s: State, s': State, c: ConnRef)
    requires Reachable(s) && c in s.removed && Leads(s, s')
    ensures c in s'.removed && Member(s.node, c) !in Zset(s.z, c.userId) && Member(s.node, c) !in Zset(s'.z, c.userId)
  {
    var es :| Run(s, es) == Some(s');
    ReachableGood(s);
    RunRemoved(s, es, c);
    RunGood(s, es);
  }

  /** So Online never again shows it, whatever the time. */
  lemma RemovedIsNeverShown(s: State, s': State, c: ConnRef, now: int)
    requires Reachable(s) && c in s.removed && Leads(s, s')
    ensures !Shown(s'.z, c.userId, Member(s.node, c), now)
  {
    NoResurrection(s, s', c);
  }

  /** Only a live connection's row is ever about to be written when the lock is taken. */
  lemma ChecksPrecedeWrites(s: State, e: Event, c: ConnRef)
    requires Reachable(s) && Allowed(s, e) && c in MayWrite(Next(s, e).holder) && c !in MayWrite(s.holder)
    ensures c !in s.dead && c !in s.removed
  {
    ReachableGood(s);
    if e.LockToRenew? { AliveIs(s.dead, e.clients, c); }
  }

  // ---------------------------------------------------------------- the critical sections as they run

  lemma {:induction false} RunOneMore(s: State, es: seq<Event>, e: Event)
    requires Run(s, es).Some? && Allowed(Run(s, es).value, e)
    ensures Run(s, es + [e]) == Some(Next(Run(s, es).value, e))
    decreases |es|
  {
    if es == [] {
      assert [e][1..] == [];
    } else {
      assert (es + [e])[1..] == es[1..] + [e];
      RunOneMore(Next(s, es[0]), es[1..], e);
    }
  }

  lemma LeadsOn(s: State, m: State, e: Event)
    requires Leads(s, m) && Allowed(m, e)
    ensures Leads(s, Next(m, e))
  {
    var es :| Run(s, es) == Some(m);
    RunOneMore(s, es, e);
  }

  lemma LeadsNowhere(s: State)
    ensures Leads(s, s)
  {
    assert Run(s, []) == Some(s);
  }

  /** The row of c expires at this score. */
  predicate Scored(z: Zsets, node: string, c: ConnRef, score: int) {
    HasRow(z, node, c) && Zset(z, c.userId)[Member(node, c)] == score
  }

  /** These, and whoever had the score before, have it. */
  ghost predicate AllScored(z0: Zsets, z: Zsets, node: string, cs: seq<ConnRef>, score: int) {
    forall c :: c in cs || Scored(z0, node, c, score) ==> Scored(z, node, c, score)
  }

  lemma StillScored(
    z0: Zsets, z: Zsets, z': Zsets, node: string, cs: seq<ConnRef>, c: ConnRef, created: bool, score: int)
    requires AllScored(z0, z, node, cs, score)
    requires z' == Put(z, c.userId, Member(node, c), score) || (z' == z && !created)
    ensures AllScored(z0, z', node, if created then cs + [c] else cs, score)
  {}

  lemma RenewedIsScored(z: Zsets, node: string, refs: seq<ConnRef>, score: int, now: int, c: ConnRef)
    requires c in refs && score >= now
    ensures Scored(RenewAll(z, node, refs, score, now).0, node, c, score)
  {
    var i :| 0 <= i < |refs| && refs[i] == c;
    assert Touches(node, refs, c.userId, Member(node, c));
    RenewShows(z, node, refs, score, now, c.userId, Member(node, c));
  }

  lemma RenewedAreScored(
    z: Zsets, z': Zsets, node: string, dead: set<ConnRef>, clients: seq<ConnRef>, score: int, now: int)
    requires z' == RenewAll(z, node, Alive(dead, clients), score, now).0 && now <= score
    ensures forall c :: c in clients && c !in dead ==> Scored(z', node, c, score)
  {
    forall c | c in clients && c !in dead ensures Scored(z', node, c, score) {
      AliveIs(dead, clients, c);
      RenewedIsScored(z, node, Alive(dead, clients), score, now, c);
    }
  }

  /** What one store call came to: its error, and whether it took effect. */
  datatype Outcome = Outcome(ok: bool, applied: bool)

  class Presence {
    const node: string
    var conns: set<ConnRef>
    var dead: set<ConnRef>
    var closed: set<ConnRef>
    var added: set<ConnRef>
    const store: Store
    ghost var removed: set<ConnRef>

    ghost function View(h: Holder): State
      reads this, store
    {
      State(node, conns, dead, closed, added, removed, store.zsets, h)
    }

    constructor (node: string, store: Store)
      ensures View(Free) == Init(node, store.zsets) && Reachable(View(Free)) && this.store == store
    {
      this.node, this.store := node, store;
      conns, dead, closed, added, removed := {}, {}, {}, {}, {};
      new;
      assert Run(Init(node, store.zsets), []) == Some(View(Free));
    }

    /** addOnline; call is what its store call comes to. */
    method AddOnline(c: ConnRef, call: Outcome, score: int) returns (created: bool)
      requires call.ok ==> call.applied
      modifies this`added, store
      ensures created <==> c !in old(added) && c !in dead && call.ok
      ensures c in old(added) || c in dead ==> store.zsets == old(store.zsets) && added == old(added)
      ensures c !in old(added) && c !in dead ==>
                && store.zsets == (if call.applied then Put(old(store.zsets), c.userId, Member(node, c), score)
                   else old(store.zsets))
                && added == if call.ok then old(added) + {c} else old(added)
    {
      if c in added || c in dead { return false; }
      if call.applied { store.Add(node, c, score); }
      if !call.ok { return false; }
      added := added + {c};
      created := true;
    }

    /** onlineAdd under the lock; the contexts in ended end between its two looks at them. */
    method OnlineAdd(c: ConnRef, ended: set<ConnRef>, call: Outcome, score: int) returns (users: seq<string>)
      requires c in conns && ended <= conns && (call.ok ==> call.applied)
      modifies this`added, store, this`dead
      ensures Leads(old(View(Free)), View(Free))
      ensures users == if c !in old(dead) + ended && c !in old(added) && call.ok then [c.userId] else []
      ensures dead == old(dead) + ended
      ensures var goes := c !in old(dead) + ended && c !in old(added);
              && added == (if goes && call.ok then old(added) + {c} else old(added))
              && store.zsets == if goes && call.applied then Put(old(store.zsets), c.userId, Member(node, c), score)
                                else old(store.zsets)
    {
      ghost var s := View(Free);
      LeadsNowhere(s);
      if c in dead {
        LeadsOn(s, s, EndContexts(ended));
        dead := dead + ended;
        return [];
      }
      ghost var locked := Next(s, LockToAdd(c));
      LeadsOn(s, s, LockToAdd(c));
      LeadsOn(s, locked, EndContexts(ended));
      dead := dead + ended;
      LeadsOn(s, View(Checking(c)), CheckAdd);
      if Proceeds(View(Checking(c)), c) { LeadsOn(s, View(Adding(c)), AddReturns(call.ok, call.applied, score)); }
      var created := AddOnline(c, call, score);
      users := if created then [c.userId] else [];
    }

    /** onlineRemove under the lock. */
    method OnlineRemove(c: ConnRef, call: Outcome)
      requires c in closed && (call.ok ==> call.applied)
      modifies this`added, store, this`removed
      ensures Leads(old(View(Free)), View(Free)) && (call.ok ==> c in removed && c !in added)
      ensures store.zsets == if call.applied then Drop(old(store.zsets), c.userId, Member(node, c))
              else old(store.zsets)
    {
      ghost var s := View(Free);
      LeadsNowhere(s);
      LeadsOn(s, s, LockToRemove(c));
      LeadsOn(s, View(Removing(c)), RemoveReturns(call.ok, call.applied));
      if call.applied { store.Remove(node, c); }
      if call.ok { added, removed := added - {c}, removed + {c}; }
    }

    /** The refs of the live clients. */
    method Refs(clients: seq<ConnRef>) returns (refs: seq<ConnRef>)
      ensures refs == Alive(dead, clients)
    {
      refs := [];
      for i := 0 to |clients|
        invariant refs == Alive(dead, clients[..i])
      {
        assert clients[..i + 1][..i] == clients[..i];
        if clients[i] !in dead { refs := refs + [clients[i]]; }
      }
      assert clients[..|clients|] == clients;
    }

    /**
     The retries of renew: ended(i) are the contexts that end before client i is looked at, calls(i) what its store call
     comes to.
     */
    method Readd(clients: seq<ConnRef>, ended: nat -> set<ConnRef>, calls: nat -> Outcome, score: int, ghost s: State)
      returns (registered: seq<ConnRef>)
      requires Leads(s, View(Readding(clients, None))) && (forall i :: ended(i) <= conns)
               && (forall i :: calls(i).ok ==> calls(i).applied)
      modifies this`added, store, this`dead
      ensures Leads(s, View(Readding([], None)))
      ensures forall c :: c in registered <==> c in added && c !in old(added)
      ensures forall i :: 0 <= i < |clients| && calls(i).ok && clients[i] !in dead ==> clients[i] in added
      ensures AllScored(old(store.zsets), store.zsets, node, registered, score)
    {
      registered := [];
      for i := 0 to |clients|
        invariant Leads(s, View(Readding(clients[i..], None))) && old(added) <= added
        invariant forall c :: c in registered <==> c in added && c !in old(added)
        invariant forall k :: 0 <= k < i && calls(k).ok && clients[k] !in dead ==> clients[k] in added
        invariant AllScored(old(store.zsets), store.zsets, node, registered, score)
      {
        var c := clients[i];
        LeadsOn(s, View(Readding(clients[i..], None)), EndContexts(ended(i)));
        dead := dead + ended(i);
        ghost var here := View(Readding(clients[i..], None));
        LeadsOn(s, here, CheckReadd);
        assert clients[i..][1..] == clients[i + 1..];
        if Proceeds(here, c) {
          LeadsOn(s, View(Readding(clients[i + 1..], Some(c))), ReaddReturns(calls(i).ok, calls(i).applied, score));
        }
        ghost var z, had := store.zsets, registered;
        var created := AddOnline(c, calls(i), score);
        if created { registered := registered + [c]; }
        StillScored(old(store.zsets), z, store.zsets, node, had, c, created, score);
      }
      assert clients[|clients|..] == [];
    }

    /**
     renew under the lock: done commands of the pipeline take effect; when it fails nobody is retried, otherwise whoever
     was never registered is, and the changed connections are the revived and the newly registered ones.
     */
    method Renew(
      clients: seq<ConnRef>, ok: bool, done: nat, score: int, now: int, ended: nat -> set<ConnRef>,
      calls: nat -> Outcome)
      returns (revived: seq<ConnRef>, registered: seq<ConnRef>)
      requires (forall i :: 0 <= i < |clients| ==> clients[i] in conns) && (forall i :: ended(i) <= conns)
               && (forall i :: calls(i).ok ==> calls(i).applied)
      requires done <= |Alive(dead, clients)| && (ok ==> done == |Alive(dead, clients)|)
      modifies this`added, store, this`dead
      ensures Leads(old(View(Free)), View(Free))
      ensures revived == if ok then Revived(old(store.zsets), node, Alive(old(dead), clients), score, now) else []
      ensures forall c :: c in registered <==> c in added && c !in old(added)
      ensures ok ==> forall i :: 0 <= i < |clients| && calls(i).ok && clients[i] !in dead ==> clients[i] in added
      ensures ok && now <= score ==>
                forall c :: c in registered || (c in clients && c !in old(dead)) ==> Scored(store.zsets, node, c, score)
    {
      var refs := Refs(clients);
      ghost var s := View(Free);
      LeadsNowhere(s);
      LeadsOn(s, s, LockToRenew(clients));
      LeadsOn(s, View(Renewing(refs, clients)), RenewReturns(ok, done, score, now));
      assert ok ==> refs[..done] == refs;
      revived := store.Renew(node, refs[..done], score, now);
      if !ok { return [], []; }
      ghost var renewed := store.zsets;
      registered := Readd(clients, ended, calls, score, s);
      if now <= score { RenewedAreScored(s.z, renewed, node, s.dead, clients, score, now); }
      LeadsOn(s, View(Readding([], None)), Unlock);
    }
  }
}
