/**
 The budget and the send queues as they run are the machine of ByteBudget: whatever calls are made, in whatever order
 and with whatever charges of other goroutines in transit, each is a run of the machine, so its theorems are about them.
 */
module BudgetRefinement {
  import opened Common
  import opened ByteBudget
  import opened Sums
  import opened SendQueue

  // ---------------------------------------------------------------- runs

  ghost predicate Leads(s: State, s': State) { exists es :: Run(s, es) == Some(s') }

  lemma {:induction false} RunThen(s: State, es: seq<Event>, fs: seq<Event>)
    requires Run(s, es).Some?
    ensures Run(s, es + fs) == Run(Run(s, es).value, fs)
    decreases |es|
  {
    if es == [] {
      assert [] + fs == fs;
    } else {
      assert (es + fs)[1..] == es[1..] + fs;
      RunThen(Next(s, es[0]), es[1..], fs);
    }
  }

  lemma LeadsThen(s: State, m: State, t: State)
    requires Leads(s, m) && Leads(m, t)
    ensures Leads(s, t)
  {
    var es :| Run(s, es) == Some(m);
    var fs :| Run(m, fs) == Some(t);
    RunThen(s, es, fs);
  }

  lemma StepLeads(s: State, e: Event)
    requires Allowed(s, e)
    ensures Leads(s, Next(s, e))
  {
    assert [e][1..] == [];
    assert Run(s, [e]) == Some(Next(s, e));
  }

  lemma TwoStepsLead(s: State, e: Event, f: Event)
    requires Allowed(s, e) && Allowed(Next(s, e), f)
    ensures Leads(s, Next(Next(s, e), f))
  {
    StepLeads(s, e);
    StepLeads(Next(s, e), f);
    LeadsThen(s, Next(s, e), Next(Next(s, e), f));
  }

  lemma StaysLeads(s: State)
    ensures Leads(s, s)
  {
    assert Run(s, []) == Some(s);
  }

  lemma {:induction false} FreshOp(ops: set<Op>) returns (op: Op)
    ensures forall x :: x in ops ==> x < op
    decreases |ops|
  {
    op := 0;
    if ops != {} {
      var y :| y in ops;
      var rest := FreshOp(ops - {y});
      op := if rest > y then rest else y + 1;
      forall x | x in ops ensures x < op { assert x == y || x in ops - {y}; }
    }
  }

  // ---------------------------------------------------------------- one call, said of the machine's state

  /** Connection c has become q and the node counter has followed; nobody else's bytes moved. */
  function Became(s: State, c: Conn, q: Queue): State
    requires c in s.conns
  {
    s.(counter := s.counter + q.queued - s.conns[c].queued, conns := s.conns[c := q])
  }

  lemma CloseLeads(s: State, c: Conn)
    requires c in s.conns && !s.conns[c].closing
    ensures Leads(s, Became(s, c, Closed(s.conns[c])))
  {
    var op := FreshOp(s.ops.Keys);
    var e, f := CloseConn(op, c), GiveBack(op);
    TwoStepsLead(s, e, f);
    assert Next(Next(s, e), f).ops == s.ops;
    assert Next(Next(s, e), f) == Became(s, c, Closed(s.conns[c]));
  }

  lemma SettleLeads(s: State, c: Conn)
    requires c in s.conns && s.conns[c].held.Some?
    ensures Leads(s, Became(s, c, Settled(s.conns[c]).0))
  {
    var op := FreshOp(s.ops.Keys);
    var e, f := Written(op, c), GiveBack(op);
    TwoStepsLead(s, e, f);
    assert Next(Next(s, e), f).ops == s.ops;
    assert Next(Next(s, e), f) == Became(s, c, Settled(s.conns[c]).0);
  }

  /** queueFrame: the charge becomes queued bytes or goes back. */
  function Queued(s: State, op: Op): State
    requires Allowed(s, Enqueue(op))
  {
    var t := s.ops[op];
    if Fits(s.conns[t.c], s.capacity) then s.(conns := s.conns[t.c := Appended(s.conns[t.c], t.n)], ops := s.ops - {op})
    else s.(counter := s.counter - t.n, ops := s.ops - {op})
  }

  lemma QueueLeads(s: State, op: Op)
    requires Allowed(s, Enqueue(op))
    ensures Leads(s, Queued(s, op))
  {
    var e, f := Enqueue(op), GiveBack(op);
    var t := s.ops[op];
    if Fits(s.conns[t.c], s.capacity) {
      StepLeads(s, e);
    } else {
      TwoStepsLead(s, e, f);
      assert Next(Next(s, e), f).ops == s.ops - {op};
      assert Next(Next(s, e), f) == Queued(s, op);
    }
  }

  /** A charged frame is queued or given back, and a queue found full is closed. */
  lemma ChargedLeads(s: State, m: State, op: Op, c: Conn, n: nat)
    requires c in s.conns && op !in s.ops && Leads(s, m)
    requires m == s.(counter := s.counter + n, ops := s.ops[op := Charged(c, n)])
    ensures Leads(s, Became(s, c, Offered(s.conns[c], s.capacity, n)))
  {
    QueueLeads(m, op);
    var d := Queued(m, op);
    LeadsThen(s, m, d);
    assert d.ops == s.ops;
    var q := s.conns[c];
    if Fits(q, s.capacity) {
      assert d == Became(s, c, Appended(q, n));
    } else {
      assert d == s;
      if q.closing {
        assert s.conns[c := q] == s.conns;
        StaysLeads(s);
      } else {
        CloseLeads(s, c);
      }
    }
  }

  lemma SendLeads(s: State, c: Conn, n: nat)
    requires c in s.conns
    ensures Leads(s, Became(s, c, Offered(s.conns[c], s.capacity, n)))
  {
    var op := FreshOp(s.ops.Keys);
    StepLeads(s, Take(op, c, n));
    ChargedLeads(s, Next(s, Take(op, c, n)), op, c, n);
  }

  lemma RefusedLeads(s: State, op: Op, c: Conn, n: nat)
    requires Allowed(s, TryTake(op, c, n)) && !Affords(s.limit, s.counter, n)
    ensures Leads(s, s)
  {
    var e, f := TryTake(op, c, n), GiveBack(op);
    TwoStepsLead(s, e, f);
    assert Next(Next(s, e), f).ops == s.ops;
    assert Next(Next(s, e), f) == s;
  }

  /** Push: the frame if the node can afford it, a resync otherwise. */
  lemma PushLeads(s: State, c: Conn, n: nat, resync: nat)
    requires c in s.conns
    ensures var m := if Affords(s.limit, s.counter, n) then n else resync;
            Leads(s, Became(s, c, Offered(s.conns[c], s.capacity, m)))
  {
    var op := FreshOp(s.ops.Keys);
    if Affords(s.limit, s.counter, n) {
      StepLeads(s, TryTake(op, c, n));
      ChargedLeads(s, Next(s, TryTake(op, c, n)), op, c, n);
    } else {
      RefusedLeads(s, op, c, n);
      SendLeads(s, c, resync);
    }
  }

  // ---------------------------------------------------------------- the objects

  lemma LeadsReachable(s: State, s': State)
    requires Reachable(s) && Leads(s, s') && s'.limit == s.limit && s'.capacity == s.capacity
    ensures Reachable(s')
  {
    StaysLeads(s);
    assert Leads(Init(s.limit, s.capacity), s);
    LeadsThen(Init(s.limit, s.capacity), s, s');
  }

  /** A closed connection is charged for nothing, so closing it again changes nothing. */
  lemma ClosedIsSettled(s: State, c: Conn)
    requires Reachable(s) && c in s.conns && s.conns[c].closing
    ensures Closed(s.conns[c]) == s.conns[c] && Became(s, c, s.conns[c]) == s
  {
    ReachableGood(s);
    assert QueueOk(s.conns[c], s.capacity);
    assert s.conns[c := s.conns[c]] == s.conns;
  }

  /** s' is where some run from s leads, and so reachable as s is. */
  ghost predicate Goes(s: State, s': State) { Leads(s, s') && Reachable(s') }

  lemma SendGoes(s: State, c: Conn, n: nat)
    requires Reachable(s) && c in s.conns
    ensures Goes(s, Became(s, c, Offered(s.conns[c], s.capacity, n)))
  {
    SendLeads(s, c, n);
    LeadsReachable(s, Became(s, c, Offered(s.conns[c], s.capacity, n)));
  }

  lemma PushGoes(s: State, c: Conn, n: nat, resync: nat)
    requires Reachable(s) && c in s.conns
    ensures Goes(s, Became(s, c, Offered(s.conns[c], s.capacity, if Affords(s.limit, s.counter, n) then n else resync)))
  {
    PushLeads(s, c, n, resync);
    LeadsReachable(
      s, Became(s, c, Offered(s.conns[c], s.capacity, if Affords(s.limit, s.counter, n) then n else resync)));
  }

  lemma SettleGoes(s: State, c: Conn)
    requires Reachable(s) && c in s.conns && s.conns[c].held.Some?
    ensures Goes(s, Became(s, c, Settled(s.conns[c]).0))
  {
    SettleLeads(s, c);
    LeadsReachable(s, Became(s, c, Settled(s.conns[c]).0));
  }

  lemma CloseGoes(s: State, c: Conn)
    requires Reachable(s) && c in s.conns
    ensures Goes(s, Became(s, c, Closed(s.conns[c])))
  {
    if s.conns[c].closing {
      ClosedIsSettled(s, c);
      StaysLeads(s);
    } else {
      CloseLeads(s, c);
    }
    LeadsReachable(s, Became(s, c, Closed(s.conns[c])));
  }

  lemma StepGoes(s: State, e: Event)
    requires Reachable(s) && Allowed(s, e)
    ensures Goes(s, Next(s, e))
  {
    StepLeads(s, e);
    LeadsReachable(s, Next(s, e));
  }

  lemma QueueGoes(s: State, op: Op)
    requires Reachable(s) && Allowed(s, Enqueue(op))
    ensures Goes(s, Queued(s, op))
  {
    QueueLeads(s, op);
    LeadsReachable(s, Queued(s, op));
  }

  /** A node's budget and the connections that share it. */
  class Node {
    const budget: SendBudget
    const capacity: nat
    var conns: map<Conn, Connection>
    ghost var s: State

    /** Every connection is an object of its own, charged to this node's budget. */
    ghost predicate Owned()
      reads this
    {
      && (forall c :: c in conns ==> conns[c].budget == budget && conns[c].capacity == capacity)
      && (forall c, d :: c in conns && d in conns && c != d ==> conns[c] != conns[d])
    }

    ghost predicate Shows()
      reads this, budget, conns.Values
    {
      && s.limit == budget.limit && s.capacity == capacity && s.counter == budget.queued && s.conns.Keys == conns.Keys
      && forall c :: c in conns ==> conns[c].View() == s.conns[c]
    }

    /** The objects show s, and some run of the machine is in s. */
    ghost predicate Follows()
      reads this, budget, conns.Values
    {
      Owned() && Shows() && Reachable(s)
    }

    constructor (limit: int, capacity: nat)
      ensures Follows() && fresh(budget) && conns == map[] && s == Init(limit, capacity)
    {
      budget := new SendBudget(limit);
      this.capacity, conns, s := capacity, map[], Init(limit, capacity);
      new;
      StaysLeads(Init(limit, capacity));
    }

    method Connect(c: Conn)
      requires Follows() && c !in conns
      modifies this`conns, this`s
      ensures Follows() && s == Next(old(s), Event.Connect(c)) && conns.Keys == old(conns).Keys + {c}
      ensures fresh(conns[c]) && forall d :: d in old(conns) ==> conns[d] == old(conns)[d]
    {
      StepGoes(s, Event.Connect(c));
      var conn := new Connection(budget, capacity);
      conns := conns[c := conn];
      s := Next(s, Event.Connect(c));
    }

    method Send(c: Conn, frame: Frame) returns (ok: bool)
      requires Follows() && c in conns
      modifies this`s, budget, conns[c]
      ensures Follows() && Goes(old(s), s) && ok == Fits(old(s).conns[c], capacity)
      ensures s == Became(old(s), c, Offered(old(s).conns[c], capacity, |frame|))
    {
      SendGoes(s, c, |frame|);
      ok := conns[c].Send(frame);
      s := Became(s, c, Offered(s.conns[c], capacity, |frame|));
    }

    method Push(c: Conn, frame: Frame, resync: Frame) returns (ok: bool)
      requires Follows() && c in conns
      modifies this`s, budget, conns[c]
      ensures Follows() && Goes(old(s), s) && ok == Fits(old(s).conns[c], capacity)
      ensures var n := if Affords(budget.limit, old(s).counter, |frame|) then |frame| else |resync|;
              s == Became(old(s), c, Offered(old(s).conns[c], capacity, n))
    {
      PushGoes(s, c, |frame|, |resync|);
      ghost var n := if Affords(s.limit, s.counter, |frame|) then |frame| else |resync|;
      ok := conns[c].Push(frame, resync);
      s := Became(s, c, Offered(s.conns[c], capacity, n));
    }

    method Receive(c: Conn) returns (frame: Frame)
      requires Follows() && c in conns && conns[c].send != [] && conns[c].held.None?
      modifies this`s, conns[c]
      ensures Follows() && Allowed(old(s), Dequeue(c)) && s == Next(old(s), Dequeue(c))
              && frame == old(conns[c].send)[0]
    {
      assert |Lengths(conns[c].send)| > 0;
      StepGoes(s, Dequeue(c));
      frame := conns[c].Receive();
      s := Next(s, Dequeue(c));
    }

    method Settle(c: Conn)
      requires Follows() && c in conns && conns[c].held.Some?
      modifies this`s, budget, conns[c]
      ensures Follows() && Goes(old(s), s) && old(s).conns[c].held.Some?
      ensures s == Became(old(s), c, Settled(old(s).conns[c]).0)
    {
      SettleGoes(s, c);
      conns[c].Settle();
      s := Became(s, c, Settled(s.conns[c]).0);
    }

    method Close(c: Conn)
      requires Follows() && c in conns
      modifies this`s, budget, conns[c]
      ensures Follows() && Goes(old(s), s) && s == Became(old(s), c, Closed(old(s).conns[c]))
    {
      CloseGoes(s, c);
      conns[c].Close();
      s := Became(s, c, Closed(s.conns[c]));
    }

    // The two halves of a send, between which other goroutines run.

    /** Send's charge. */
    method Charge(op: Op, c: Conn, n: nat)
      requires Follows() && c in conns && op !in s.ops
      modifies this`s, budget`queued
      ensures Follows() && Allowed(old(s), Take(op, c, n)) && s == Next(old(s), Take(op, c, n))
    {
      StepGoes(s, Take(op, c, n));
      budget.Charge(n);
      s := Next(s, Take(op, c, n));
    }

    /** Push's charge; one the node cannot afford is taken back at once. */
    method TryCharge(op: Op, c: Conn, n: nat) returns (ok: bool)
      requires Follows() && c in conns && op !in s.ops
      modifies this`s, budget
      ensures Follows() && Allowed(old(s), TryTake(op, c, n)) && ok == Affords(budget.limit, old(s).counter, n)
      ensures s == if ok then Next(old(s), TryTake(op, c, n)) else old(s)
    {
      StepGoes(s, TryTake(op, c, n));
      ok := budget.TryTake(n);
      if ok { s := Next(s, TryTake(op, c, n)); }
    }

    /** queueFrame on a charge made before. */
    method QueueFrame(op: Op, c: Conn, frame: Frame) returns (full: bool, ok: bool)
      requires Follows() && c in conns && op in s.ops && s.ops[op] == Charged(c, |frame|)
      modifies this`s, budget, conns[c]
      ensures Follows() && Goes(old(s), s) && Allowed(old(s), Enqueue(op)) && s == Queued(old(s), op)
      ensures ok == Fits(old(s).conns[c], capacity) && full == (!ok && !old(s).conns[c].closing)
    {
      QueueGoes(s, op);
      full, ok := conns[c].QueueFrame(frame);
      s := Queued(s, op);
    }

    /**
     What the counter says at any moment is what the connections hold and what is on its way; at rest, only the former.
     */
    method QueuedBytes() returns (n: int)
      requires Follows()
      ensures n == Sum(ByteBudget.QueuedBytes(s)) + Sum(TransitBytes(s)) && n >= 0
      ensures s.ops == map[] && (forall c :: c in conns ==> conns[c].closing) ==> n == 0
    {
      CounterBalances(s);
      n := budget.queued;
      if s.ops == map[] && forall c :: c in conns ==> conns[c].closing {
        forall c | c in s.conns ensures s.conns[c].closing { assert conns[c].View() == s.conns[c]; }
        ClosedNodeOwesNothing(s);
      }
    }
  }
}
