/**
 Outbound bytes (internal/gateway/budget.go, client.go): the node counter, the per-connection queues, and every charge
 or release that is between two atomic steps. Goroutines interleave at each of those steps.
 */
module ByteBudget {
  import opened Common
  import opened Sums

  type Conn = nat
  type Op = nat

  /**
   One connection: frame lengths in its channel, the frame its writer took out, bytes charged, and whether it closed.
   */
  datatype Queue = Queue(frames: seq<nat>, held: Option<nat>, queued: int, closing: bool)

  /** A charge not yet enqueued, or bytes on their way back to the node counter. */
  datatype Transit = Charged(c: Conn, n: nat) | Returning(bytes: int)

  /** limit 0 is unlimited; capacity is the length of every send channel. */
  datatype State = State(limit: int, capacity: nat, counter: int, conns: map<Conn, Queue>, ops: map<Op, Transit>)

  datatype Event =
    | Connect(c: Conn)
    | Take(op: Op, c: Conn, n: nat)
    | TryTake(op: Op, c: Conn, n: nat)
    | Enqueue(op: Op)
    | GiveBack(op: Op)
    | Dequeue(c: Conn)
    | Written(op: Op, c: Conn)
    | CloseConn(op: Op, c: Conn)

  function NewQueue(): Queue { Queue([], None, 0, false) }

  predicate Fits(q: Queue, capacity: nat) { !q.closing && |q.frames| < capacity }

  /** queueFrame under sendMu, when it succeeds. */
  function Appended(q: Queue, n: nat): Queue { q.(frames := q.frames + [n], queued := q.queued + n) }

  /** write under sendMu: after close there is nothing left to account for. */
  function Settled(q: Queue): (Queue, nat)
    requires q.held.Some?
  {
    if q.closing then (q.(held := None), 0) else (q.(held := None, queued := q.queued - q.held.value), q.held.value)
  }

  function Closed(q: Queue): Queue { q.(queued := 0, closing := true) }

  /** The queue after a charged frame of n bytes met it: appended, or closed for being full. */
  function Offered(q: Queue, capacity: nat, n: nat): Queue {
    if Fits(q, capacity) then Appended(q, n) else if q.closing then q else Closed(q)
  }

  /** n more bytes stay within the node's cap. */
  predicate Affords(limit: int, counter: int, n: nat) { limit <= 0 || counter + n <= limit }

  predicate Allowed(s: State, e: Event) {
    match e
    case Connect(c) => c !in s.conns
    case Take(op, c, _) => op !in s.ops && c in s.conns
    case TryTake(op, c, _) => op !in s.ops && c in s.conns
    case Enqueue(op) => op in s.ops && s.ops[op].Charged? && s.ops[op].c in s.conns
    case GiveBack(op) => op in s.ops && s.ops[op].Returning?
    case Dequeue(c) => c in s.conns && s.conns[c].held.None? && s.conns[c].frames != []
    case Written(op, c) => op !in s.ops && c in s.conns && s.conns[c].held.Some?
    case CloseConn(op, c) => op !in s.ops && c in s.conns && !s.conns[c].closing
  }

  function Next(s: State, e: Event): State
    requires Allowed(s, e)
  {
    match e
    case Connect(c) => s.(conns := s.conns[c := NewQueue()])
    case Take(op, c, n) => s.(counter := s.counter + n, ops := s.ops[op := Charged(c, n)])
    case TryTake(op, c, n) =>
      var over := s.limit > 0 && s.counter + n > s.limit;
      s.(counter := s.counter + n, ops := s.ops[op := if over then Returning(n) else Charged(c, n)])
    case Enqueue(op) =>
      var t := s.ops[op];
      var q := s.conns[t.c];
      if Fits(q, s.capacity) then s.(conns := s.conns[t.c := Appended(q, t.n)], ops := s.ops - {op})
      else s.(ops := s.ops[op := Returning(t.n)])
    case GiveBack(op) => s.(counter := s.counter - s.ops[op].bytes, ops := s.ops - {op})
    case Dequeue(c) =>
      var q := s.conns[c];
      s.(conns := s.conns[c := q.(frames := q.frames[1..], held := Some(q.frames[0]))])
    case Written(op, c) =>
      var (q, n) := Settled(s.conns[c]);
      s.(conns := s.conns[c := q], ops := s.ops[op := Returning(n)])
    case CloseConn(op, c) =>
      s.(conns := s.conns[c := Closed(s.conns[c])], ops := s.ops[op := Returning(s.conns[c].queued)])
  }

  /** A push is charged exactly when its bytes stay within a positive cap; otherwise they are on their way back. */
  lemma TryTakeExactly(s: State, op: Op, c: Conn, n: nat)
    requires Allowed(s, TryTake(op, c, n))
    ensures var s' := Next(s, TryTake(op, c, n));
            && (s'.ops[op] == Charged(c, n) <==> s.limit <= 0 || s.counter + n <= s.limit)
            && (s'.ops[op] == Returning(n) <==> 0 < s.limit < s.counter + n)
  {}

  /** A charged frame is queued exactly when its connection is open and its channel has room. */
  lemma EnqueueExactly(s: State, op: Op)
    requires Allowed(s, Enqueue(op))
    ensures var s', t := Next(s, Enqueue(op)), s.ops[op]; var q := s.conns[t.c];
            if !q.closing && |q.frames| < s.capacity then
              op !in s'.ops && s'.conns[t.c] == q.(frames := q.frames + [t.n], queued := q.queued + t.n)
            else op in s'.ops && s'.ops[op] == Returning(t.n) && s'.conns == s.conns
  {}

  // ---------------------------------------------------------------- what every step keeps

  function Total(frames: seq<nat>): nat { if frames == [] then 0 else frames[0] + Total(frames[1..]) }

  function Held(q: Queue): nat { if q.held.Some? then q.held.value else 0 }

  /** The bytes charged to a connection are the ones in its channel and in its writer's hand, until it closes. */
  ghost predicate QueueOk(q: Queue, capacity: nat) {
    |q.frames| <= capacity && q.queued == if q.closing then 0 else Total(q.frames) + Held(q)
  }

  ghost function QueuedBytes(s: State): map<Conn, int> { map c | c in s.conns :: s.conns[c].queued }

  function Weight(t: Transit): int { if t.Charged? then t.n else t.bytes }

  ghost function TransitBytes(s: State): map<Op, int> { map op | op in s.ops :: Weight(s.ops[op]) }

  ghost predicate Books(s: State) { s.counter == Sum(QueuedBytes(s)) + Sum(TransitBytes(s)) }

  ghost predicate Queues(s: State) { forall c :: c in s.conns ==> QueueOk(s.conns[c], s.capacity) }

  lemma {:induction false} TotalOfMore(frames: seq<nat>, n: nat)
    ensures Total(frames + [n]) == Total(frames) + n
  {
    if frames == [] {
      assert [n][1..] == [];
    } else {
      assert (frames + [n])[1..] == frames[1..] + [n];
      TotalOfMore(frames[1..], n);
    }
  }

  lemma StepQueues(s: State, e: Event)
    requires Queues(s) && Allowed(s, e)
    ensures Queues(Next(s, e))
  {
    if e.Enqueue? { TotalOfMore(s.conns[s.ops[e.op].c].frames, s.ops[e.op].n); }
  }

  ghost predicate Weights(s: State) { forall op :: op in s.ops ==> Weight(s.ops[op]) >= 0 }

  lemma StepWeights(s: State, e: Event)
    requires Queues(s) && Weights(s) && Allowed(s, e)
    ensures Weights(Next(s, e))
  {}

  // The two sums after one connection or one operation changed.

  lemma PutConn(s: State, c: Conn, q: Queue)
    ensures Sum(QueuedBytes(s.(conns := s.conns[c := q])))
            == Sum(QueuedBytes(s)) - (if c in s.conns then s.conns[c].queued else 0) + q.queued
  {
    var m := QueuedBytes(s);
    assert QueuedBytes(s.(conns := s.conns[c := q])) == m[c := q.queued];
    SumPut(m, c, q.queued);
    if c in m { SumTake(m, c); } else { assert m - {c} == m; }
  }

  lemma PutOp(s: State, op: Op, t: Transit)
    ensures Sum(TransitBytes(s.(ops := s.ops[op := t])))
            == Sum(TransitBytes(s)) - (if op in s.ops then Weight(s.ops[op]) else 0) + Weight(t)
  {
    var m := TransitBytes(s);
    assert TransitBytes(s.(ops := s.ops[op := t])) == m[op := Weight(t)];
    SumPut(m, op, Weight(t));
    if op in m { SumTake(m, op); } else { assert m - {op} == m; }
  }

  lemma DropOp(s: State, op: Op)
    requires op in s.ops
    ensures Sum(TransitBytes(s.(ops := s.ops - {op}))) == Sum(TransitBytes(s)) - Weight(s.ops[op])
  {
    assert TransitBytes(s.(ops := s.ops - {op})) == TransitBytes(s) - {op};
    SumTake(TransitBytes(s), op);
  }

  lemma SameConns(s: State, s': State)
    requires s'.conns == s.conns
    ensures QueuedBytes(s') == QueuedBytes(s)
  {}

  lemma SameOps(s: State, s': State)
    requires s'.ops == s.ops
    ensures TransitBytes(s') == TransitBytes(s)
  {}

  /** Both sides of one step: only the named connection and operation move. */
  lemma Moved(s: State, s': State, c: Conn, q: Queue, op: Op, t: Transit)
    requires s'.conns == s.conns[c := q] && s'.ops == s.ops[op := t]
    ensures Sum(QueuedBytes(s')) == Sum(QueuedBytes(s)) - (if c in s.conns then s.conns[c].queued else 0) + q.queued
    ensures Sum(TransitBytes(s')) == Sum(TransitBytes(s)) - (if op in s.ops then Weight(s.ops[op]) else 0) + Weight(t)
  {
    PutConn(s, c, q);
    SameConns(s.(conns := s.conns[c := q]), s');
    PutOp(s, op, t);
    SameOps(s.(ops := s.ops[op := t]), s');
  }

  lemma EnqueueBooks(s: State, op: Op)
    requires Books(s) && Allowed(s, Enqueue(op))
    ensures Books(Next(s, Enqueue(op)))
  {
    var t, s' := s.ops[op], Next(s, Enqueue(op));
    var q := s.conns[t.c];
    if Fits(q, s.capacity) {
      PutConn(s, t.c, Appended(q, t.n));
      SameConns(s.(conns := s.conns[t.c := Appended(q, t.n)]), s');
      DropOp(s, op);
      SameOps(s.(ops := s.ops - {op}), s');
    } else {
      PutOp(s, op, Returning(t.n));
    }
  }

  lemma StepBooks(s: State, e: Event)
    requires Books(s) && Allowed(s, e)
    ensures Books(Next(s, e))
  {
    var s' := Next(s, e);
    match e
    case Connect(c) => PutConn(s, c, NewQueue()); SameOps(s, s');
    case Take(op, c, n) => PutOp(s, op, s'.ops[op]); SameOps(s.(ops := s'.ops), s'); SameConns(s, s');
    case TryTake(op, c, n) => PutOp(s, op, s'.ops[op]); SameOps(s.(ops := s'.ops), s'); SameConns(s, s');
    case Enqueue(op) => EnqueueBooks(s, op);
    case GiveBack(op) => DropOp(s, op); SameOps(s.(ops := s.ops - {op}), s'); SameConns(s, s');
    case Dequeue(c) => PutConn(s, c, s'.conns[c]); SameConns(s.(conns := s'.conns), s'); SameOps(s, s');
    case Written(op, c) => Moved(s, s', c, s'.conns[c], op, s'.ops[op]);
    case CloseConn(op, c) => Moved(s, s', c, s'.conns[c], op, s'.ops[op]);
  }

  // ---------------------------------------------------------------- every run

  function Init(limit: int, capacity: nat): State { State(limit, capacity, 0, map[], map[]) }

  ghost function Run(s: State, es: seq<Event>): Option<State>
    decreases |es|
  {
    if es == [] then Some(s) else if Allowed(s, es[0]) then Run(Next(s, es[0]), es[1..]) else None
  }

  ghost predicate Reachable(s: State) { exists es :: Run(Init(s.limit, s.capacity), es) == Some(s) }

  ghost predicate Good(s: State) { Books(s) && Queues(s) && Weights(s) }

  lemma {:induction false} RunGood(s: State, es: seq<Event>)
    requires Good(s) && Run(s, es).Some?
    ensures Good(Run(s, es).value)
    decreases |es|
  {
    if es != [] {
      StepBooks(s, es[0]);
      StepQueues(s, es[0]);
      StepWeights(s, es[0]);
      RunGood(Next(s, es[0]), es[1..]);
    }
  }

  lemma ReachableGood(s: State)
    requires Reachable(s)
    ensures Good(s)
  {
    var es :| Run(Init(s.limit, s.capacity), es) == Some(s);
    var s0 := Init(s.limit, s.capacity);
    assert QueuedBytes(s0) == map[] && TransitBytes(s0) == map[];
    RunGood(s0, es);
  }

  /** The node counter is the queued bytes of every connection plus whatever is in transit, and is never negative. */
  lemma CounterBalances(s: State)
    requires Reachable(s)
    ensures s.counter == Sum(QueuedBytes(s)) + Sum(TransitBytes(s)) && s.counter >= 0
  {
    ReachableGood(s);
    forall c | c in s.conns ensures QueuedBytes(s)[c] >= 0 { assert QueueOk(s.conns[c], s.capacity); }
    SumNonNegative(QueuedBytes(s));
    SumNonNegative(TransitBytes(s));
  }

  lemma {:induction false} SumOfZeros<K>(m: map<K, int>)
    requires forall k :: k in m ==> m[k] == 0
    ensures Sum(m) == 0
    decreases |m|
  {
    if m != map[] {
      var k :| k in m;
      SumTake(m, k);
      assert |m - {k}| < |m| by { assert (m - {k}).Keys == m.Keys - {k}; }
      SumOfZeros(m - {k});
    }
  }

  /** Nothing leaks: with every connection closed and nothing in transit the counter is back at zero. */
  lemma ClosedNodeOwesNothing(s: State)
    requires Reachable(s) && s.ops == map[] && forall c :: c in s.conns ==> s.conns[c].closing
    ensures s.counter == 0
  {
    ReachableGood(s);
    forall c | c in s.conns ensures QueuedBytes(s)[c] == 0 { assert QueueOk(s.conns[c], s.capacity); }
    SumOfZeros(QueuedBytes(s));
    assert TransitBytes(s) == map[];
  }

  /** An open connection is charged for exactly the frames it has not written yet. */
  lemma OpenConnectionOwesItsFrames(s: State, c: Conn)
    requires Reachable(s) && c in s.conns && !s.conns[c].closing
    ensures s.conns[c].queued == Total(s.conns[c].frames) + Held(s.conns[c]) && |s.conns[c].frames| <= s.capacity
  {
    ReachableGood(s);
    assert QueueOk(s.conns[c], s.capacity);
  }
}
