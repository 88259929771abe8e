/**
 The sync state of web/src/client/client.ts. Every step is one synchronous stretch between two awaits, so pushes may
 arrive between any two steps of a refresh. What the refresh still has to do is kept in its phase.
 */
module WebClient {
  import opened Common
  import opened ChatModel
  import opened WebSync

  datatype Range = Range(minSeq: int, maxSeq: int)

  /** Inside syncRange for a conversation: everything up to local is committed, a page from local + 1 was requested. */
  datatype Pulling = Pulling(id: string, local: int)

  datatype Phase =
    | Idle
    | Listing
    | Ranging(bounds: map<string, Range>, todo: set<string>, pulling: Option<Pulling>)
    | Finishing(bounds: map<string, Range>)

  /** cursors and dirty as in the class; tracked is the bounds of snapshot.conversations. */
  datatype Client = Client(cursors: map<string, int>, tracked: map<string, Range>, dirty: bool, phase: Phase)

  /** The account of a run: what was received, the newest min_seq reported, and where received messages begin. */
  datatype Account = Account(received: set<(string, int)>, mins: map<string, int>, floors: map<string, int>)

  datatype State = State(c: Client, a: Account)

  function Cursor(c: Client, id: string): int { if id in c.cursors then c.cursors[id] else 0 }
  function MinSeen(a: Account, id: string): int { if id in a.mins then a.mins[id] else 1 }
  function Floor(a: Account, id: string): int { if id in a.floors then a.floors[id] else 1 }

  datatype Event =
    | Push(id: string, n: int)
    | Refresh
    | GotLists(list: map<string, Range>, bounds: map<string, Range>)
    | StartRange(id: string)
    | GotPage(page: seq<Message>)
    | RangesDone
    | RoundEnds
    | Fails

  // ---------------------------------------------------------------- the steps

  /** applyPush takes the message. */
  predicate Takes(c: Client, id: string, n: int) {
    id in c.tracked && n == Cursor(c, id) + 1 && n >= c.tracked[id].minSeq
  }

  function ApplyPush(c: Client, id: string, n: int): Client {
    if !Takes(c, id, n) then c
    else
      var r := c.tracked[id];
      c.(cursors := c.cursors[id := n], tracked := c.tracked[id := r.(maxSeq := Max(r.maxSeq, n))],
         dirty := c.dirty || c.phase != Idle)
  }

  /** refresh: join the one in progress, or begin a round. */
  function BeginRefresh(c: Client): Client {
    if c.phase != Idle then c.(dirty := true) else c.(dirty := false, phase := Listing)
  }

  function Visible(list: map<string, Range>, bounds: map<string, Range>): map<string, Range> {
    map id | id in list :: if id in bounds then bounds[id] else list[id]
  }

  function AdoptLists(c: Client, list: map<string, Range>, bounds: map<string, Range>): Client {
    c.(tracked := Visible(list, bounds), phase := Ranging(bounds, bounds.Keys, None))
  }

  function Next1(bounds: map<string, Range>, id: string, local: int): Option<Pulling>
    requires id in bounds
  {
    if local < bounds[id].maxSeq then Some(Pulling(id, local)) else None
  }

  /** syncRange up to its first request: the cursor is clamped into the range and committed. */
  function BeginRange(c: Client, id: string): Client
    requires c.phase.Ranging? && id in c.phase.bounds
  {
    var r := c.phase.bounds[id];
    var local := Start(Bounds(id, r.minSeq, r.maxSeq), Cursor(c, id));
    c.(cursors := c.cursors[id := local],
       phase := Ranging(c.phase.bounds, c.phase.todo - {id}, Next1(c.phase.bounds, id, local)))
  }

  predicate Accepts(c: Client, page: seq<Message>)
    requires c.phase.Ranging? && c.phase.pulling.Some? && c.phase.pulling.value.id in c.phase.bounds
  {
    var p := c.phase.pulling.value;
    page != [] && Continues(page, Bounds(p.id, c.phase.bounds[p.id].minSeq, c.phase.bounds[p.id].maxSeq), p.local)
  }

  function CommitPage(c: Client, page: seq<Message>): Client
    requires c.phase.Ranging? && c.phase.pulling.Some? && c.phase.pulling.value.id in c.phase.bounds
  {
    var p := c.phase.pulling.value;
    if !Accepts(c, page) then c.(phase := Idle)
    else
      var next := p.local + |page|;
      c.(cursors := c.cursors[p.id := next], phase := c.phase.(pulling := Next1(c.phase.bounds, p.id, next)))
  }

  function EndRound(c: Client): Client { if c.dirty then c.(dirty := false, phase := Listing) else c.(phase := Idle) }

  // ---------------------------------------------------------------- the machine

  /** The server never lowers a user's min_seq, and the bounds are read after the list. */
  predicate Current(a: Account, list: map<string, Range>, bounds: map<string, Range>) {
    && (forall id :: id in list ==> MinSeen(a, id) <= list[id].minSeq)
    && (forall id :: id in bounds ==>
         MinSeen(a, id) <= bounds[id].minSeq && (id in list ==> list[id].minSeq <= bounds[id].minSeq))
  }

  predicate Allowed(s: State, e: Event) {
    var c := s.c;
    match e
    case Push(_, _) => true
    case Refresh => true
    case GotLists(list, bounds) => c.phase.Listing? && Current(s.a, list, bounds)
    case StartRange(id) => c.phase.Ranging? && c.phase.pulling.None? && id in c.phase.todo && id in c.phase.bounds
    case GotPage(_) => c.phase.Ranging? && c.phase.pulling.Some? && c.phase.pulling.value.id in c.phase.bounds
    case RangesDone => c.phase.Ranging? && c.phase.pulling.None? && c.phase.todo == {}
    case RoundEnds => c.phase.Finishing?
    case Fails => c.phase != Idle
  }

  function Reported(a: Account, list: map<string, Range>, bounds: map<string, Range>): map<string, int> {
    map id | id in a.mins.Keys + list.Keys + bounds.Keys ::
      if id in bounds then bounds[id].minSeq else if id in list then list[id].minSeq else a.mins[id]
  }

  function Seqs(page: seq<Message>): set<(string, int)> { set i | 0 <= i < |page| :: (page[i].conv, page[i].seqNo) }

  function Next(s: State, e: Event): State
    requires Allowed(s, e)
  {
    var (c, a) := (s.c, s.a);
    match e
    case Push(id, n) =>
      State(ApplyPush(c, id, n), if Takes(c, id, n) then a.(received := a.received + {(id, n)}) else a)
    case Refresh => State(BeginRefresh(c), a)
    case GotLists(list, bounds) => State(AdoptLists(c, list, bounds), a.(mins := Reported(a, list, bounds)))
    case StartRange(id) => State(BeginRange(c, id), a.(floors := a.floors[id := c.phase.bounds[id].minSeq]))
    case GotPage(page) =>
      State(CommitPage(c, page), if Accepts(c, page) then a.(received := a.received + Seqs(page)) else a)
    case RangesDone => State(c.(phase := Finishing(c.phase.bounds)), a)
    case RoundEnds => State(EndRound(c), a)
    case Fails => State(c.(phase := Idle), a)
  }

  ghost function Run(s: State, es: seq<Event>): Option<State>
    decreases |es|
  {
    if es == [] then Some(s) else if Allowed(s, es[0]) then Run(Next(s, es[0]), es[1..]) else None
  }

  // ---------------------------------------------------------------- what every step keeps

  ghost predicate NoGap(c: Client, a: Account) {
    forall id, n :: Floor(a, id) <= n <= Cursor(c, id) ==> (id, n) in a.received
  }

  /** No bound the client works with lies below the point from which it has everything. */
  ghost predicate Floors(c: Client, a: Account) {
    && (forall id :: Floor(a, id) <= MinSeen(a, id))
    && (forall id :: id in c.tracked ==> Floor(a, id) <= c.tracked[id].minSeq)
    && (c.phase.Ranging? || c.phase.Finishing? ==>
          forall id :: id in c.phase.bounds ==> Floor(a, id) <= c.phase.bounds[id].minSeq <= MinSeen(a, id))
    && (c.phase.Ranging? ==> forall id :: id in c.phase.bounds && id in c.tracked ==>
         c.tracked[id].minSeq == c.phase.bounds[id].minSeq)
  }

  ghost predicate PhaseOk(c: Client) {
    c.phase.Ranging? ==>
      && c.phase.todo <= c.phase.bounds.Keys
      && (c.phase.pulling.Some? ==>
            var p := c.phase.pulling.value;
            && p.id in c.phase.bounds && p.id !in c.phase.todo && p.local < c.phase.bounds[p.id].maxSeq
            && c.phase.bounds[p.id].minSeq - 1 <= p.local)
  }

  /** Everything up to the point a pull has reached was received, even if a push moved the cursor meanwhile. */
  ghost predicate PullOk(c: Client, a: Account) {
    c.phase.Ranging? && c.phase.pulling.Some? ==>
      var p := c.phase.pulling.value;
      p.id in a.floors && p.id in c.phase.bounds && a.floors[p.id] == c.phase.bounds[p.id].minSeq
      && forall n :: a.floors[p.id] <= n <= p.local ==> (p.id, n) in a.received
  }

  /** As long as no push asked for another round, finished ranges stand at their max_seq. */
  ghost predicate Settled(c: Client) {
    !c.dirty ==>
      && (c.phase.Finishing? ==> forall id :: id in c.phase.bounds ==> Cursor(c, id) == c.phase.bounds[id].maxSeq)
      && (c.phase.Ranging? ==> forall id :: id in c.phase.bounds && id !in c.phase.todo ==>
            Cursor(c, id) == if c.phase.pulling.Some? && c.phase.pulling.value.id == id then c.phase.pulling.value.local
                             else c.phase.bounds[id].maxSeq)
  }

  ghost predicate Good(s: State) {
    NoGap(s.c, s.a) && Floors(s.c, s.a) && PhaseOk(s.c) && PullOk(s.c, s.a) && Settled(s.c)
  }

  lemma StepNoGap(s: State, e: Event)
    requires Good(s) && Allowed(s, e)
    ensures NoGap(Next(s, e).c, Next(s, e).a)
  {
    if e.GotPage? && Accepts(s.c, e.page) {
      var p := s.c.phase.pulling.value;
      forall n | p.local < n <= p.local + |e.page| ensures (p.id, n) in Seqs(e.page) {
        assert e.page[n - p.local - 1].seqNo == n;
      }
    }
  }

  lemma StepFloors(s: State, e: Event)
    requires Good(s) && Allowed(s, e)
    ensures Floors(Next(s, e).c, Next(s, e).a)
  {
    var s' := Next(s, e);
    forall id ensures Floor(s'.a, id) <= MinSeen(s'.a, id) {
      assert Floor(s.a, id) <= MinSeen(s.a, id);
    }
    if e.GotLists? {
      forall id | id in e.list ensures Floor(s.a, id) <= e.list[id].minSeq {
        assert Floor(s.a, id) <= MinSeen(s.a, id);
      }
      forall id | id in e.bounds ensures Floor(s.a, id) <= e.bounds[id].minSeq {
        assert Floor(s.a, id) <= MinSeen(s.a, id);
      }
    }
  }

  lemma StepPhase(s: State, e: Event)
    requires Good(s) && Allowed(s, e)
    ensures PhaseOk(Next(s, e).c)
  {}

  lemma StepPull(s: State, e: Event)
    requires Good(s) && Allowed(s, e)
    ensures PullOk(Next(s, e).c, Next(s, e).a)
  {
    if e.GotPage? && Accepts(s.c, e.page) {
      var p := s.c.phase.pulling.value;
      forall n | p.local < n <= p.local + |e.page| ensures (p.id, n) in Seqs(e.page) {
        assert e.page[n - p.local - 1].seqNo == n;
      }
    }
  }

  lemma StepSettled(s: State, e: Event)
    requires Good(s) && Allowed(s, e)
    ensures Settled(Next(s, e).c)
  {
    if e.GotPage? && Accepts(s.c, e.page) {
      var p := s.c.phase.pulling.value;
      ContinuesWithin(e.page, Bounds(p.id, s.c.phase.bounds[p.id].minSeq, s.c.phase.bounds[p.id].maxSeq), p.local);
    }
  }

  lemma StepGood(s: State, e: Event)
    requires Good(s) && Allowed(s, e)
    ensures Good(Next(s, e))
  {
    assert NoGap(Next(s, e).c, Next(s, e).a) by { StepNoGap(s, e); }
    assert Floors(Next(s, e).c, Next(s, e).a) by { StepFloors(s, e); }
    assert PhaseOk(Next(s, e).c) by { StepPhase(s, e); }
    assert PullOk(Next(s, e).c, Next(s, e).a) by { StepPull(s, e); }
    assert Settled(Next(s, e).c) by { StepSettled(s, e); }
  }

  lemma {:induction false} RunGood(s: State, es: seq<Event>)
    requires Good(s) && Run(s, es).Some?
    ensures Good(Run(s, es).value)
    decreases |es|
  {
    if es != [] {
      var s' := Next(s, es[0]);
      assert Good(s') by { StepGood(s, es[0]); }
      RunGood(s', es[1..]);
    }
  }

  // ---------------------------------------------------------------- the promises

  /** A client that was just started with cursors an earlier session left behind. */
  ghost predicate Resumed(s: State) {
    && s.c.tracked == map[] && !s.c.dirty && s.c.phase == Idle
    && NoGap(s.c, s.a) && forall id :: Floor(s.a, id) <= MinSeen(s.a, id)
  }

  ghost predicate Reachable(s: State) { exists s0, es :: Resumed(s0) && Run(s0, es) == Some(s) }

  lemma ReachableGood(s: State)
    requires Reachable(s)
    ensures Good(s)
  {
    var s0, es :| Resumed(s0) && Run(s0, es) == Some(s);
    RunGood(s0, es);
  }

  /** Under every interleaving, whatever lies between a tracked min_seq and the cursor has been received. */
  lemma CursorHasNoGap(s: State, id: string, n: int)
    requires Reachable(s) && id in s.c.tracked && s.c.tracked[id].minSeq <= n <= Cursor(s.c, id)
    ensures (id, n) in s.a.received
  {
    ReachableGood(s);
    assert Floor(s.a, id) <= n;
  }

  /** A refresh that ends normally leaves every cursor at the max_seq its final round was given. */
  lemma RefreshEndsAtMax(s: State, id: string)
    requires Reachable(s) && s.c.phase.Finishing? && id in s.c.phase.bounds && Next(s, RoundEnds).c.phase == Idle
    ensures Cursor(Next(s, RoundEnds).c, id) == s.c.phase.bounds[id].maxSeq
  {
    ReachableGood(s);
  }

  /** So a refresh that ends normally has everything the server reported visible, in every conversation. */
  lemma RefreshCatchesUp(s: State, id: string, n: int)
    requires Reachable(s) && s.c.phase.Finishing? && Next(s, RoundEnds).c.phase == Idle
    requires id in s.c.phase.bounds && s.c.phase.bounds[id].minSeq <= n <= s.c.phase.bounds[id].maxSeq
    ensures (id, n) in Next(s, RoundEnds).a.received
  {
    ReachableGood(s);
    assert Floor(s.a, id) <= n <= Cursor(s.c, id);
  }

  // ---------------------------------------------------------------- what moves the client

  /** The page in hand is what the pull in progress asked for. */
  ghost predicate Fitting(c: Client, page: seq<Message>) {
    && c.phase.Ranging? && c.phase.pulling.Some? && c.phase.pulling.value.id in c.phase.bounds && page != []
    && forall i :: 0 <= i < |page| ==>
         && page[i].conv == c.phase.pulling.value.id && page[i].seqNo == c.phase.pulling.value.local + 1 + i
         && page[i].seqNo <= c.phase.bounds[c.phase.pulling.value.id].maxSeq
  }

  /**
   A cursor falls in exactly two ways: its range begins and ends below it, or a page arrives for a pull that a push has
   overtaken. In particular no refresh asks again for what lies at or below a cursor within the range.
   */
  lemma CursorFallsExactly(s: State, e: Event, id: string)
    requires Reachable(s) && Allowed(s, e)
    ensures Cursor(Next(s, e).c, id) < Cursor(s.c, id) <==>
            || (e == StartRange(id) && s.c.phase.bounds[id].maxSeq < Cursor(s.c, id))
            || (e.GotPage? && Fitting(s.c, e.page) && s.c.phase.pulling.value.id == id
                && s.c.phase.pulling.value.local + |e.page| < Cursor(s.c, id))
  {
    ReachableGood(s);
  }

  /** A page that fits is kept and the pull goes on behind it until the range is done; any other ends the refresh. */
  lemma PageIsKept(s: State, page: seq<Message>)
    requires Allowed(s, GotPage(page))
    ensures var s', p := Next(s, GotPage(page)), s.c.phase.pulling.value; var next := p.local + |page|;
            && (Fitting(s.c, page) ==>
                  && s'.c.cursors == s.c.cursors[p.id := next] && s'.c.tracked == s.c.tracked
                  && (forall i :: 0 <= i < |page| ==> (p.id, page[i].seqNo) in s'.a.received)
                  && s'.c.phase.Ranging? && s'.c.phase.bounds == s.c.phase.bounds && s'.c.phase.todo == s.c.phase.todo
                  && s'.c.phase.pulling
                     == (if next < s.c.phase.bounds[p.id].maxSeq then Some(Pulling(p.id, next)) else None))
            && (!Fitting(s.c, page) ==> s' == s.(c := s.c.(phase := Idle)))
  {}

  /** What a range begins with: the cursor kept, raised to the range or cut to its end, and the next seq asked for. */
  lemma RangeBegins(s: State, id: string)
    requires Allowed(s, StartRange(id))
    ensures var s' := Next(s, StartRange(id)); var r := s.c.phase.bounds[id];
            && BeginsAt(Bounds(id, r.minSeq, r.maxSeq), Cursor(s.c, id), Cursor(s'.c, id))
            && s'.c.phase.Ranging? && s'.c.phase.todo == s.c.phase.todo - {id}
            && s'.c.phase.pulling
               == (if Cursor(s'.c, id) < r.maxSeq then Some(Pulling(id, Cursor(s'.c, id))) else None)
            && forall x :: x != id ==> Cursor(s'.c, x) == Cursor(s.c, x)
  {
    StartBegins(Bounds(id, s.c.phase.bounds[id].minSeq, s.c.phase.bounds[id].maxSeq), Cursor(s.c, id));
  }

  /** A push is taken exactly when it is the next seq of a conversation on the list, and then it is all that changes. */
  lemma PushIsNext(s: State, id: string, n: int)
    ensures var s' := Next(s, Push(id, n));
            var next := id in s.c.tracked && n == Cursor(s.c, id) + 1 && s.c.tracked[id].minSeq <= n;
            && (next ==> s'.a.received == s.a.received + {(id, n)} && Cursor(s'.c, id) == n
                         && (s'.c.dirty <==> s.c.dirty || s.c.phase != Idle) && s'.c.phase == s.c.phase)
            && (forall x :: x != id ==> Cursor(s'.c, x) == Cursor(s.c, x)) && (!next ==> s' == s)
  {}

  /** A refresh that begins asks for lists; one in progress is asked to go round again, which its round's end does. */
  lemma RoundsFollow(s: State)
    ensures var s' := Next(s, Refresh);
            if s.c.phase == Idle then s'.c.phase == Listing && !s'.c.dirty else s'.c.phase == s.c.phase && s'.c.dirty
    ensures s.c.phase.Finishing? ==>
              Next(s, RoundEnds).c.phase == (if s.c.dirty then Listing else Idle) && !Next(s, RoundEnds).c.dirty
  {}

  /** Lists replace what is tracked: the conversations listed, each with its fresh bounds where they came. */
  lemma ListsAreTracked(s: State, list: map<string, Range>, bounds: map<string, Range>, id: string)
    requires Allowed(s, GotLists(list, bounds))
    ensures var s' := Next(s, GotLists(list, bounds));
            && s'.c.phase.Ranging? && s'.c.phase.bounds == bounds && s'.c.phase.todo == bounds.Keys
            && s'.c.phase.pulling.None? && s'.c.cursors == s.c.cursors && s'.c.dirty == s.c.dirty
            && (id in s'.c.tracked <==> id in list)
            && (id in list && id in bounds ==> s'.c.tracked[id] == bounds[id])
            && (id in list && id !in bounds ==> s'.c.tracked[id] == list[id])
  {}
}
