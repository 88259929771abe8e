/**
 web/src/client/sync.ts: merging message lists and pulling one conversation's range page by page. The server is an
 arbitrary function from (request number, begin_seq) to an answer, so nothing is assumed of it unless a lemma says so.
 */
module WebSync {
  import opened Common
  import opened ChatModel
  import opened ChatInvariants
  import opened ChatPull

  datatype Bounds = Bounds(conv: string, minSeq: int, maxSeq: int)

  /** One call of the commit callback. */
  datatype Handover = Handover(messages: seq<Message>, cursor: int)

  datatype Outcome = Synced | RangeChanged | NotContiguous | RequestFailed

  /** None is a request that failed or was aborted. */
  type Server = (nat, int) -> Option<seq<Message>>

  const PULL_LIMIT := 100

  // ---------------------------------------------------------------- syncRange

  function Start(b: Bounds, cursor: int): int { Min(Max(cursor, b.minSeq - 1), b.maxSeq) }

  /**
   Where a sync begins: at the cursor when that lies in the range or just before it, so that nothing up to it is asked
   for again; just before a range the cursor has not reached; at the end of one the cursor is past, or an empty one.
   */
  predicate BeginsAt(b: Bounds, cursor: int, from: int) {
    && (b.minSeq - 1 <= cursor <= b.maxSeq ==> from == cursor)
    && (cursor < b.minSeq - 1 <= b.maxSeq ==> from == b.minSeq - 1)
    && (b.maxSeq < cursor || b.maxSeq < b.minSeq - 1 ==> from == b.maxSeq)
  }

  lemma StartBegins(b: Bounds, cursor: int)
    ensures BeginsAt(b, cursor, Start(b, cursor)) && (cursor <= b.maxSeq ==> cursor <= Start(b, cursor))
  {}

  predicate Continues(ms: seq<Message>, b: Bounds, local: int) {
    forall i :: 0 <= i < |ms| ==> ms[i].conv == b.conv && ms[i].seqNo == local + 1 + i && ms[i].seqNo <= b.maxSeq
  }

  lemma ContinuesWithin(ms: seq<Message>, b: Bounds, local: int)
    requires Continues(ms, b, local) && local <= b.maxSeq
    ensures local + |ms| <= b.maxSeq
  {
    if ms != [] { assert ms[|ms|-1].seqNo == local + |ms|; }
  }

  function SyncFrom(b: Bounds, local: int, k: nat, server: Server): (seq<Handover>, Outcome)
    decreases b.maxSeq - local
  {
    if local >= b.maxSeq then ([], Synced)
    else
      var page := server(k, local + 1);
      if page.None? then ([], RequestFailed)
      else if page.value == [] then ([], RangeChanged)
      else if !Continues(page.value, b, local) then ([], NotContiguous)
      else
        var (rest, o) := SyncFrom(b, local + |page.value|, k + 1, server);
        ([Handover(page.value, local + |page.value|)] + rest, o)
  }

  function SyncRange(b: Bounds, cursor: int, server: Server): (seq<Handover>, Outcome) {
    var local := Start(b, cursor);
    var (rest, o) := SyncFrom(b, local, 0, server);
    ([Handover([], local)] + rest, o)
  }

  /** The page check: every message continues the previous one and stays inside the range. */
  method CheckPage(ms: seq<Message>, b: Bounds, local: int) returns (next: Option<int>)
    ensures next == if Continues(ms, b, local) then Some(local + |ms|) else None
  {
    var n := local;
    for i := 0 to |ms|
      invariant n == local + i && Continues(ms[..i], b, local)
    {
      if ms[i].conv != b.conv || ms[i].seqNo != n + 1 || ms[i].seqNo > b.maxSeq { return None; }
      n := ms[i].seqNo;
    }
    assert ms[..|ms|] == ms;
    next := Some(n);
  }

  /** syncRange; commits lists the callback's calls in order. */
  method Synchronize(b: Bounds, cursor: int, server: Server) returns (commits: seq<Handover>, o: Outcome)
    ensures (commits, o) == SyncRange(b, cursor, server)
    ensures commits != [] && commits[0].messages == [] && BeginsAt(b, cursor, commits[0].cursor)
  {
    StartBegins(b, cursor);
    var local := Min(Max(cursor, b.minSeq - 1), b.maxSeq);
    commits := [Handover([], local)];
    var k := 0;
    while local < b.maxSeq
      invariant local <= b.maxSeq && commits != [] && commits[0] == Handover([], Start(b, cursor))
      invariant var (rest, end) := SyncFrom(b, local, k, server); SyncRange(b, cursor, server) == (commits + rest, end)
      decreases b.maxSeq - local
    {
      assert commits + [] == commits;
      var page := server(k, local + 1);
      if page.None? { return commits, RequestFailed; }
      if page.value == [] { return commits, RangeChanged; }
      var next := CheckPage(page.value, b, local);
      if next.None? { return commits, NotContiguous; }
      ContinuesWithin(page.value, b, local);
      ghost var rest := SyncFrom(b, next.value, k + 1, server).0;
      assert commits + ([Handover(page.value, next.value)] + rest)
        == commits + [Handover(page.value, next.value)] + rest;
      commits := commits + [Handover(page.value, next.value)];
      local := next.value;
      k := k + 1;
    }
    assert commits + [] == commits;
    o := Synced;
  }

  /** Everything handed over, in order. */
  function Received(cs: seq<Handover>): seq<Message> {
    if cs == [] then [] else cs[0].messages + Received(cs[1..])
  }

  /** Each commit moves the cursor by exactly what it hands over. */
  ghost predicate Steady(cs: seq<Handover>, b: Bounds, from: int) {
    if cs == [] then true
    else
      && Continues(cs[0].messages, b, from) && cs[0].cursor == from + |cs[0].messages|
      && Steady(cs[1..], b, cs[0].cursor)
  }

  lemma {:induction false} SyncFromIsSteady(b: Bounds, local: int, k: nat, server: Server)
    requires local <= b.maxSeq
    ensures var (cs, o) := SyncFrom(b, local, k, server);
            && Steady(cs, b, local) && Consecutive(Received(cs), b.conv, local + 1)
               && local + |Received(cs)| <= b.maxSeq
            && (o == Synced <==> local + |Received(cs)| == b.maxSeq)
    decreases b.maxSeq - local
  {
    var page := server(k, local + 1);
    if local < b.maxSeq && page.Some? && page.value != [] && Continues(page.value, b, local) {
      ContinuesWithin(page.value, b, local);
      SyncFromIsSteady(b, local + |page.value|, k + 1, server);
      var (rest, o) := SyncFrom(b, local + |page.value|, k + 1, server);
      var cs := [Handover(page.value, local + |page.value|)] + rest;
      assert cs[1..] == rest;
    }
  }

  /**
   Why a sync stopped short: the request after its last commit failed, brought nothing, or did not continue the range.
   */
  lemma {:induction false} SyncEndsBecause(b: Bounds, local: int, k: nat, server: Server)
    requires local <= b.maxSeq
    ensures var (cs, o) := SyncFrom(b, local, k, server); var end := local + |Received(cs)|;
            var page := server(k + |cs|, end + 1);
            && (o == Synced <==> end == b.maxSeq)
            && (o == RequestFailed <==> end < b.maxSeq && page.None?)
            && (o == RangeChanged <==> end < b.maxSeq && page == Some([]))
            && (o == NotContiguous <==>
                  && end < b.maxSeq && page.Some? && page != Some([])
                  && !Continues(page.value, b, end))
    decreases b.maxSeq - local
  {
    SyncFromIsSteady(b, local, k, server);
    var page := server(k, local + 1);
    if local < b.maxSeq && page.Some? && page.value != [] && Continues(page.value, b, local) {
      ContinuesWithin(page.value, b, local);
      SyncEndsBecause(b, local + |page.value|, k + 1, server);
      var (rest, o) := SyncFrom(b, local + |page.value|, k + 1, server);
      var cs := [Handover(page.value, local + |page.value|)] + rest;
      assert cs[1..] == rest;
    }
  }

  /**
   Whatever the server answers: every commit continues the one before without a gap, nothing beyond max_seq is
   handed over, and the sync ends normally exactly when the cursor has reached max_seq.
   */
  lemma AnyServer(b: Bounds, cursor: int, server: Server)
    ensures var (cs, o) := SyncRange(b, cursor, server);
            && cs != [] && cs[0].messages == [] && BeginsAt(b, cursor, cs[0].cursor)
            && var from := cs[0].cursor;
            && Steady(cs, b, from) && Consecutive(Received(cs), b.conv, from + 1) && from + |Received(cs)| <= b.maxSeq
            && (o == Synced <==> from + |Received(cs)| == b.maxSeq)
  {
    StartBegins(b, cursor);
    SyncFromIsSteady(b, Start(b, cursor), 0, server);
    var (rest, o) := SyncFrom(b, Start(b, cursor), 0, server);
    assert ([Handover([], Start(b, cursor))] + rest)[1..] == rest;
    assert [] + Received(rest) == Received(rest);
  }

  // ---------------------------------------------------------------- against the message service

  /** The bounds MaxSeqs reports for k. */
  function BoundsOf(db: Db, k: (string, string)): Bounds
    requires k in db.rows && k.1 in db.convs
  {
    Bounds(k.1, db.rows[k].minSeq, VisibleMax(db.rows[k], db.convs[k.1].maxSeq))
  }

  /** The k-th request is answered by Pull on the database dbs(k). */
  function PullServer(dbs: nat -> Db, k: (string, string), end: int, pageMax: int): Server {
    (i: nat, begin: int) =>
      var r := Pull(dbs(i), k.0, k.1, begin, end, PULL_LIMIT, pageMax);
      if r.Pulled? then Some(r.messages) else None
  }

  ghost predicate Serves(db: Db, dbs: nat -> Db, k: (string, string)) {
    forall i :: LogOk(dbs(i)) && RowsOk(dbs(i)) && SendsOnly(db, dbs(i), k)
  }

  /** Request i, for the messages from p on, is answered by the first n of them. */
  ghost predicate AnswersAt(server: Server, all: seq<Message>, first: int, n: nat, i: nat, p: int) {
    first <= p < first + |all| ==> server(i, p) == Some(FirstOf(all[p - first..], n))
  }

  ghost predicate Answers(server: Server, all: seq<Message>, first: int, n: nat) {
    forall i: nat, p: int :: AnswersAt(server, all, first, n, i, p)
  }

  lemma PageIsNext(db: Db, dbs: nat -> Db, i: nat, k: (string, string), first: int, p: int, pageMax: int)
    requires LogOk(db) && RowsOk(db) && k in db.rows && Serves(db, dbs, k)
    requires var b := BoundsOf(db, k); b.minSeq <= first <= p <= b.maxSeq
    ensures var b := BoundsOf(db, k); var all := InRange(db.messages, k.1, first, b.maxSeq);
            && |all| == b.maxSeq - first + 1
            && PullServer(dbs, k, b.maxSeq, pageMax)(i, p)
               == Some(FirstOf(all[p - first..], PageLimit(PULL_LIMIT, pageMax)))
  {
    var b := BoundsOf(db, k);
    assert RowOk(db.rows[k], db.convs[k.1].maxSeq);
    SliceDrops(db, k.1, first, b.maxSeq, p - first);
    PageOf(db, dbs(i), k, p, pageMax);
  }

  lemma PageOf(db: Db, db': Db, k: (string, string), p: int, pageMax: int)
    requires LogOk(db) && RowsOk(db) && LogOk(db') && RowsOk(db') && SendsOnly(db, db', k)
    requires var b := BoundsOf(db, k); b.minSeq <= p <= b.maxSeq
    ensures var b := BoundsOf(db, k); var r := Pull(db', k.0, k.1, p, b.maxSeq, PULL_LIMIT, pageMax);
            r.Pulled? && r.messages == FirstOf(InRange(db.messages, k.1, p, b.maxSeq), PageLimit(PULL_LIMIT, pageMax))
  {
    var b := BoundsOf(db, k);
    assert RowOk(db.rows[k], db.convs[k.1].maxSeq);
    PullIsExact(db', k.0, k.1, p, b.maxSeq, PULL_LIMIT, pageMax);
    SliceIsStable(db, db', k, p, b.maxSeq);
  }

  lemma AnswersTail(server: Server, all: seq<Message>, first: int, n: nat, m: nat)
    requires Answers(server, all, first, n) && m <= |all|
    ensures Answers(server, all[m..], first + m, n)
  {
    var tail, next := all[m..], first + m;
    forall i: nat, p: int ensures AnswersAt(server, tail, next, n, i, p) {
      assert AnswersAt(server, all, first, n, i, p);
      if next <= p < next + |tail| { assert tail[p - next..] == all[p - first..]; }
    }
  }

  lemma {:induction false} AnsweredSync(b: Bounds, left: seq<Message>, n: nat, local: int, i: nat, server: Server)
    requires Consecutive(left, b.conv, local + 1) && local + |left| == b.maxSeq && n > 0
             && Answers(server, left, local + 1, n)
    ensures var (cs, o) := SyncFrom(b, local, i, server); o == Synced && Received(cs) == left
    decreases |left|
  {
    if left != [] {
      var page := FirstOf(left, n);
      var rest := left[|page|..];
      FirstOfSplits(left, n);
      assert server(i, local + 1) == Some(page) by {
        assert left[0..] == left && AnswersAt(server, left, local + 1, n, i, local + 1);
      }
      PageStep(b, local, i, server, page);
      assert Answers(server, rest, local + |page| + 1, n) by { AnswersTail(server, left, local + 1, n, |page|); }
      AnsweredSync(b, rest, n, local + |page|, i + 1, server);
    }
  }

  lemma FirstOfSplits(left: seq<Message>, n: nat)
    requires left != [] && n > 0
    ensures FirstOf(left, n) != [] && |FirstOf(left, n)| <= |left|
            && FirstOf(left, n) + left[|FirstOf(left, n)|..] == left
  {}

  /** One turn of the loop that goes through. */
  lemma PageStep(b: Bounds, local: int, i: nat, server: Server, page: seq<Message>)
    requires local < b.maxSeq && server(i, local + 1) == Some(page) && page != [] && Continues(page, b, local)
    ensures var (cs, o) := SyncFrom(b, local, i, server); var (rest, o') := SyncFrom(b, local + |page|, i + 1, server);
            o == o' && Received(cs) == page + Received(rest)
  {}

  /**
   When only sends happen after the bounds were read, the sync never fails its continuity check and hands over the
   stored messages after the point it begins at up to max_seq, once each and in order, for every page size the server
   may use.
   */
  lemma HonestServer(db: Db, dbs: nat -> Db, k: (string, string), cursor: int, pageMax: int)
    requires LogOk(db) && RowsOk(db) && k in db.rows && Serves(db, dbs, k)
    ensures var b := BoundsOf(db, k); var (cs, o) := SyncRange(b, cursor, PullServer(dbs, k, b.maxSeq, pageMax));
            && o == Synced && cs != [] && cs[0].messages == [] && BeginsAt(b, cursor, cs[0].cursor)
            && var from := cs[0].cursor;
            && Received(cs) == InRange(db.messages, k.1, from + 1, b.maxSeq)
            && Consecutive(Received(cs), k.1, from + 1) && from + |Received(cs)| == b.maxSeq
  {
    var b := BoundsOf(db, k);
    StartBegins(b, cursor);
    var local, first := Start(b, cursor), Start(b, cursor) + 1;
    var server, n := PullServer(dbs, k, b.maxSeq, pageMax), PageLimit(PULL_LIMIT, pageMax);
    var all := InRange(db.messages, k.1, first, b.maxSeq);
    assert RowOk(db.rows[k], db.convs[k.1].maxSeq);
    assert |all| == b.maxSeq - local && Consecutive(all, k.1, first) by { SliceIsExact(db, k.1, first, b.maxSeq); }
    assert Answers(server, all, first, n) by {
      forall i: nat, p: int ensures AnswersAt(server, all, first, n, i, p) {
        if first <= p < first + |all| { PageIsNext(db, dbs, i, k, first, p, pageMax); }
      }
    }
    Whole(b, all, cursor, n, server);
  }

  lemma Whole(b: Bounds, all: seq<Message>, cursor: int, n: nat, server: Server)
    requires Consecutive(all, b.conv, Start(b, cursor) + 1) && Start(b, cursor) + |all| == b.maxSeq
    requires n > 0 && Answers(server, all, Start(b, cursor) + 1, n)
    ensures SyncRange(b, cursor, server).1 == Synced && Received(SyncRange(b, cursor, server).0) == all
  {
    var local := Start(b, cursor);
    AnsweredSync(b, all, n, local, 0, server);
    var (rest, o) := SyncFrom(b, local, 0, server);
    assert ([Handover([], local)] + rest)[1..] == rest;
    assert [] + Received(rest) == Received(rest);
  }

  /**
   The same for whole runs: from the moment the bounds are read no membership changes, and pulls are answered later.
   */
  lemma EndToEnd(db: Db, dbs: nat -> Db, k: (string, string), cursor: int, pageMax: int)
    requires k in db.rows && forall i :: Follows(db, dbs(i))
    ensures k.1 in db.convs
    ensures var b := BoundsOf(db, k); var (cs, o) := SyncRange(b, cursor, PullServer(dbs, k, b.maxSeq, pageMax));
            && o == Synced && cs != [] && cs[0].messages == [] && BeginsAt(b, cursor, cs[0].cursor)
            && var from := cs[0].cursor;
            && Received(cs) == InRange(db.messages, k.1, from + 1, b.maxSeq)
            && Consecutive(Received(cs), k.1, from + 1) && from + |Received(cs)| == b.maxSeq
  {
    assert LogOk(db) && RowsOk(db) by { assert Follows(db, dbs(0)); FollowsKeeps(db, dbs(0), k); }
    assert Serves(db, dbs, k) by {
      forall i: nat ensures LogOk(dbs(i)) && RowsOk(dbs(i)) && SendsOnly(db, dbs(i), k) {
        assert Follows(db, dbs(i));
        FollowsKeeps(db, dbs(i), k);
      }
    }
    HonestServer(db, dbs, k, cursor, pageMax);
  }

  // ---------------------------------------------------------------- mergeMessages

  /** The last message with this seq. */
  function Latest(ms: seq<Message>, n: int): Option<Message> {
    if ms == [] then None
    else if ms[|ms|-1].seqNo == n then Some(ms[|ms|-1])
    else Latest(ms[..|ms|-1], n)
  }

  /** bySeq is the Map built from ms. */
  ghost predicate Indexes(bySeq: map<int, Message>, ms: seq<Message>) {
    forall n :: Latest(ms, n) == if n in bySeq then Some(bySeq[n]) else None
  }

  method Index(ms: seq<Message>, bySeq0: map<int, Message>, ghost before: seq<Message>)
    returns (bySeq: map<int, Message>)
    requires Indexes(bySeq0, before)
    ensures Indexes(bySeq, before + ms)
  {
    bySeq := bySeq0;
    assert before + ms[..0] == before;
    for i := 0 to |ms|
      invariant Indexes(bySeq, before + ms[..i])
    {
      ghost var all := before + ms[..i + 1];
      assert all[..|all|-1] == before + ms[..i] && all[|all|-1] == ms[i];
      bySeq := bySeq[ms[i].seqNo := ms[i]];
    }
    assert ms[..|ms|] == ms;
  }

  /** Place m among rising seqs it is not one of. */
  method Place(ms: seq<Message>, m: Message) returns (out: seq<Message>)
    requires Rising(ms) && forall i :: 0 <= i < |ms| ==> ms[i].seqNo != m.seqNo
    ensures Rising(out) && forall x :: x in out <==> x in ms || x == m
  {
    var i := |ms|;
    while i > 0 && ms[i - 1].seqNo > m.seqNo
      invariant 0 <= i <= |ms| && forall j :: i <= j < |ms| ==> ms[j].seqNo > m.seqNo
    {
      i := i - 1;
    }
    out := ms[..i] + [m] + ms[i..];
    assert forall x :: x in ms <==> x in ms[..i] || x in ms[i..];
  }

  lemma Inhabited(s: set<int>)
    ensures s == {} || exists n: int :: n in s
  {
    if forall n: int :: n !in s { assert s == {}; }
  }

  /** mergeMessages: one message per seq, an incoming one in preference, sorted by seq. */
  method MergeMessages(existing: seq<Message>, incoming: seq<Message>) returns (out: seq<Message>)
    ensures Rising(out)
    ensures forall m :: m in out <==> Latest(existing + incoming, m.seqNo) == Some(m)
  {
    var bySeq := Index(existing, map[], []);
    assert [] + existing == existing;
    bySeq := Index(incoming, bySeq, existing);
    out := [];
    var rest := bySeq.Keys;
    while rest != {}
      invariant rest <= bySeq.Keys && Rising(out)
      invariant forall m :: m in out <==> m.seqNo in bySeq && m.seqNo !in rest && bySeq[m.seqNo] == m
    {
      Inhabited(rest);
      var n: int :| n in rest;
      rest := rest - {n};
      assert bySeq[n].seqNo == n by { LatestSeq(existing + incoming, n); }
      out := Place(out, bySeq[n]);
    }
  }

  lemma {:induction false} LatestSeq(ms: seq<Message>, n: int)
    ensures Latest(ms, n).Some? ==> Latest(ms, n).value.seqNo == n && Latest(ms, n).value in ms
  {
    if ms != [] && ms[|ms|-1].seqNo != n { LatestSeq(ms[..|ms|-1], n); }
  }
}
