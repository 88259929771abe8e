/** What a pull returns: on a gapless log, exactly the seqs asked for and visible, in order, up to the page size. */
module ChatPull {
  import opened ChatModel
  import opened ChatInvariants
  import opened ChatRuns

  /** ms holds the messages first, first + 1, ... of conv. */
  ghost predicate Consecutive(ms: seq<Message>, conv: string, first: int) {
    forall i :: 0 <= i < |ms| ==> ms[i].conv == conv && ms[i].seqNo == first + i
  }

  ghost predicate Rising(ms: seq<Message>) {
    forall i, j :: 0 <= i < j < |ms| ==> ms[i].seqNo < ms[j].seqNo
  }

  lemma {:induction false} RangeIsInside(ms: seq<Message>, conv: string, b: int, e: int, i: nat)
    requires i < |InRange(ms, conv, b, e)|
    ensures var m := InRange(ms, conv, b, e)[i]; m.conv == conv && b <= m.seqNo <= e && m in ms
  {
    if i < |InRange(ms[..|ms|-1], conv, b, e)| {
      RangeIsInside(ms[..|ms|-1], conv, b, e, i);
    }
  }

  lemma {:induction false} RangeRises(ms: seq<Message>, conv: string, b: int, e: int)
    requires Ordered(ms)
    ensures Rising(InRange(ms, conv, b, e))
  {
    if ms != [] {
      var front, last := ms[..|ms|-1], ms[|ms|-1];
      RangeRises(front, conv, b, e);
      var head := InRange(front, conv, b, e);
      forall i | 0 <= i < |head| && last.conv == conv ensures head[i].seqNo < last.seqNo {
        RangeIsInside(front, conv, b, e, i);
        var k :| 0 <= k < |front| && front[k] == head[i];
        assert ms[k] == head[i];
      }
    }
  }

  lemma {:induction false} RangeHas(ms: seq<Message>, conv: string, b: int, e: int, k: nat)
    requires k < |ms| && ms[k].conv == conv && b <= ms[k].seqNo <= e
    ensures ms[k] in InRange(ms, conv, b, e)
  {
    if k < |ms| - 1 { RangeHas(ms[..|ms|-1], conv, b, e, k); }
  }

  lemma InsertLast(s: seq<Message>, m: Message)
    requires s == [] || s[|s|-1].seqNo <= m.seqNo
    ensures InsertBySeq(s, m) == s + [m]
  {}

  lemma {:induction false} SortedStays(s: seq<Message>)
    requires Rising(s)
    ensures SortBySeq(s) == s
  {
    if s != [] {
      var front, last := s[..|s|-1], s[|s|-1];
      SortedStays(front);
      InsertLast(front, last);
      assert front + [last] == s;
    }
  }

  /** Rising seqs inside [b, e] that leave nothing out are b, b + 1, ..., e. */
  lemma {:induction false} FullRange(s: seq<Message>, conv: string, b: int, e: int)
    requires Rising(s) && b <= e + 1
    requires forall i :: 0 <= i < |s| ==> s[i].conv == conv && b <= s[i].seqNo <= e
    requires forall n :: b <= n <= e ==> Stored(s, conv, n)
    ensures |s| == e - b + 1 && Consecutive(s, conv, b)
    decreases e - b + 1
  {
    assert |s| > 0 ==> b <= s[0].seqNo <= e;
    if b <= e {
      assert Stored(s, conv, e);
      var i :| 0 <= i < |s| && s[i].conv == conv && s[i].seqNo == e;
      assert s[|s|-1].seqNo <= e;
      var front := s[..i];
      forall n | b <= n <= e - 1 ensures Stored(front, conv, n) {
        assert Stored(s, conv, n);
        var j :| 0 <= j < |s| && s[j].conv == conv && s[j].seqNo == n;
        assert front[j] == s[j];
      }
      FullRange(front, conv, b, e - 1);
    }
  }

  /** The stored messages b..e of a conversation. */
  lemma SliceIsExact(db: Db, conv: string, b: int, e: int)
    requires LogOk(db) && conv in db.convs && 1 <= b <= e + 1 && e <= db.convs[conv].maxSeq
    ensures var s := InRange(db.messages, conv, b, e); |s| == e - b + 1 && Consecutive(s, conv, b) && SortBySeq(s) == s
  {
    var s := InRange(db.messages, conv, b, e);
    RangeRises(db.messages, conv, b, e);
    SortedStays(s);
    forall i | 0 <= i < |s| ensures s[i].conv == conv && b <= s[i].seqNo <= e {
      RangeIsInside(db.messages, conv, b, e, i);
    }
    forall n | b <= n <= e ensures Stored(s, conv, n) {
      assert Stored(db.messages, conv, n);
      var k :| 0 <= k < |db.messages| && db.messages[k].conv == conv && db.messages[k].seqNo == n;
      RangeHas(db.messages, conv, b, e, k);
    }
    FullRange(s, conv, b, e);
  }

  lemma {:induction false} RangeOfRange(ms: seq<Message>, conv: string, b: int, e: int, b': int)
    requires b <= b'
    ensures InRange(InRange(ms, conv, b, e), conv, b', e) == InRange(ms, conv, b', e)
  {
    if ms != [] {
      var front, last := ms[..|ms|-1], ms[|ms|-1];
      var head := InRange(front, conv, b, e);
      RangeOfRange(front, conv, b, e, b');
      if last.conv == conv && b <= last.seqNo <= e {
        assert (head + [last])[..|head|] == head;
      } else {
        assert head + [] == head;
      }
    }
  }

  lemma {:induction false} RangeOfConsecutive(s: seq<Message>, conv: string, b: int, n: nat, e: int)
    requires Consecutive(s, conv, b) && b + |s| <= e + 1
    ensures InRange(s, conv, b + n, e) == if n <= |s| then s[n..] else []
  {
    if s != [] { RangeOfConsecutive(s[..|s|-1], conv, b, n, e); }
  }

  lemma SliceDrops(db: Db, conv: string, b: int, e: int, n: nat)
    requires LogOk(db) && conv in db.convs && 1 <= b && b + n <= e + 1 && e <= db.convs[conv].maxSeq
    ensures |InRange(db.messages, conv, b, e)| == e - b + 1
    ensures InRange(db.messages, conv, b + n, e) == InRange(db.messages, conv, b, e)[n..]
  {
    var s := InRange(db.messages, conv, b, e);
    assert |s| == e - b + 1 && Consecutive(s, conv, b) by { SliceIsExact(db, conv, b, e); }
    RangeOfRange(db.messages, conv, b, e, b + n);
    RangeOfConsecutive(s, conv, b, n, e);
  }

  function FirstOf(ms: seq<Message>, n: nat): seq<Message> { ms[..Min(|ms|, n)] }

  /** The page ListMessages returns, one row longer than asked to see whether more is left, and its cut. */
  lemma CutPage(s: seq<Message>, n: nat)
    ensures var rows := s[..Min(|s|, n + 1)]; rows[..Min(|rows|, n)] == FirstOf(s, n) && (|rows| > n <==> |s| > n)
  {}

  /** Pull returns the first page of the visible part of [begin, end], and says whether more of it is left. */
  lemma PullIsExact(db: Db, u: string, conv: string, begin: int, end: int, limit: int, pageMax: int)
    requires LogOk(db) && RowsOk(db) && (u, conv) in db.rows && 1 <= begin <= end
    ensures var r := db.rows[(u, conv)];
            var b, e := Max(begin, r.minSeq), Min(end, VisibleMax(r, db.convs[conv].maxSeq));
            Pull(db, u, conv, begin, end, limit, pageMax)
              == if b > e then Pulled([], false)
                 else Pulled(FirstOf(InRange(db.messages, conv, b, e), PageLimit(limit, pageMax)),
                   b + PageLimit(limit, pageMax) <= e)
  {
    var r := db.rows[(u, conv)];
    var b, e := Max(begin, r.minSeq), Min(end, VisibleMax(r, db.convs[conv].maxSeq));
    if b <= e {
      var s := InRange(db.messages, conv, b, e);
      assert |s| == e - b + 1 && SortBySeq(s) == s by { SliceIsExact(db, conv, b, e); }
      CutPage(s, PageLimit(limit, pageMax));
    }
  }

  /** Every message of an answer is stored. */
  lemma PulledIsStored(db: Db, u: string, conv: string, begin: int, end: int, limit: int, pageMax: int, k: nat)
    requires LogOk(db) && RowsOk(db)
    requires var r := Pull(db, u, conv, begin, end, limit, pageMax); r.Pulled? && k < |r.messages|
    ensures var m := Pull(db, u, conv, begin, end, limit, pageMax).messages[k]; Stored(db.messages, m.conv, m.seqNo)
  {
    PullIsExact(db, u, conv, begin, end, limit, pageMax);
    var row := db.rows[(u, conv)];
    var b, e := Max(begin, row.minSeq), Min(end, VisibleMax(row, db.convs[conv].maxSeq));
    RangeIsInside(db.messages, conv, b, e, k);
    var m := InRange(db.messages, conv, b, e)[k];
    var i :| 0 <= i < |db.messages| && db.messages[i] == m;
  }

  // ---------------------------------------------------------------- between reading the bounds and pulling

  /** Nothing happened to k's bounds from db to db', and the log only grew. */
  ghost predicate SendsOnly(db: Db, db': Db, k: (string, string)) {
    && k in db.rows && k in db'.rows && k.1 in db.convs && k.1 in db'.convs
    && db'.rows[k].minSeq == db.rows[k].minSeq && db'.rows[k].maxSeq == db.rows[k].maxSeq
    && db.convs[k.1].maxSeq <= db'.convs[k.1].maxSeq && db.messages <= db'.messages
  }

  lemma {:induction false} RangeSplits(a: seq<Message>, m: seq<Message>, conv: string, b: int, e: int)
    ensures InRange(a + m, conv, b, e) == InRange(a, conv, b, e) + InRange(m, conv, b, e)
  {
    if m == [] {
      assert a + m == a;
    } else {
      assert (a + m)[..|a + m|-1] == a + m[..|m|-1];
      RangeSplits(a, m[..|m|-1], conv, b, e);
    }
  }

  /** What was stored up to e stays what it was. */
  lemma SliceIsStable(db: Db, db': Db, k: (string, string), b: int, e: int)
    requires LogOk(db) && LogOk(db') && SendsOnly(db, db', k) && 1 <= b <= e + 1 && e <= db.convs[k.1].maxSeq
    ensures InRange(db'.messages, k.1, b, e) == InRange(db.messages, k.1, b, e)
  {
    var was, all := InRange(db.messages, k.1, b, e), InRange(db'.messages, k.1, b, e);
    var more := db'.messages[|db.messages|..];
    assert |was| == e - b + 1 by { SliceIsExact(db, k.1, b, e); }
    assert |all| == e - b + 1 by { SliceIsExact(db', k.1, b, e); }
    assert all == was + InRange(more, k.1, b, e) by {
      assert db'.messages == db.messages + more;
      RangeSplits(db.messages, more, k.1, b, e);
    }
  }

  lemma SendIsSendsOnly(db: Db, inp: SendInput, serverId: string, now: Time, k: (string, string))
    requires LogOk(db) && k in db.rows && k.1 in db.convs
    ensures SendsOnly(db, SendTx(db, inp, serverId, now).0, k)
  {
    var (db', r) := SendTx(db, inp, serverId, now);
    if r.Committed? {
      var d := Appended(db, inp, r.m, now);
      assert db' == Touch(d, inp, r.m.seqNo, r.m.sendTime);
      TouchKeepsLog(d, inp, r.m.seqNo, r.m.sendTime);
    }
  }

  /** Steps that leave membership alone. */
  predicate Quiet(e: Event) { !e.Create? && !e.Join? && !e.Remove? }

  lemma QuietStep(s: Sys, e: Event, k: (string, string))
    requires SysOk(s) && Allowed(s, e) && Quiet(e) && k in s.db.rows
    ensures SendsOnly(s.db, Next(s, e).db, k)
  {
    if e.SendCommit? {
      var p := s.attempts[e.a];
      SendIsSendsOnly(s.db, p.inp, p.serverId, p.now, k);
    }
  }

  /** While only sends and reads happen, k's bounds stay and the log grows. */
  lemma {:induction false} QuietRun(s: Sys, es: seq<Event>, k: (string, string))
    requires SysOk(s) && Run(s, es).Some? && k in s.db.rows && forall i :: 0 <= i < |es| ==> Quiet(es[i])
    ensures SendsOnly(s.db, Run(s, es).value.db, k)
    decreases |es|
  {
    if es != [] {
      var s' := Next(s, es[0]);
      assert SysOk(s') by { StepOk(s, es[0]); }
      assert SendsOnly(s.db, s'.db, k) by { QuietStep(s, es[0], k); }
      QuietRun(s', es[1..], k);
    }
  }

  /** Some run passes through db and, with only sends and reads from there on, ends in db'. */
  ghost predicate Follows(db: Db, db': Db) {
    exists s, es :: Reachable(s) && s.db == db && AllQuiet(es) && Run(s, es).Some? && Run(s, es).value.db == db'
  }

  predicate AllQuiet(es: seq<Event>) { forall i :: 0 <= i < |es| ==> Quiet(es[i]) }

  lemma FollowsKeeps(db: Db, db': Db, k: (string, string))
    requires Follows(db, db') && k in db.rows
    ensures LogOk(db) && RowsOk(db) && LogOk(db') && RowsOk(db') && SendsOnly(db, db', k)
  {
    var s, es :| Reachable(s) && s.db == db && AllQuiet(es) && Run(s, es).Some? && Run(s, es).value.db == db';
    assert SysOk(s) by { ReachableOk(s); }
    assert LogOk(db') && RowsOk(db') by { RunOk(s, es); }
    QuietRun(s, es, k);
  }
}
