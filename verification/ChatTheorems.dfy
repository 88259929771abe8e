/** The promises of the chat services, for every run. */
module ChatTheorems {
  import opened Common
  import opened ConvIds
  import opened ChatModel
  import opened ChatInvariants
  import opened ChatRuns

  // ---------------------------------------------------------------- gapless log

  lemma LogIsGapless(db: Db, c: string, n: int)
    requires LogOk(db)
    ensures Stored(db.messages, c, n) <==> 1 <= n <= MaxSeqOf(db, c)
  {
    if Stored(db.messages, c, n) {
      var i :| 0 <= i < |db.messages| && db.messages[i].conv == c && db.messages[i].seqNo == n;
      assert db.messages[i].conv in db.convs;
    }
  }

  /** The stored seqs of a conversation are exactly 1..max_seq. */
  lemma GaplessLog(s: Sys, c: string, n: int)
    requires Reachable(s)
    ensures Stored(s.db.messages, c, n) <==> 1 <= n <= MaxSeqOf(s.db, c)
  {
    assert LogOk(s.db) by { ReachableOk(s); }
    LogIsGapless(s.db, c, n);
  }

  /** One row per seq, and send_time does not decrease with seq whatever the clocks of the sending nodes do. */
  lemma SendTimesFollowSeq(s: Sys, i: nat, j: nat)
    requires Reachable(s) && i < |s.db.messages| && j < |s.db.messages|
    requires var ms := s.db.messages; ms[i].conv == ms[j].conv && ms[i].seqNo <= ms[j].seqNo
    ensures var ms := s.db.messages; ms[i].sendTime <= ms[j].sendTime && (ms[i].seqNo == ms[j].seqNo ==> i == j)
  {
    assert Ordered(s.db.messages) by { ReachableOk(s); }
    InOrder(s.db.messages, i, j);
  }

  lemma InOrder(ms: seq<Message>, i: nat, j: nat)
    requires Ordered(ms) && i < |ms| && j < |ms| && ms[i].conv == ms[j].conv && ms[i].seqNo <= ms[j].seqNo
    ensures ms[i].sendTime <= ms[j].sendTime && (ms[i].seqNo == ms[j].seqNo ==> i == j)
  {}

  // ---------------------------------------------------------------- idempotent send

  lemma OneMessagePerClientKey(s: Sys, i: nat, j: nat)
    requires Reachable(s) && i < |s.db.messages| && j < |s.db.messages|
    requires var ms := s.db.messages; SameKey(ms[i], ms[j].conv, ms[j].sender, ms[j].clientId)
    ensures i == j
  {
    assert Ordered(s.db.messages) by { ReachableOk(s); }
  }

  predicate SameRequest(a: SendInput, b: SendInput) {
    Destination(a) == Destination(b) && a.sender == b.sender && a.clientId == b.clientId
  }

  lemma {:induction false} AckedForGood(s: Sys, es: seq<Event>, a: nat)
    requires Run(s, es).Some? && a in s.attempts && s.attempts[a].Acked?
    ensures var s' := Run(s, es).value; a in s'.attempts && s'.attempts[a] == s.attempts[a]
    decreases |es|
  {
    if es != [] { AckedForGood(Next(s, es[0]), es[1..], a); }
  }

  /** Acks of one request are the ack of one stored message. */
  lemma SameAckNow(s: Sys, a: nat, b: nat)
    requires Ordered(s.db.messages) && AttemptsOk(s)
    requires a in s.attempts && s.attempts[a].Acked? && b in s.attempts && s.attempts[b].Acked?
    requires SameRequest(s.attempts[a].inp, s.attempts[b].inp)
    ensures s.attempts[a].ack == s.attempts[b].ack
  {
    var x, y := s.attempts[a], s.attempts[b];
    assert AttemptOk(s, x) && AttemptOk(s, y);
    var p :| 0 <= p < |s.db.messages| && SameKey(s.db.messages[p], Destination(x.inp), x.inp.sender, x.inp.clientId)
             && AckOf(s.db.messages[p]) == x.ack;
    var q :| 0 <= q < |s.db.messages| && SameKey(s.db.messages[q], Destination(y.inp), y.inp.sender, y.inp.clientId)
             && AckOf(s.db.messages[q]) == y.ack;
    assert p == q;
  }

  /** Attempts of one request acknowledged at any two moments of a run got the same ack. */
  lemma SameAckForTheWholeRun(s: Sys, a: nat, s': Sys, b: nat)
    requires Reachable(s) && Leads(s, s')
    requires a in s.attempts && s.attempts[a].Acked? && b in s'.attempts && s'.attempts[b].Acked?
    requires SameRequest(s.attempts[a].inp, s'.attempts[b].inp)
    ensures s.attempts[a].ack == s'.attempts[b].ack
  {
    var es :| Run(s, es) == Some(s');
    AckedForGood(s, es, a);
    assert Ordered(s'.db.messages) && AttemptsOk(s') by { LeadsOk(s, s'); }
    SameAckNow(s', a, b);
  }

  /** With fresh server ids no attempt ever ends in ErrSeqAllocFailed. */
  lemma SeqAllocNeverFails(s: Sys, a: nat)
    requires Reachable(s) && a in s.attempts
    ensures s.attempts[a] != Failed(s.attempts[a].inp, SeqAllocFailed)
  {
    assert AttemptOk(s, s.attempts[a]) by { ReachableOk(s); }
  }

  /** A transaction that repeats a stored client key changes nothing: no row, no seq. */
  lemma RetryConsumesNoSeq(db: Db, inp: SendInput, serverId: string, now: Time)
    requires FindByClient(db.messages, Destination(inp), inp.sender, inp.clientId).Some?
    ensures SendTx(db, inp, serverId, now).0 == db && !SendTx(db, inp, serverId, now).1.Committed?
  {
    FoundIsStored(db.messages, Destination(inp), inp.sender, inp.clientId);
    var c := Locked(db, Destination(inp), GroupIdOf(inp), now);
    var m := NewMessage(inp, serverId, c.maxSeq + 1, Max(c.updatedAt, now));
    var hit := FindByClient(db.messages, Destination(inp), inp.sender, inp.clientId).value;
    var i :| 0 <= i < |db.messages| && db.messages[i] == hit;
    assert Collides(db.messages[i], m);
  }

  // ---------------------------------------------------------------- visibility is membership

  /** A stored group seq is covered by a user's row exactly when it was committed in their latest period. */
  lemma VisibilityIsMembership(s: Sys, g: string, u: string, n: int)
    requires Reachable(s) && Stored(s.db.messages, Group(g), n)
    ensures InLatestPeriod(s.log, g, u, n) <==> (u, Group(g)) in s.db.rows && Covers(s.db.rows[(u, Group(g))], n)
  {
    assert LogOk(s.db) && RowsOk(s.db) by { ReachableOk(s); }
    LogIsGapless(s.db, Group(g), n);
    assert InLatestPeriod(s.log, g, u, n) <==> Reaches(s.db, g, u, n) by { ReachableOk(s); }
    if (u, Group(g)) in s.db.rows { assert RowOk(s.db.rows[(u, Group(g))], s.db.convs[Group(g)].maxSeq); }
  }

  /** An unbounded row exists exactly for current members. */
  lemma UnboundedRowIsMember(s: Sys, g: string, u: string)
    requires Reachable(s)
    ensures MemberAfter(s.log, g, u) <==> (u, Group(g)) in s.db.rows && s.db.rows[(u, Group(g))].maxSeq == 0
    ensures MemberAfter(s.log, g, u) <==> (g, u) in s.db.members
  {
    assert GroupsOk(s.db) && HistoryOk(s.db, s.log) by { ReachableOk(s); }
  }

  lemma {:induction false} VisibleOwnersAreCovered(db: Db, conv: string, ids: seq<string>, n: int, v: string)
    ensures v in VisibleOwners(db, conv, ids, n) <==> v in ids && (v, conv) in db.rows && Covers(db.rows[(v, conv)], n)
  {
    if ids != [] {
      VisibleOwnersAreCovered(db, conv, ids[1..], n, v);
    }
  }

  /** Whatever roster the candidates came from, a push target was a member when the message was committed. */
  lemma PushTargetsWereMembers(s: Sys, g: string, ids: seq<string>, n: int, v: string)
    requires Reachable(s) && Stored(s.db.messages, Group(g), n) && v in VisibleOwners(s.db, Group(g), ids, n)
    ensures exists p :: InPeriodAt(s.log, p, g, v, n)
    ensures v in ids
  {
    VisibleOwnersAreCovered(s.db, Group(g), ids, n, v);
    VisibilityIsMembership(s, g, v, n);
  }

  // ---------------------------------------------------------------- read cursors

  lemma ReadCursorBounds(s: Sys, k: (string, string))
    requires Reachable(s) && k in s.db.rows
    ensures k.1 in s.db.convs && var r := s.db.rows[k];
            r.minSeq - 1 <= r.readSeq <= VisibleMax(r, s.db.convs[k.1].maxSeq)
  {
    assert RowsOk(s.db) by { ReachableOk(s); }
    assert RowOk(s.db.rows[k], s.db.convs[k.1].maxSeq);
  }

  /** The cursor never moves back, through leaving, rejoining and late MarkRead advances. */
  lemma ReadCursorMonotone(s: Sys, s': Sys, k: (string, string))
    requires Reachable(s) && Leads(s, s')
    ensures ReadOf(s.db, k) <= ReadOf(s'.db, k) && MinOf(s.db, k) <= MinOf(s'.db, k)
  {
    assert RowMoves(s.db, s'.db, k) by { LeadsProgress(s, s'); }
  }

  /** The stored messages a user may see and has not read. */
  ghost function UnreadSet(db: Db, k: (string, string)): set<int>
    requires k in db.rows
  {
    set n | 1 <= n <= MaxSeqOf(db, k.1) && Stored(db.messages, k.1, n) && Covers(db.rows[k], n)
      && n > db.rows[k].readSeq
  }

  /** The integers in (a, b]. */
  ghost function Between(a: int, b: int): set<int>
    decreases b - a
  {
    if a >= b then {} else Between(a, b - 1) + {b}
  }

  lemma {:induction false} BetweenIs(a: int, b: int)
    ensures forall n :: n in Between(a, b) <==> a < n <= b
    ensures |Between(a, b)| == Max(b - a, 0)
    decreases b - a
  {
    if a < b { BetweenIs(a, b - 1); }
  }

  /** The unread count is the number of stored visible messages past the cursor. */
  lemma UnreadIsExact(s: Sys, k: (string, string))
    requires Reachable(s) && k in s.db.rows
    ensures |UnreadSet(s.db, k)| == Unread(s.db.rows[k], MaxSeqOf(s.db, k.1))
  {
    assert LogOk(s.db) && RowsOk(s.db) by { ReachableOk(s); }
    UnreadIs(s.db, k);
  }

  lemma UnreadIs(db: Db, k: (string, string))
    requires LogOk(db) && RowsOk(db) && k in db.rows
    ensures |UnreadSet(db, k)| == Unread(db.rows[k], MaxSeqOf(db, k.1))
  {
    var r := db.rows[k];
    assert RowOk(r, db.convs[k.1].maxSeq);
    var top := VisibleMax(r, db.convs[k.1].maxSeq);
    forall n ensures n in UnreadSet(db, k) <==> r.readSeq < n <= top { LogIsGapless(db, k.1, n); }
    BetweenIs(r.readSeq, top);
    assert UnreadSet(db, k) == Between(r.readSeq, top);
  }
}
