/**
 What each request to the chat services comes to, field by field: the ack, the rows it leaves, and the error it gets.
 */
module ChatAnswers {
  import opened Common
  import opened ConvIds
  import opened ChatModel
  import opened ChatInvariants
  import opened ChatRuns
  import opened ChatEffects
  import opened ChatPull

  // ---------------------------------------------------------------- acks

  /** The stored message an ack of this request is about. */
  predicate Acknowledges(ack: Ack, inp: SendInput, m: Message) {
    && m.sender == inp.sender && m.clientId == inp.clientId
    && m.conv == (if inp.toGroup then Group(inp.groupId) else Single(inp.sender, inp.recv))
    && ack.serverId == m.serverId && ack.conv == m.conv && ack.seqNo == m.seqNo && ack.sendTime == m.sendTime
  }

  /** In every reachable state an acked attempt was given the ids, seq and time of the message stored under its key. */
  lemma AckedIsStored(s: Sys, a: nat)
    requires Reachable(s) && a in s.attempts && s.attempts[a].Acked?
    ensures exists i :: 0 <= i < |s.db.messages|
                        && Acknowledges(s.attempts[a].ack, s.attempts[a].inp, s.db.messages[i])
  {
    var inp, ack := s.attempts[a].inp, s.attempts[a].ack;
    assert AttemptOk(s, s.attempts[a]) by { ReachableOk(s); }
    var i :| 0 <= i < |s.db.messages| && SameKey(s.db.messages[i], Destination(inp), inp.sender, inp.clientId)
             && AckOf(s.db.messages[i]) == ack;
    assert Acknowledges(ack, inp, s.db.messages[i]);
  }

  /** The moment a conversation stands at, or now when there is none yet. */
  function StandsAt(db: Db, conv: string, now: Time): Time {
    if conv in db.convs then db.convs[conv].updatedAt else now
  }

  /** A message is stored under this key. */
  ghost predicate Known(ms: seq<Message>, conv: string, sender: string, clientId: string) {
    exists i :: 0 <= i < |ms| && ms[i].conv == conv && ms[i].sender == sender && ms[i].clientId == clientId
  }

  lemma KnownIsFound(ms: seq<Message>, conv: string, sender: string, clientId: string)
    ensures Known(ms, conv, sender, clientId) <==> FindByClient(ms, conv, sender, clientId).Some?
  {
    FoundIsStored(ms, conv, sender, clientId);
    if i :| 0 <= i < |ms| && ms[i].conv == conv && ms[i].sender == sender && ms[i].clientId == clientId {
      FindFinds(ms, i, conv, sender, clientId);
    }
  }

  /** What the transaction of an attempt that may commit stores and answers. */
  lemma CommitAnswers(s: Sys, a: nat)
    requires Reachable(s) && Allowed(s, SendCommit(a))
    ensures var p, s' := s.attempts[a], Next(s, SendCommit(a));
            var conv := if p.inp.toGroup then Group(p.inp.groupId) else Single(p.inp.sender, p.inp.recv);
            var known := Known(s.db.messages, conv, p.inp.sender, p.inp.clientId);
            && (s'.attempts[a].Acked? <==> Entitled(s.db, p.inp) && !known)
            && (s'.attempts[a].Colliding? <==> Entitled(s.db, p.inp) && known)
            && (!s'.attempts[a].Acked? ==> s'.db == s.db)
            && (s'.attempts[a].Acked? ==>
                  var ack := s'.attempts[a].ack;
                  && ack.serverId == p.serverId && ack.conv == conv && ack.seqNo == MaxSeqOf(s.db, conv) + 1
                  && ack.sendTime == Max(p.now, StandsAt(s.db, conv, p.now))
                  && |s'.db.messages| == |s.db.messages| + 1 && s.db.messages <= s'.db.messages
                  && Acknowledges(ack, p.inp, s'.db.messages[|s.db.messages|])
                  && s'.db.messages[|s.db.messages|].content == p.inp.content)
  {
    var p := s.attempts[a];
    assert LogOk(s.db) && AttemptOk(s, p) by { ReachableOk(s); }
    SendCommits(s.db, p.inp, p.serverId, p.now);
    KnownIsFound(s.db.messages, Destination(p.inp), p.inp.sender, p.inp.clientId);
  }

  /** A request whose message is stored is acknowledged as it comes in; any other goes on to its transaction. */
  lemma BeginAnswers(s: Sys, a: nat, inp: SendInput, serverId: string, now: Time)
    requires Allowed(s, SendBegin(a, inp, serverId, now))
    ensures var s' := Next(s, SendBegin(a, inp, serverId, now));
            var conv := if inp.toGroup then Group(inp.groupId) else Single(inp.sender, inp.recv);
            && s'.db == s.db && s'.attempts.Keys == s.attempts.Keys + {a}
            && (s'.attempts[a].Acked? <==> Known(s.db.messages, conv, inp.sender, inp.clientId))
            && (!s'.attempts[a].Acked? ==> s'.attempts[a] == Pending(inp, serverId, now))
            && (forall b :: b in s.attempts ==> s'.attempts[b] == s.attempts[b])
  {
    KnownIsFound(s.db.messages, Destination(inp), inp.sender, inp.clientId);
  }

  /** The re-read after a collision always finds the message, and acknowledges it. */
  lemma RereadAnswers(s: Sys, a: nat)
    requires Reachable(s) && Allowed(s, SendReread(a))
    ensures var s' := Next(s, SendReread(a));
            && s'.db == s.db && s'.attempts[a].Acked?
            && s'.attempts[a].inp == s.attempts[a].inp
  {
    assert AttemptOk(s, s.attempts[a]) by { ReachableOk(s); }
  }

  /** Which error a send to a group gets from its transaction. */
  lemma GroupSendAnswers(db: Db, inp: SendInput, serverId: string, now: Time)
    requires inp.toGroup
    ensures var (db', r) := SendTx(db, inp, serverId, now); var g := inp.groupId;
            && (r == Rejected(SendFailed) <==> g !in db.groups)
            && (r == Rejected(GroupDismissed) <==> g in db.groups && db.groups[g].dismissed)
            && (r == Rejected(NotGroupMember) <==>
                  g in db.groups && !db.groups[g].dismissed && (g, inp.sender) !in db.members)
            && (r.Rejected? ==> db' == db && r.e in {SendFailed, GroupDismissed, NotGroupMember})
  {}

  // ---------------------------------------------------------------- rows a send leaves

  /**
   A row someone has after a single chat moved on at a time: theirs brought forward, or a new one that shows everything.
   */
  ghost predicate BroughtForward(db: Db, db': Db, k: (string, string), peer: string, read: int, at: Time) {
    && k in db'.rows
    && (k in db.rows ==>
          var r := db.rows[k];
          db'.rows[k] == r.(updatedAt := Max(r.updatedAt, at), readSeq := Max(r.readSeq, read)))
    && (k !in db.rows ==> db'.rows[k] == Row(peer, "", 1, 0, Max(0, read), at))
  }

  lemma TouchSingle(d: Db, inp: SendInput, n: int, at: Time)
    requires !inp.toGroup && inp.sender != inp.recv
    ensures var d', conv := Touch(d, inp, n, at), Single(inp.sender, inp.recv);
            && BroughtForward(d, d', (inp.sender, conv), inp.recv, if inp.senderRead then n else 0, at)
            && BroughtForward(d, d', (inp.recv, conv), inp.sender, 0, at)
            && (forall k :: k in d.rows && k != (inp.sender, conv) && k != (inp.recv, conv) ==>
                  k in d'.rows && d'.rows[k] == d.rows[k])
            && d'.rows.Keys == d.rows.Keys + {(inp.sender, conv), (inp.recv, conv)}
  {}

  /**
   A message in a single chat brings both parties' rows forward, names each to the other, and leaves every other row.
   */
  lemma SingleSendLeaves(db: Db, inp: SendInput, serverId: string, now: Time)
    requires SendTx(db, inp, serverId, now).1.Committed? && !inp.toGroup && inp.sender != inp.recv
    ensures var (db', r) := SendTx(db, inp, serverId, now); var conv := Single(inp.sender, inp.recv);
            && var read := if inp.senderRead then r.m.seqNo else 0;
            && BroughtForward(db, db', (inp.sender, conv), inp.recv, read, r.m.sendTime)
            && BroughtForward(db, db', (inp.recv, conv), inp.sender, 0, r.m.sendTime)
            && (forall k :: k in db.rows && k != (inp.sender, conv) && k != (inp.recv, conv) ==>
                  k in db'.rows && db'.rows[k] == db.rows[k])
            && db'.rows.Keys == db.rows.Keys + {(inp.sender, conv), (inp.recv, conv)}
  {
    var m := SendTx(db, inp, serverId, now).1.m;
    TouchSingle(Appended(db, inp, m, now), inp, m.seqNo, m.sendTime);
  }

  lemma TouchGroup(d: Db, inp: SendInput, n: int, at: Time, k: (string, string))
    requires inp.toGroup && n > 0
    ensures var d', conv := Touch(d, inp, n, at), Group(inp.groupId);
            && d'.rows.Keys == d.rows.Keys
            && (k in d.rows ==>
                  var r := d.rows[k];
                  d'.rows[k] == r.(
                    updatedAt := if k.1 == conv && r.maxSeq == 0 then Max(r.updatedAt, at) else r.updatedAt,
                    readSeq := if k == (inp.sender, conv) && inp.senderRead then Max(r.readSeq, n) else r.readSeq))
  {}

  /** A message in a group brings the rows of its members forward and nobody else's. */
  lemma GroupSendLeaves(db: Db, inp: SendInput, serverId: string, now: Time, k: (string, string))
    requires LogOk(db) && SendTx(db, inp, serverId, now).1.Committed? && inp.toGroup
    ensures var (db', r) := SendTx(db, inp, serverId, now); var conv := Group(inp.groupId);
            && db'.rows.Keys == db.rows.Keys
            && (k in db.rows ==>
                  var row := db.rows[k];
                  db'.rows[k] == row.(
                    updatedAt := if k.1 == conv && row.maxSeq == 0 then Max(row.updatedAt, r.m.sendTime)
                                 else row.updatedAt,
                    readSeq := if k == (inp.sender, conv) && inp.senderRead then Max(row.readSeq, r.m.seqNo)
                               else row.readSeq))
  {
    var m := SendTx(db, inp, serverId, now).1.m;
    TouchGroup(Appended(db, inp, m, now), inp, m.seqNo, m.sendTime, k);
  }

  // ---------------------------------------------------------------- membership

  /** The conversation of g is there, at the seq and time it had, or new and empty at now; every other stays. */
  ghost predicate Opened(db: Db, db': Db, g: string, now: Time) {
    && db'.convs.Keys == db.convs.Keys + {Group(g)}
    && (forall c :: c in db.convs ==> db'.convs[c] == db.convs[c])
    && (Group(g) !in db.convs ==> db'.convs[Group(g)] == Conversation(g, 0, now))
  }

  /** A join is refused for a member or a full group, and otherwise adds one plain member who sees what comes next. */
  lemma JoinAnswers(db: Db, g: string, u: string, maxMembers: int, now: Time)
    ensures var (db', e) := JoinTx(db, g, u, maxMembers, now);
            && (e == Some(AlreadyGroupMember) <==> (g, u) in db.members)
            && (e == Some(GroupFull) <==> (g, u) !in db.members && maxMembers <= |MembersOf(db, g)|)
            && (e.None? || e.value in {AlreadyGroupMember, GroupFull}) && (e.Some? ==> db' == db)
  {}

  lemma JoinLeaves(db: Db, g: string, u: string, maxMembers: int, now: Time)
    requires JoinTx(db, g, u, maxMembers, now).1.None?
    ensures var db' := JoinTx(db, g, u, maxMembers, now).0; var k, top := (u, Group(g)), MaxSeqOf(db, Group(g));
            && db'.members == db.members[(g, u) := Member(1, now)] && (g, u) !in db.members
            && db'.groups == db.groups && db'.messages == db.messages && Opened(db, db', g, now)
            && db'.rows.Keys == db.rows.Keys + {k} && (forall j :: j in db.rows && j != k ==> db'.rows[j] == db.rows[j])
            && db'.rows[k].minSeq == top + 1 && db'.rows[k].maxSeq == 0 && db'.rows[k].readSeq == top
            && db'.rows[k].updatedAt == now
            && (if k in db.rows then db'.rows[k].peer == db.rows[k].peer && db'.rows[k].groupId == db.rows[k].groupId
                else db'.rows[k].peer == "" && db'.rows[k].groupId == g)
  {}

  /** Someone who leaves is no member any more and keeps what they could see; with nothing ever sent, not even a row. */
  lemma RemoveLeaves(db: Db, g: string, owner: string, operator: string, u: string, now: Time)
    requires RemoveTx(db, g, owner, operator, u, now).1.None?
    ensures var db' := RemoveTx(db, g, owner, operator, u, now).0; var k, top := (u, Group(g)), MaxSeqOf(db, Group(g));
            && (g, u) in db.members && db'.members == db.members - {(g, u)}
            && db'.groups == db.groups && db'.messages == db.messages && Opened(db, db', g, now)
            && (forall j :: j != k ==>
                  && (j in db'.rows <==> j in db.rows)
                  && (j in db.rows ==> db'.rows[j] == db.rows[j]))
            && (k in db'.rows <==> k in db.rows && top != 0)
            && (k in db'.rows ==> db'.rows[k] == db.rows[k].(maxSeq := top))
  {}

  /** A quit is refused for whoever is not a member, and for nobody else. */
  lemma QuitAnswers(db: Db, g: string, owner: string, u: string, now: Time)
    ensures var (db', e) := RemoveTx(db, g, owner, u, u, now);
            (e.None? <==> (g, u) in db.members) && (e.Some? ==> e.value == NotGroupMember && db' == db)
  {}

  lemma CreateMembers(db: Db, g: string, owner: string, ids: seq<string>, now: Time)
    requires CreateTx(db, g, owner, ids, now).1.None?
    ensures var db' := CreateTx(db, g, owner, ids, now).0;
            && (forall h, u :: (h, u) in db'.members <==> (h, u) in db.members || (h == g && u in ids))
            && (forall u :: u in ids ==> db'.members[(g, u)] == Member(if u == owner then 3 else 1, now))
            && (forall k :: k in db.members && !(k.0 == g && k.1 in ids) ==> db'.members[k] == db.members[k])
  {
    var db' := CreateTx(db, g, owner, ids, now).0;
    forall u | u in ids ensures (g, u) in db'.members { assert (g, u) in FirstMembers(g, owner, ids, now); }
  }

  lemma CreateRows(db: Db, g: string, owner: string, ids: seq<string>, now: Time)
    requires CreateTx(db, g, owner, ids, now).1.None?
    ensures var db' := CreateTx(db, g, owner, ids, now).0;
            && (forall u, c :: (u, c) in db'.rows <==> (u, c) in db.rows || (c == Group(g) && u in ids))
            && (forall u :: u in ids ==> db'.rows[(u, Group(g))] == Row("", g, 1, 0, 0, now))
            && (forall k :: k in db.rows ==> db'.rows[k] == db.rows[k])
  {
    var db' := CreateTx(db, g, owner, ids, now).0;
    forall u | u in ids ensures (u, Group(g)) in db'.rows { assert (u, Group(g)) in FirstRows(g, ids, now); }
  }

  /** A new group has exactly its roster, one owner among plain members, all of whom see it from the start. */
  lemma CreateLeaves(db: Db, g: string, owner: string, ids: seq<string>, now: Time, u: string)
    requires CreateTx(db, g, owner, ids, now).1.None?
    ensures var db' := CreateTx(db, g, owner, ids, now).0;
            && g !in db.groups && db'.groups == db.groups[g := ChatGroup(owner, false)]
            && db'.messages == db.messages && Opened(db, db', g, now)
            && ((g, u) in db'.members <==> (g, u) in db.members || u in ids)
            && (u in ids ==>
                  && db'.members[(g, u)] == Member(if u == owner then 3 else 1, now)
                  && (u, Group(g)) in db'.rows && db'.rows[(u, Group(g))] == Row("", g, 1, 0, 0, now))
            && (forall h :: h != g ==>
                  && ((h, u) in db'.members <==> (h, u) in db.members)
                  && ((h, u) in db.members ==> db'.members[(h, u)] == db.members[(h, u)]))
            && (forall c :: c != Group(g) || u !in ids ==>
                  && ((u, c) in db'.rows <==> (u, c) in db.rows)
                  && ((u, c) in db.rows ==> db'.rows[(u, c)] == db.rows[(u, c)]))
  {
    CreateMembers(db, g, owner, ids, now);
    CreateRows(db, g, owner, ids, now);
  }

  lemma CreateAnswers(db: Db, g: string, owner: string, ids: seq<string>, now: Time)
    ensures var (db', e) := CreateTx(db, g, owner, ids, now);
            && (e.Some? <==> g in db.groups || exists u :: u in ids && (u, Group(g)) in db.rows)
            && (e.Some? ==> e.value == Duplicate && db' == db)
  {}

  // ---------------------------------------------------------------- pull

  /** Up to the end of a conversation, what a row covers is what lies between its lower bound and its visible max. */
  lemma VisibleIsCovered(r: Row, convMax: int, n: int)
    requires 0 <= r.maxSeq && n <= convMax
    ensures Covers(r, n) <==> r.minSeq <= n <= VisibleMax(r, convMax)
    ensures VisibleMax(r, convMax) <= convMax && (r.maxSeq == 0 ==> VisibleMax(r, convMax) == convMax)
    ensures r.maxSeq > 0 ==> VisibleMax(r, convMax) <= r.maxSeq
  {}

  /** How many messages a page holds at most: what was asked for, or the server's maximum, which is at least one. */
  ghost predicate PageHolds(limit: int, pageMax: int, n: int) {
    && (1 <= limit <= pageMax ==> n == limit)
    && (pageMax >= 1 && !(1 <= limit <= pageMax) ==> n == pageMax)
    && (pageMax < 1 ==> n == 1)
  }

  lemma PageLimitHolds(limit: int, pageMax: int)
    ensures PageHolds(limit, pageMax, PageLimit(limit, pageMax))
  {}

  /**
   messages are those of conv from lo on, as many of them as lie at or below hi and fit n, and more says if some did
   not.
   */
  ghost predicate PageIs(ms: seq<Message>, conv: string, lo: int, hi: int, n: int, messages: seq<Message>, more: bool) {
    && |messages| == Max(0, Min(n, hi - lo + 1)) && (more <==> lo + n <= hi)
    && forall i :: 0 <= i < |messages| ==>
         messages[i] in ms && messages[i].conv == conv && messages[i].seqNo == lo + i
  }

  /** What a pull answers in every reachable state. */
  lemma PullAnswers(s: Sys, u: string, conv: string, begin: int, end: int, limit: int, pageMax: int)
    requires Reachable(s)
    ensures var r := Pull(s.db, u, conv, begin, end, limit, pageMax);
            && (r == PullRefused(InvalidParam) <==> begin < 1 || end < begin)
            && (r == PullRefused(NoPermission) <==> 1 <= begin <= end && (u, conv) !in s.db.rows)
            && (r.Pulled? <==> 1 <= begin <= end && (u, conv) in s.db.rows)
            && (r.Pulled? ==> exists n ::
                  && PageHolds(limit, pageMax, n)
                  && PageIs(s.db.messages, conv, Max(begin, MinOf(s.db, (u, conv))), Min(end, TopOf(s.db, (u, conv))),
                            n, r.messages, r.hasMore))
  {
    assert LogOk(s.db) && RowsOk(s.db) by { ReachableOk(s); }
    if 1 <= begin <= end && (u, conv) in s.db.rows {
      PullPage(s.db, u, conv, begin, end, limit, pageMax);
      PageLimitHolds(limit, pageMax);
    }
  }

  lemma PullPage(db: Db, u: string, conv: string, begin: int, end: int, limit: int, pageMax: int)
    requires LogOk(db) && RowsOk(db) && (u, conv) in db.rows && 1 <= begin <= end
    ensures var r := Pull(db, u, conv, begin, end, limit, pageMax);
            r.Pulled? && PageIs(db.messages, conv, Max(begin, MinOf(db, (u, conv))), Min(end, TopOf(db, (u, conv))),
                                PageLimit(limit, pageMax), r.messages, r.hasMore)
  {
    var row := db.rows[(u, conv)];
    var lo, hi := Max(begin, row.minSeq), Min(end, VisibleMax(row, db.convs[conv].maxSeq));
    PullIsExact(db, u, conv, begin, end, limit, pageMax);
    assert RowOk(row, db.convs[conv].maxSeq);
    if lo <= hi { RangePage(db, conv, lo, hi, PageLimit(limit, pageMax)); }
  }

  lemma RangePage(db: Db, conv: string, lo: int, hi: int, n: nat)
    requires LogOk(db) && conv in db.convs && 1 <= lo <= hi <= db.convs[conv].maxSeq
    ensures PageIs(db.messages, conv, lo, hi, n, FirstOf(InRange(db.messages, conv, lo, hi), n), lo + n <= hi)
  {
    var all := InRange(db.messages, conv, lo, hi);
    assert |all| == hi - lo + 1 && Consecutive(all, conv, lo) by { SliceIsExact(db, conv, lo, hi); }
    forall i | 0 <= i < |all| ensures all[i] in db.messages { RangeIsInside(db.messages, conv, lo, hi, i); }
  }
}
