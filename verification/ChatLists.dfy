/**
 What a user's conversation list owes the log, in every reachable state: single chats stay open, and rows sort by what
 they show.
 */
module ChatLists {
  import opened Common
  import opened ConvIds
  import opened ChatModel
  import opened ChatInvariants
  import opened ChatRuns
  import opened ChatStamps

  predicate Party(m: Message, u: string) { u == m.sender || u == m.recv }

  /** Both parties of a single-chat message have a row of their conversation. */
  ghost predicate PartiesListed(db: Db) {
    forall i :: 0 <= i < |db.messages| && !IsGroupConv(db.messages[i].conv) ==>
      (db.messages[i].sender, db.messages[i].conv) in db.rows && (db.messages[i].recv, db.messages[i].conv) in db.rows
  }

  ghost predicate SinglesOpen(db: Db) {
    forall k :: k in db.rows && !IsGroupConv(k.1) ==> db.rows[k].minSeq == 1
  }

  /** If row k shows m to its owner, it sorts no earlier than m. */
  ghost predicate SortsBy(db: Db, m: Message, k: (string, string)) {
    k in db.rows && k.1 == m.conv && Covers(db.rows[k], m.seqNo) && (IsGroupConv(k.1) || Party(m, k.0)) ==>
      m.sendTime <= db.rows[k].updatedAt
  }

  ghost predicate AllSort(db: Db) { forall i, k :: 0 <= i < |db.messages| ==> SortsBy(db, db.messages[i], k) }

  ghost predicate ListsOk(db: Db) { PartiesListed(db) && SinglesOpen(db) && AllSort(db) }

  // ---------------------------------------------------------------- steps that leave the log alone

  /** Every row of db' was there, shows no more of the log than before and sorts no earlier, or shows nothing yet. */
  ghost predicate Calm(db: Db, db': Db) {
    && db'.messages == db.messages
    && (forall k :: k in db'.rows ==>
          || (k in db.rows && (forall n :: 1 <= n <= MaxSeqOf(db, k.1) && Covers(db'.rows[k], n) ==>
               Covers(db.rows[k], n))
              && db.rows[k].updatedAt <= db'.rows[k].updatedAt)
          || (IsGroupConv(k.1) && forall n :: 1 <= n <= MaxSeqOf(db, k.1) ==> !Covers(db'.rows[k], n)))
    && (forall k :: k in db.rows && !IsGroupConv(k.1) ==> k in db'.rows && db'.rows[k].minSeq == db.rows[k].minSeq)
  }

  lemma CalmKeeps(db: Db, db': Db)
    requires InBounds(db) && ListsOk(db) && Calm(db, db')
    ensures ListsOk(db')
  {
    forall i, k | 0 <= i < |db'.messages| ensures SortsBy(db', db'.messages[i], k) {
      assert db.messages[i].conv in db.convs;
      assert SortsBy(db, db.messages[i], k);
    }
  }

  lemma CreateIsCalm(db: Db, g: string, owner: string, ids: seq<string>, now: Time)
    requires GroupsOk(db) && CreateTx(db, g, owner, ids, now).1.None?
    ensures Calm(db, CreateTx(db, g, owner, ids, now).0)
  {
    var db' := CreateTx(db, g, owner, ids, now).0;
    forall k | k in db'.rows && k !in db.rows ensures IsGroupConv(k.1) && MaxSeqOf(db, k.1) == 0 {
      assert k in FirstRows(g, ids, now);
    }
    forall k | k in db.rows ensures k in db'.rows && db'.rows[k] == db.rows[k] {
      CreateKeepsRow(db, g, owner, ids, now, k);
    }
  }

  lemma JoinIsCalm(db: Db, g: string, u: string, maxMembers: int, now: Time)
    requires JoinTx(db, g, u, maxMembers, now).1.None?
    ensures Calm(db, JoinTx(db, g, u, maxMembers, now).0)
  {
    var db', k := JoinTx(db, g, u, maxMembers, now).0, (u, Group(g));
    assert db'.rows[k].minSeq == MaxSeqOf(db, Group(g)) + 1;
  }

  lemma RemoveIsCalm(db: Db, g: string, owner: string, operator: string, u: string, now: Time)
    requires RemoveTx(db, g, owner, operator, u, now).1.None? && RowsOk(db) && GroupsOk(db)
    ensures Calm(db, RemoveTx(db, g, owner, operator, u, now).0)
  {}

  lemma AdvanceIsCalm(db: Db, u: string, conv: string, read: int)
    ensures Calm(db, AdvanceRead(db, u, conv, read))
  {}

  // ---------------------------------------------------------------- a committed send

  /** A touch opens a row only of the message's own single chat, for its parties, from the first message on. */
  lemma TouchRows(d: Db, inp: SendInput, n: int, at: Time, k: (string, string))
    requires k in Touch(d, inp, n, at).rows
    ensures var r := Touch(d, inp, n, at).rows[k];
            if k in d.rows then r.minSeq == d.rows[k].minSeq && r.maxSeq == d.rows[k].maxSeq
              && d.rows[k].updatedAt <= r.updatedAt
            else !inp.toGroup && k.1 == Destination(inp) && r.minSeq == 1
  {}

  /** Whoever the message reaches sorts by it. */
  lemma TouchSorts(d: Db, inp: SendInput, n: int, at: Time, k: (string, string))
    requires k.1 == Destination(inp) && k in Touch(d, inp, n, at).rows
    requires if inp.toGroup then k in d.rows && d.rows[k].maxSeq == 0 else k.0 == inp.sender || k.0 == inp.recv
    ensures at <= Touch(d, inp, n, at).rows[k].updatedAt
  {}

  lemma TouchOpens(d: Db, inp: SendInput, n: int, at: Time)
    requires !inp.toGroup
    ensures (inp.sender, Destination(inp)) in Touch(d, inp, n, at).rows
            && (inp.recv, Destination(inp)) in Touch(d, inp, n, at).rows
  {}

  lemma SendKeepsOldSorted(db: Db, inp: SendInput, serverId: string, now: Time, i: int, k: (string, string))
    requires ListsOk(db) && SendTx(db, inp, serverId, now).1.Committed? && 0 <= i < |db.messages|
    ensures SortsBy(SendTx(db, inp, serverId, now).0, db.messages[i], k)
  {
    var (db', r) := SendTx(db, inp, serverId, now);
    var d := Appended(db, inp, r.m, now);
    assert db' == Touch(d, inp, r.m.seqNo, r.m.sendTime);
    assert SortsBy(db, db.messages[i], k);
    if k in db'.rows && k.1 == db.messages[i].conv {
      TouchRows(d, inp, r.m.seqNo, r.m.sendTime, k);
      if k !in d.rows { SingleIsOpen(inp.sender, inp.recv); }
    }
  }

  lemma SingleIsOpen(a: string, b: string)
    ensures !IsGroupConv(Single(a, b))
  {
    assert Single(a, b)[1] == 'i';
  }

  lemma SendSortsNew(db: Db, inp: SendInput, serverId: string, now: Time, k: (string, string))
    requires LogOk(db) && RowsOk(db) && SendTx(db, inp, serverId, now).1.Committed?
    ensures var (db', r) := SendTx(db, inp, serverId, now); SortsBy(db', r.m, k)
  {
    var (db', r) := SendTx(db, inp, serverId, now);
    var d := Appended(db, inp, r.m, now);
    assert db' == Touch(d, inp, r.m.seqNo, r.m.sendTime);
    if k in db'.rows && k.1 == r.m.conv && Covers(db'.rows[k], r.m.seqNo) && (IsGroupConv(k.1) || Party(r.m, k.0)) {
      TouchRows(d, inp, r.m.seqNo, r.m.sendTime, k);
      if k in db.rows { assert RowOk(db.rows[k], db.convs[k.1].maxSeq); }
      if !inp.toGroup { SingleIsOpen(inp.sender, inp.recv); }
      TouchSorts(d, inp, r.m.seqNo, r.m.sendTime, k);
    }
  }

  lemma SendKeepsParties(db: Db, inp: SendInput, serverId: string, now: Time)
    requires ListsOk(db) && SendTx(db, inp, serverId, now).1.Committed?
    ensures var db' := SendTx(db, inp, serverId, now).0; PartiesListed(db') && SinglesOpen(db')
  {
    var (db', r) := SendTx(db, inp, serverId, now);
    var d := Appended(db, inp, r.m, now);
    assert db' == Touch(d, inp, r.m.seqNo, r.m.sendTime);
    TouchKeepsLog(d, inp, r.m.seqNo, r.m.sendTime);
    if !inp.toGroup { TouchOpens(d, inp, r.m.seqNo, r.m.sendTime); }
    forall k | k in db.rows ensures k in db'.rows { SendRaises(db, inp, serverId, now, k); }
    forall k | k in db'.rows && !IsGroupConv(k.1) ensures db'.rows[k].minSeq == 1 {
      TouchRows(d, inp, r.m.seqNo, r.m.sendTime, k);
    }
  }

  lemma SendKeepsLists(db: Db, inp: SendInput, serverId: string, now: Time)
    requires DbOk(db) && ListsOk(db) && SendTx(db, inp, serverId, now).1.Committed?
    ensures ListsOk(SendTx(db, inp, serverId, now).0)
  {
    var (db', r) := SendTx(db, inp, serverId, now);
    assert PartiesListed(db') && SinglesOpen(db') by { SendKeepsParties(db, inp, serverId, now); }
    assert db'.messages == db.messages + [r.m] by {
      TouchKeepsLog(Appended(db, inp, r.m, now), inp, r.m.seqNo, r.m.sendTime);
    }
    forall i, k | 0 <= i < |db'.messages| ensures SortsBy(db', db'.messages[i], k) {
      if i < |db.messages| {
        SendKeepsOldSorted(db, inp, serverId, now, i, k);
      } else {
        SendSortsNew(db, inp, serverId, now, k);
      }
    }
  }

  // ---------------------------------------------------------------- every run

  lemma StepLists(s: Sys, e: Event)
    requires SysOk(s) && ListsOk(s.db) && Allowed(s, e)
    ensures ListsOk(Next(s, e).db)
  {
    var db, db' := s.db, Next(s, e).db;
    if e.SendCommit? {
      var p := s.attempts[e.a];
      if SendTx(db, p.inp, p.serverId, p.now).1.Committed? { SendKeepsLists(db, p.inp, p.serverId, p.now); }
    } else if db'.rows != db.rows {
      assert Calm(db, db') by {
        match e
        case Create(g, owner, ids, now) => CreateIsCalm(db, g, owner, ids, now);
        case Join(g, u, maxMembers, now) => JoinIsCalm(db, g, u, maxMembers, now);
        case Remove(g, operator, u, now) => RemoveIsCalm(db, g, db.groups[g].ownerId, operator, u, now);
        case ReadAdvance(t) => AdvanceIsCalm(db, s.readers[t].u, s.readers[t].conv, s.readers[t].target);
        case _ =>
      }
      CalmKeeps(db, db');
    } else {
      assert db'.messages == db.messages by { MembershipKeepsMessages(s, e); }
      SameRowsKeep(db, db');
    }
  }

  lemma SameRowsKeep(db: Db, db': Db)
    requires ListsOk(db) && db'.rows == db.rows && db'.messages == db.messages
    ensures ListsOk(db')
  {
    forall i, k | 0 <= i < |db'.messages| ensures SortsBy(db', db'.messages[i], k) {
      assert SortsBy(db, db.messages[i], k);
    }
  }

  lemma {:induction false} RunLists(s: Sys, es: seq<Event>)
    requires SysOk(s) && ListsOk(s.db) && Run(s, es).Some?
    ensures ListsOk(Run(s, es).value.db)
    decreases |es|
  {
    if es != [] {
      var s' := Next(s, es[0]);
      assert SysOk(s') by { StepOk(s, es[0]); }
      assert ListsOk(s'.db) by { StepLists(s, es[0]); }
      RunLists(s', es[1..]);
    }
  }

  lemma ReachableLists(s: Sys)
    requires Reachable(s)
    ensures ListsOk(s.db)
  {
    var es :| Run(Init(), es) == Some(s);
    InitOk();
    RunLists(Init(), es);
  }

  /** A single-chat message stays listed and visible to both its parties for good. */
  lemma PartiesSeeTheirMessages(s: Sys, i: nat, u: string)
    requires Reachable(s) && i < |s.db.messages| && !IsGroupConv(s.db.messages[i].conv) && Party(s.db.messages[i], u)
    ensures var m := s.db.messages[i]; (u, m.conv) in s.db.rows && Covers(s.db.rows[(u, m.conv)], m.seqNo)
  {
    assert InBounds(s.db) && RowsOk(s.db) by { ReachableOk(s); }
    ReachableLists(s);
  }

  /**
   A conversation sorts by what its owner can see of it: no row is listed behind a message it shows, whoever sent,
   joined, left or read in between.
   */
  lemma ListFollowsMessages(s: Sys, i: nat, k: (string, string))
    requires Reachable(s) && i < |s.db.messages| && k in s.db.rows && k.1 == s.db.messages[i].conv
    requires Covers(s.db.rows[k], s.db.messages[i].seqNo) && (IsGroupConv(k.1) || Party(s.db.messages[i], k.0))
    ensures s.db.messages[i].sendTime <= s.db.rows[k].updatedAt
  {
    ReachableLists(s);
    assert SortsBy(s.db, s.db.messages[i], k);
  }

  // ---------------------------------------------------------------- mark read

  /** A reader that waits keeps its task until it advances. */
  lemma {:induction false} ReaderWaits(s: Sys, es: seq<Event>, t: nat)
    requires Run(s, es).Some? && t in s.readers && forall i :: 0 <= i < |es| ==> es[i] != ReadAdvance(t)
    ensures var s' := Run(s, es).value; t in s'.readers && s'.readers[t] == s.readers[t]
    decreases |es|
  {
    if es != [] { ReaderWaits(Next(s, es[0]), es[1..], t); }
  }

  /** Some message past the cursor is both asked for and visible. */
  ghost predicate ReadsOn(db: Db, u: string, conv: string, readSeq: int) {
    (u, conv) in db.rows && db.rows[(u, conv)].readSeq < readSeq && db.rows[(u, conv)].readSeq < TopOf(db, (u, conv))
  }

  /**
   A MarkRead goes on to its second half exactly when that would move the cursor, and its first half moves nothing.
   */
  lemma ReadBeginWaits(s: Sys, t: nat, u: string, conv: string, readSeq: int)
    requires Reachable(s) && Allowed(s, ReadBegin(t, u, conv, readSeq))
    ensures var s' := Next(s, ReadBegin(t, u, conv, readSeq));
            && s' == s.(readers := s'.readers)
            && (ReadsOn(s.db, u, conv, readSeq) ==>
                  s'.readers == s.readers[t := ReadTask(u, conv, Min(readSeq, TopOf(s.db, (u, conv))))])
            && (!ReadsOn(s.db, u, conv, readSeq) ==> s'.readers == s.readers)
  {
    assert RowsOk(s.db) by { ReachableOk(s); }
    if (u, conv) in s.db.rows { assert RowOk(s.db.rows[(u, conv)], s.db.convs[conv].maxSeq); }
  }

  /**
   Whatever happened between the two halves of a MarkRead, its advance leaves the cursor at the furthest of where it has
   got to and what was asked for and visible at the start, and moves nothing else.
   */
  lemma MarkReadTakesEffect(s: Sys, t: nat, u: string, conv: string, readSeq: int, es: seq<Event>)
    requires Reachable(s) && Allowed(s, ReadBegin(t, u, conv, readSeq)) && ReadsOn(s.db, u, conv, readSeq)
    requires (forall i :: 0 <= i < |es| ==> es[i] != ReadAdvance(t))
             && Run(Next(s, ReadBegin(t, u, conv, readSeq)), es).Some?
    ensures var m := Run(Next(s, ReadBegin(t, u, conv, readSeq)), es).value; var k := (u, conv);
            && Allowed(m, ReadAdvance(t)) && k in m.db.rows
            && Next(m, ReadAdvance(t)).db
               == m.db.(rows := m.db.rows[k :=
                 m.db.rows[k].(readSeq := Max(m.db.rows[k].readSeq, Min(readSeq, TopOf(s.db, k))))])
  {
    var e := ReadBegin(t, u, conv, readSeq);
    var b := Next(s, e);
    ReadBeginWaits(s, t, u, conv, readSeq);
    ReaderWaits(b, es, t);
    var m := Run(b, es).value;
    assert Reachable(b) by { ReachableStep(s, e); }
    assert Reachable(m) by { ReachableRun(b, es); }
    assert ReadOk(m.db, m.readers[t]) by { ReachableOk(m); }
  }
}
