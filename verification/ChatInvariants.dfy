/** What every chat transaction keeps, and the reference account of membership periods. */
module ChatInvariants {
  import opened ConvIds
  import opened ChatModel

  // ---------------------------------------------------------------- the log

  ghost predicate Stored(ms: seq<Message>, conv: string, n: int) {
    exists i :: 0 <= i < |ms| && ms[i].conv == conv && ms[i].seqNo == n
  }

  /** Later messages of one conversation have a larger seq, no earlier send time and a different client key. */
  ghost predicate Ordered(ms: seq<Message>) {
    forall i, j :: 0 <= i < j < |ms| && ms[i].conv == ms[j].conv ==>
      ms[i].seqNo < ms[j].seqNo && ms[i].sendTime <= ms[j].sendTime
      && !SameKey(ms[i], ms[j].conv, ms[j].sender, ms[j].clientId)
  }

  ghost predicate InBounds(db: Db) {
    forall i :: 0 <= i < |db.messages| ==>
      var m := db.messages[i];
      m.conv in db.convs && 1 <= m.seqNo <= db.convs[m.conv].maxSeq && m.sendTime <= db.convs[m.conv].updatedAt
  }

  ghost predicate NoGap(db: Db) {
    forall c, n :: c in db.convs && 1 <= n <= db.convs[c].maxSeq ==> Stored(db.messages, c, n)
  }

  ghost predicate LogOk(db: Db) {
    && Ordered(db.messages) && InBounds(db) && NoGap(db)
    && (forall c :: c in db.convs ==> db.convs[c].maxSeq >= 0)
  }

  // ---------------------------------------------------------------- user rows

  ghost predicate RowOk(r: Row, convMax: int) {
    1 <= r.minSeq && 0 <= r.maxSeq <= convMax && r.minSeq - 1 <= r.readSeq <= VisibleMax(r, convMax)
  }

  predicate IsGroupConv(conv: string) { "sg_" <= conv }

  ghost predicate RowsOk(db: Db) {
    forall k :: k in db.rows ==>
      && k.1 in db.convs && RowOk(db.rows[k], db.convs[k.1].maxSeq)
      && (!IsGroupConv(k.1) ==> db.rows[k].maxSeq == 0)
  }

  /** A row without an upper bound exists exactly for current members, and nothing precedes its group. */
  ghost predicate GroupsOk(db: Db) {
    && (forall g, u :: (g, u) in db.members <==> (u, Group(g)) in db.rows && db.rows[(u, Group(g))].maxSeq == 0)
    && (forall g, u :: (u, Group(g)) in db.rows ==> g in db.groups)
    && (forall g :: Group(g) in db.convs ==> g in db.groups)
  }

  ghost predicate DbOk(db: Db) { LogOk(db) && RowsOk(db) && GroupsOk(db) }

  // ---------------------------------------------------------------- the reference: a history of commits

  datatype Commit =
    | Created(g: string, ids: seq<string>) | Joined(g: string, u: string) | Left(g: string, u: string)
    | Sent(conv: string, seqNo: int)

  predicate Enters(h: Commit, g: string, u: string) {
    (h.Created? && h.g == g && u in h.ids) || h == Joined(g, u)
  }

  /** Membership as the history tells it: the last commit about (g, u) let the user in. */
  ghost predicate MemberAfter(log: seq<Commit>, g: string, u: string) {
    if log == [] then false
    else
      var h := log[|log|-1];
      if Enters(h, g, u) then true else if h == Left(g, u) then false else MemberAfter(log[..|log|-1], g, u)
  }

  /** At commit p the message was sent to g while u was a member, and u has not entered anew since. */
  ghost predicate InPeriodAt(log: seq<Commit>, p: int, g: string, u: string, n: int) {
    && 0 <= p < |log| && log[p] == Sent(Group(g), n)
    && MemberAfter(log[..p], g, u)
    && (forall q :: p < q < |log| ==> !Enters(log[q], g, u))
  }

  /** The message was committed during u's latest membership period of g. */
  ghost predicate InLatestPeriod(log: seq<Commit>, g: string, u: string, n: int) {
    exists p :: InPeriodAt(log, p, g, u, n)
  }

  ghost predicate Reaches(db: Db, g: string, u: string, n: int) {
    (u, Group(g)) in db.rows
    && db.rows[(u, Group(g))].minSeq <= n <= VisibleMax(db.rows[(u, Group(g))], MaxSeqOf(db, Group(g)))
  }

  /** The bounds in the database agree with the history, for every group, user and seq. */
  ghost predicate HistoryOk(db: Db, log: seq<Commit>) {
    && (forall g, u :: MemberAfter(log, g, u) <==> (g, u) in db.members)
    && (forall g, u, n :: InLatestPeriod(log, g, u, n) <==> Reaches(db, g, u, n))
  }

  /** How one more commit changes the latest period. */
  lemma PeriodStep(log: seq<Commit>, h: Commit, g: string, u: string, n: int)
    ensures InLatestPeriod(log + [h], g, u, n) <==>
            if Enters(h, g, u) then false
            else InLatestPeriod(log, g, u, n) || (h == Sent(Group(g), n) && MemberAfter(log, g, u))
    ensures MemberAfter(log + [h], g, u) <==>
            Enters(h, g, u) || (h != Left(g, u) && MemberAfter(log, g, u))
  {
    var log' := log + [h];
    assert log'[..|log|] == log;
    if InLatestPeriod(log', g, u, n) {
      var p :| InPeriodAt(log', p, g, u, n);
      if p < |log| {
        assert log'[|log|] == h && log'[..p] == log[..p];
        assert forall q :: p < q < |log| ==> log'[q] == log[q];
        assert InPeriodAt(log, p, g, u, n);
      }
    }
    if !Enters(h, g, u) && InLatestPeriod(log, g, u, n) {
      var p :| InPeriodAt(log, p, g, u, n);
      assert log'[..p] == log[..p];
      assert InPeriodAt(log', p, g, u, n);
    }
    if !Enters(h, g, u) && h == Sent(Group(g), n) && MemberAfter(log, g, u) {
      assert InPeriodAt(log', |log|, g, u, n);
    }
  }

  // ---------------------------------------------------------------- the log under Send

  lemma StoredGrows(ms: seq<Message>, m: Message, c: string, n: int)
    ensures Stored(ms + [m], c, n) <==> Stored(ms, c, n) || (m.conv == c && m.seqNo == n)
  {
    var ms' := ms + [m];
    if Stored(ms, c, n) {
      var i :| 0 <= i < |ms| && ms[i].conv == c && ms[i].seqNo == n;
      assert ms'[i].conv == c && ms'[i].seqNo == n;
    }
    if m.conv == c && m.seqNo == n { assert ms'[|ms|] == m; }
  }

  /** Only rows and the log decide LogOk; touching user rows does not. */
  lemma TouchKeepsLog(db: Db, inp: SendInput, n: int, at: Time)
    ensures Touch(db, inp, n, at).messages == db.messages && Touch(db, inp, n, at).convs == db.convs
    ensures Touch(db, inp, n, at).groups == db.groups && Touch(db, inp, n, at).members == db.members
  {}

  /** The database right after the insert and the max_seq update, before the user rows are touched. */
  ghost function Appended(db: Db, inp: SendInput, m: Message, now: Time): Db {
    var d := Lock(db, m.conv, GroupIdOf(inp), now);
    SetMaxSeq(d.(messages := d.messages + [m]), m.conv, m.seqNo, m.sendTime)
  }

  lemma SendKeepsLog(db: Db, inp: SendInput, serverId: string, now: Time)
    requires LogOk(db)
    ensures LogOk(SendTx(db, inp, serverId, now).0)
  {
    var (db', r) := SendTx(db, inp, serverId, now);
    if r.Committed? {
      var m := r.m;
      var d := Appended(db, inp, m, now);
      TouchKeepsLog(d, inp, m.seqNo, m.sendTime);
      assert db'.messages == db.messages + [m] && db'.convs == d.convs;
      AppendKeepsLog(db, db', m);
    }
  }

  /** One message more, with the next seq, no earlier time and new keys. */
  lemma AppendKeepsLog(db: Db, db': Db, m: Message)
    requires LogOk(db) && db'.messages == db.messages + [m] && m.seqNo == MaxSeqOf(db, m.conv) + 1
             && !Conflict(db.messages, m)
    requires m.conv in db'.convs && db'.convs[m.conv].maxSeq == m.seqNo && db'.convs[m.conv].updatedAt == m.sendTime
    requires m.conv in db.convs ==> db.convs[m.conv].updatedAt <= m.sendTime
    requires forall c :: c != m.conv ==>
             (c in db'.convs <==> c in db.convs) && (c in db.convs ==> db'.convs[c] == db.convs[c])
    ensures LogOk(db')
  {
    forall i | 0 <= i < |db.messages| ensures !Collides(db.messages[i], m) {}
    forall c, n | c in db'.convs && 1 <= n <= db'.convs[c].maxSeq ensures Stored(db'.messages, c, n) {
      StoredGrows(db.messages, m, c, n);
    }
  }

  /** With a fresh server id, the only way to collide is to repeat a client key. */
  lemma CollisionIsRetry(db: Db, inp: SendInput, serverId: string, now: Time)
    requires LogOk(db)
    requires forall i :: 0 <= i < |db.messages| ==> db.messages[i].serverId != serverId
    ensures SendTx(db, inp, serverId, now).1.Collision? ==>
            FindByClient(db.messages, Destination(inp), inp.sender, inp.clientId).Some?
  {
    var (_, r) := SendTx(db, inp, serverId, now);
    if r.Collision? {
      var c := Locked(db, Destination(inp), GroupIdOf(inp), now);
      var m := NewMessage(inp, serverId, c.maxSeq + 1, Max(c.updatedAt, now));
      var i :| 0 <= i < |db.messages| && Collides(db.messages[i], m);
      FindFinds(db.messages, i, Destination(inp), inp.sender, inp.clientId);
    }
  }

  lemma {:induction false} FindFinds(ms: seq<Message>, i: int, conv: string, sender: string, clientId: string)
    requires 0 <= i < |ms| && SameKey(ms[i], conv, sender, clientId)
    ensures FindByClient(ms, conv, sender, clientId).Some?
  {
    if !SameKey(ms[0], conv, sender, clientId) { FindFinds(ms[1..], i - 1, conv, sender, clientId); }
  }

  /** What is found is stored, under the key asked for. */
  lemma {:induction false} FoundIsStored(ms: seq<Message>, conv: string, sender: string, clientId: string)
    ensures var r := FindByClient(ms, conv, sender, clientId);
            r.Some? ==> r.value in ms && SameKey(r.value, conv, sender, clientId)
  {
    if ms != [] && !SameKey(ms[0], conv, sender, clientId) { FoundIsStored(ms[1..], conv, sender, clientId); }
  }

  // ---------------------------------------------------------------- user rows under Send

  lemma TouchRowKeeps(db: Db, owner: string, conv: string, peer: string, read: int, now: Time)
    requires RowsOk(db) && GroupsOk(db)
    requires conv in db.convs && !IsGroupConv(conv) && 0 <= read <= db.convs[conv].maxSeq
    ensures RowsOk(TouchRow(db, owner, conv, peer, read, now)) && GroupsOk(TouchRow(db, owner, conv, peer, read, now))
  {}

  /** Rows whose bounds stay the same keep the group invariant. */
  lemma SameBoundsKeepGroups(db: Db, db': Db)
    requires GroupsOk(db)
    requires db'.members == db.members && db'.rows.Keys == db.rows.Keys
    requires db.groups.Keys <= db'.groups.Keys
    requires forall k :: k in db.rows ==> db'.rows[k].maxSeq == db.rows[k].maxSeq
    requires forall g :: Group(g) in db'.convs ==> g in db'.groups
    ensures GroupsOk(db')
  {}

  lemma TouchMembersKeeps(db: Db, conv: string, now: Time)
    requires RowsOk(db) && GroupsOk(db)
    ensures RowsOk(TouchMembers(db, conv, now)) && GroupsOk(TouchMembers(db, conv, now))
  {}

  lemma AdvanceKeeps(db: Db, owner: string, conv: string, read: int)
    requires RowsOk(db) && GroupsOk(db)
    requires (owner, conv) in db.rows ==> read <= VisibleMax(db.rows[(owner, conv)], db.convs[conv].maxSeq)
    ensures RowsOk(AdvanceRead(db, owner, conv, read)) && GroupsOk(AdvanceRead(db, owner, conv, read))
  {}

  /** Growing conversations only widen what rows may reach. */
  lemma LargerConvsKeepRows(db: Db, db': Db)
    requires RowsOk(db) && db'.rows == db.rows
    requires forall c :: c in db.convs ==> c in db'.convs && db.convs[c].maxSeq <= db'.convs[c].maxSeq
    ensures RowsOk(db')
  {}

  lemma AppendKeeps(db: Db, inp: SendInput, m: Message, now: Time)
    requires RowsOk(db) && GroupsOk(db)
    requires m.conv == Destination(inp) && m.seqNo == Locked(db, m.conv, GroupIdOf(inp), now).maxSeq + 1
    requires inp.toGroup ==> inp.groupId in db.groups
    ensures RowsOk(Appended(db, inp, m, now)) && GroupsOk(Appended(db, inp, m, now))
  {
    var d := Appended(db, inp, m, now);
    LargerConvsKeepRows(db, d);
    forall g | Group(g) in d.convs ensures g in d.groups {
      if Group(g) !in db.convs {
        assert Group(g) == m.conv;
        if inp.toGroup { GroupInjective(g, inp.groupId); } else { SingleIsNotGroup(inp.sender, inp.recv, g); }
      }
    }
    SameBoundsKeepGroups(db, d);
  }

  lemma SendKeepsRows(db: Db, inp: SendInput, serverId: string, now: Time)
    requires DbOk(db)
    ensures RowsOk(SendTx(db, inp, serverId, now).0) && GroupsOk(SendTx(db, inp, serverId, now).0)
  {
    var (db', r) := SendTx(db, inp, serverId, now);
    if r.Committed? {
      var m := r.m;
      var d := Appended(db, inp, m, now);
      AppendKeeps(db, inp, m, now);
      assert db' == Touch(d, inp, m.seqNo, m.sendTime);
      var read := if inp.senderRead then m.seqNo else 0;
      if inp.toGroup {
        var t := TouchMembers(d, m.conv, m.sendTime);
        TouchMembersKeeps(d, m.conv, m.sendTime);
        assert (inp.groupId, inp.sender) in d.members;
        AdvanceKeeps(t, inp.sender, m.conv, read);
      } else {
        assert !IsGroupConv(m.conv) by { assert m.conv[1] == 'i'; }
        TouchRowKeeps(d, inp.sender, m.conv, inp.recv, read, m.sendTime);
        TouchRowKeeps(
          TouchRow(d, inp.sender, m.conv, inp.recv, read, m.sendTime), inp.recv, m.conv, inp.sender, 0, m.sendTime);
      }
    }
  }

  lemma SendKeeps(db: Db, inp: SendInput, serverId: string, now: Time)
    requires DbOk(db)
    ensures DbOk(SendTx(db, inp, serverId, now).0)
  {
    SendKeepsLog(db, inp, serverId, now);
    SendKeepsRows(db, inp, serverId, now);
  }

  // ---------------------------------------------------------------- membership transactions

  /** Opening a conversation with max_seq 0 changes neither the log nor any bound. */
  lemma LockKeeps(db: Db, g: string, now: Time)
    requires DbOk(db) && g in db.groups
    ensures DbOk(Lock(db, Group(g), g, now))
  {
    var d := Lock(db, Group(g), g, now);
    forall h | Group(h) in d.convs ensures h in d.groups {
      if Group(h) !in db.convs { GroupInjective(g, h); }
    }
    SameBoundsKeepGroups(db, d);
  }

  /** The database a group is created in, before its members. */
  ghost function Founded(db: Db, g: string, owner: string, now: Time): Db {
    Lock(db.(groups := db.groups[g := ChatGroup(owner, false)]), Group(g), g, now)
  }

  lemma FoundedOk(db: Db, g: string, owner: string, now: Time)
    requires DbOk(db) && g !in db.groups
    ensures DbOk(Founded(db, g, owner, now)) && Founded(db, g, owner, now).convs[Group(g)].maxSeq == 0
  {
    var named := db.(groups := db.groups[g := ChatGroup(owner, false)]);
    assert DbOk(named) by { SameBoundsKeepGroups(db, named); }
    LockKeeps(named, g, now);
  }

  lemma CreateKeepsLog(d: Db, d': Db)
    requires LogOk(d) && d'.messages == d.messages && d'.convs == d.convs
    ensures LogOk(d')
  {}

  lemma CreateKeeps(db: Db, g: string, owner: string, ids: seq<string>, now: Time)
    requires DbOk(db)
    ensures DbOk(CreateTx(db, g, owner, ids, now).0)
  {
    var (db', e) := CreateTx(db, g, owner, ids, now);
    if e.None? {
      var d := Founded(db, g, owner, now);
      assert DbOk(d) && d.convs[Group(g)].maxSeq == 0 by { FoundedOk(db, g, owner, now); }
      assert RowsOk(db') by { FirstRowsKeep(d, d.(rows := d.rows + FirstRows(g, ids, now)), g, ids, now); }
      assert GroupsOk(db') by { CreateKeepsGroups(d, g, owner, ids, now); }
      assert LogOk(db') by { CreateKeepsLog(d, db'); }
    }
  }

  lemma FirstRowsKeep(d: Db, d': Db, g: string, ids: seq<string>, now: Time)
    requires RowsOk(d) && Group(g) in d.convs && d.convs[Group(g)].maxSeq == 0
    requires d' == d.(rows := d.rows + FirstRows(g, ids, now))
    ensures RowsOk(d')
  {}

  lemma CreateKeepsGroups(d: Db, g: string, owner: string, ids: seq<string>, now: Time)
    requires GroupsOk(d) && g in d.groups
    ensures GroupsOk(
              d.(members := d.members + FirstMembers(g, owner, ids, now), rows := d.rows + FirstRows(g, ids, now)))
  {
    var d' := d.(members := d.members + FirstMembers(g, owner, ids, now), rows := d.rows + FirstRows(g, ids, now));
    forall h, u ensures (h, u) in d'.members <==> (u, Group(h)) in d'.rows && d'.rows[(u, Group(h))].maxSeq == 0 {
      if Group(h) == Group(g) { GroupInjective(h, g); }
    }
    forall h, u | (u, Group(h)) in d'.rows ensures h in d'.groups {
      if Group(h) == Group(g) { GroupInjective(h, g); }
    }
  }

  lemma JoinKeeps(db: Db, g: string, u: string, maxMembers: int, now: Time)
    requires DbOk(db) && g in db.groups
    ensures DbOk(JoinTx(db, g, u, maxMembers, now).0)
  {
    LockKeeps(db, g, now);
    var d := Lock(db, Group(g), g, now);
    if JoinTx(db, g, u, maxMembers, now).1.None? {
      EnterKeeps(d, g, u, Rejoined(d, g, u, d.convs[Group(g)].maxSeq, now), now);
    }
  }

  /** One member more, with a row that is open from past the last message on. */
  lemma EnterKeeps(d: Db, g: string, u: string, row: Row, now: Time)
    requires DbOk(d) && g in d.groups && Group(g) in d.convs
    requires row.minSeq == d.convs[Group(g)].maxSeq + 1 && row.maxSeq == 0 && row.readSeq == d.convs[Group(g)].maxSeq
    ensures DbOk(d.(members := d.members[(g, u) := Member(ROLE_MEMBER, now)], rows := d.rows[(u, Group(g)) := row]))
  {
    forall h | Group(h) == Group(g) ensures h == g { GroupInjective(h, g); }
  }

  lemma RemoveKeeps(db: Db, g: string, owner: string, operator: string, u: string, now: Time)
    requires DbOk(db) && g in db.groups
    ensures DbOk(RemoveTx(db, g, owner, operator, u, now).0)
  {
    LockKeeps(db, g, now);
    var d, k := Lock(db, Group(g), g, now), (u, Group(g));
    if RemoveTx(db, g, owner, operator, u, now).1.None? {
      var max := d.convs[Group(g)].maxSeq;
      LeaveKeeps(d, g, u, if max == 0 then d.rows - {k} else d.rows[k := d.rows[k].(maxSeq := max)]);
    }
  }

  /** One member less, whose row is gone or ends at the last message. */
  lemma LeaveKeeps(d: Db, g: string, u: string, rows: map<(string, string), Row>)
    requires DbOk(d) && (g, u) in d.members && Group(g) in d.convs
    requires var k := (u, Group(g)); var max := d.convs[Group(g)].maxSeq;
             if max == 0 then rows == d.rows - {k} else k in d.rows && rows == d.rows[k := d.rows[k].(maxSeq := max)]
    ensures DbOk(d.(members := d.members - {(g, u)}, rows := rows))
  {
    forall h | Group(h) == Group(g) ensures h == g { GroupInjective(h, g); }
  }
}
