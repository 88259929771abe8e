/** What one send does, said without its code: when it commits, what it stores, and whose cursor it moves. */
module ChatEffects {
  import opened ConvIds
  import opened ChatModel
  import opened ChatInvariants
  import opened ChatRuns

  // ---------------------------------------------------------------- send

  predicate Entitled(db: Db, inp: SendInput) {
    inp.toGroup ==>
      && inp.groupId in db.groups && !db.groups[inp.groupId].dismissed
      && (inp.groupId, inp.sender) in db.members
  }

  predicate IdUsed(ms: seq<Message>, serverId: string) { exists i :: 0 <= i < |ms| && ms[i].serverId == serverId }

  /** On a gapless log only the client key or the server id can collide, never the seq. */
  lemma ConflictIs(db: Db, m: Message)
    requires LogOk(db) && (forall i :: 0 <= i < |db.messages| && db.messages[i].conv == m.conv ==>
             db.messages[i].seqNo < m.seqNo)
    ensures Conflict(db.messages, m) <==>
            IdUsed(db.messages, m.serverId) || FindByClient(db.messages, m.conv, m.sender, m.clientId).Some?
  {
    FoundIsStored(db.messages, m.conv, m.sender, m.clientId);
    if Conflict(db.messages, m) {
      var i :| 0 <= i < |db.messages| && Collides(db.messages[i], m);
      if db.messages[i].serverId != m.serverId { FindFinds(db.messages, i, m.conv, m.sender, m.clientId); }
    }
    if IdUsed(db.messages, m.serverId) {
      var i :| 0 <= i < |db.messages| && db.messages[i].serverId == m.serverId;
      assert Collides(db.messages[i], m);
    }
  }

  /**
   A send commits exactly when the sender is entitled and the request and the server id are new; then it takes
   max_seq + 1.
   */
  lemma SendCommits(db: Db, inp: SendInput, serverId: string, now: Time)
    requires LogOk(db)
    ensures var (db', r) := SendTx(db, inp, serverId, now);
            && (r.Rejected? <==> !Entitled(db, inp))
            && (r.Committed? <==> Entitled(db, inp) && !IdUsed(db.messages, serverId)
                                  && FindByClient(db.messages, Destination(inp), inp.sender, inp.clientId).None?)
            && (r.Committed? ==> r.m.seqNo == MaxSeqOf(db, r.m.conv) + 1 && db'.messages == db.messages + [r.m]
                                 && MaxSeqOf(db', r.m.conv) == r.m.seqNo && r.m.sendTime >= now)
            && (!r.Committed? ==> db' == db)
  {
    var c := Locked(db, Destination(inp), GroupIdOf(inp), now);
    var m := NewMessage(inp, serverId, c.maxSeq + 1, Max(c.updatedAt, now));
    forall i | 0 <= i < |db.messages| && db.messages[i].conv == m.conv ensures db.messages[i].seqNo < m.seqNo {
      assert db.messages[i].conv in db.convs;
    }
    ConflictIs(db, m);
    var (db', r) := SendTx(db, inp, serverId, now);
    if r.Committed? { TouchKeepsLog(Appended(db, inp, m, now), inp, m.seqNo, m.sendTime); }
  }

  /** The stored message says what was asked, in the conversation of its two parties or its group. */
  lemma SendStoresRequest(db: Db, inp: SendInput, serverId: string, now: Time)
    requires SendTx(db, inp, serverId, now).1.Committed?
    ensures var m := SendTx(db, inp, serverId, now).1.m;
            && m.sender == inp.sender && m.clientId == inp.clientId && m.content == inp.content
               && m.serverId == serverId
            && (inp.toGroup ==> m.conv == Group(inp.groupId) && m.groupId == inp.groupId && m.recv == "")
            && (!inp.toGroup ==> m.conv == Single(inp.recv, inp.sender) && m.recv == inp.recv && m.groupId == "")
  {
    SortedForgetsOrder(inp.sender, inp.recv, inp.recv, inp.sender);
  }

  lemma TouchMovesOneCursor(d: Db, inp: SendInput, n: int, at: Time, k: (string, string))
    requires n >= 1 && (forall j :: j in d.rows ==> 0 <= d.rows[j].readSeq)
             && (k in d.rows && k.1 == Destination(inp) ==> d.rows[k].readSeq <= n)
    ensures ReadOf(Touch(d, inp, n, at), k)
         == if k == (inp.sender, Destination(inp)) && inp.senderRead && (inp.toGroup ==> k in d.rows) then n
            else ReadOf(d, k)
  {}

  /** Only the sender's own cursor moves, only if asked to, and to the new message. */
  lemma SendMovesOneCursor(db: Db, inp: SendInput, serverId: string, now: Time, k: (string, string))
    requires DbOk(db) && SendTx(db, inp, serverId, now).1.Committed?
    ensures var (db', r) := SendTx(db, inp, serverId, now);
            ReadOf(db', k)
              == if k == (inp.sender, r.m.conv) && inp.senderRead && (inp.toGroup ==> k in db.rows) then r.m.seqNo
                 else ReadOf(db, k)
  {
    var m := SendTx(db, inp, serverId, now).1.m;
    var d := Appended(db, inp, m, now);
    forall j | j in d.rows ensures 0 <= d.rows[j].readSeq { assert RowOk(db.rows[j], db.convs[j.1].maxSeq); }
    if k in db.rows { assert RowOk(db.rows[k], db.convs[k.1].maxSeq); }
    TouchMovesOneCursor(d, inp, m.seqNo, m.sendTime, k);
  }
}
