/**
 The in-memory store and the services' transactions as they run: maps and the message list changed in place, row by
 row. Each method is proved to make the database what ChatModel says; a failed transaction restores every table.
 */
module ChatStore {
  import opened Common
  import opened ConvIds
  import opened ChatModel

  lemma {:induction false} FindFrom(ms: seq<Message>, i: nat, conv: string, sender: string, clientId: string)
    requires i <= |ms| && forall k :: 0 <= k < i ==> !SameKey(ms[k], conv, sender, clientId)
    ensures FindByClient(ms, conv, sender, clientId) == FindByClient(ms[i..], conv, sender, clientId)
  {
    if i > 0 {
      assert ms[1..][i - 1..] == ms[i..];
      FindFrom(ms[1..], i - 1, conv, sender, clientId);
    }
  }

  lemma {:induction false} VisibleSplit(db: Db, conv: string, ids: seq<string>, last: string, seqNo: int)
    ensures VisibleOwners(db, conv, ids + [last], seqNo)
            == VisibleOwners(db, conv, ids, seqNo) + VisibleOwners(db, conv, [last], seqNo)
  {
    if ids == [] {
      assert ids + [last] == [last];
    } else {
      assert (ids + [last])[1..] == ids[1..] + [last];
      VisibleSplit(db, conv, ids[1..], last, seqNo);
    }
  }

  lemma FirstRowsStep(g: string, ids: seq<string>, u: string, now: Time)
    ensures FirstRows(g, ids + [u], now) == FirstRows(g, ids, now)[(u, Group(g)) := Row("", g, 1, 0, 0, now)]
  {}

  lemma FirstMembersStep(g: string, owner: string, ids: seq<string>, u: string, now: Time)
    ensures FirstMembers(g, owner, ids + [u], now)
         == FirstMembers(g, owner, ids, now)[(g, u) := Member(if u == owner then ROLE_OWNER else ROLE_MEMBER, now)]
  {}

  lemma PutAfterMerge<K, V>(a: map<K, V>, b: map<K, V>, k: K, v: V)
    ensures (a + b)[k := v] == a + b[k := v]
  {}

  class Mem {
    var groups: map<string, ChatGroup>
    var members: map<(string, string), Member>
    var convs: map<string, Conversation>
    var rows: map<(string, string), Row>
    var messages: seq<Message>

    ghost function View(): Db
      reads this
    {
      Db(groups, members, convs, rows, messages)
    }

    constructor ()
      ensures View() == Db(map[], map[], map[], map[], [])
    {
      groups, members, convs, rows, messages := map[], map[], map[], map[], [];
    }

    // ---------------------------------------------------------------- rows

    method GetMessageByClientId(conv: string, sender: string, clientId: string) returns (r: Option<Message>)
      ensures r == FindByClient(messages, conv, sender, clientId)
    {
      for i := 0 to |messages|
        invariant forall k :: 0 <= k < i ==> !SameKey(messages[k], conv, sender, clientId)
      {
        FindFrom(messages, i, conv, sender, clientId);
        if SameKey(messages[i], conv, sender, clientId) { return Some(messages[i]); }
      }
      FindFrom(messages, |messages|, conv, sender, clientId);
      r := None;
    }

    /** Reports a collision on any unique key and stores nothing then. */
    method InsertMessage(m: Message) returns (inserted: bool)
      modifies this`messages
      ensures inserted <==> !Conflict(old(messages), m)
      ensures messages == if inserted then old(messages) + [m] else old(messages)
    {
      for i := 0 to |messages|
        invariant messages == old(messages) && forall k :: 0 <= k < i ==> !Collides(messages[k], m)
      {
        var cur := messages[i];
        if cur.serverId == m.serverId { return false; }
        var sameSeq := cur.seqNo == m.seqNo;
        var sameClient := cur.sender == m.sender && cur.clientId == m.clientId;
        if cur.conv == m.conv && (sameSeq || sameClient) { return false; }
      }
      messages := messages + [m];
      inserted := true;
    }

    /** Send only calls it on the row it locked; the map of this store would make a row for any other id. */
    method SetConversationMaxSeq(conv: string, seqNo: int, now: Time)
      modifies this`convs
      ensures conv in old(convs) ==> View() == SetMaxSeq(old(View()), conv, seqNo, now)
      ensures conv !in old(convs) ==> convs == old(convs)[conv := Conversation("", seqNo, now)]
    {
      var c := if conv in convs then convs[conv] else Conversation("", 0, now);
      convs := convs[conv := c.(maxSeq := seqNo, updatedAt := now)];
    }

    method ListMessages(conv: string, b: int, e: int, limit: nat) returns (out: seq<Message>)
      ensures out == ChatModel.ListMessages(View(), conv, b, e, limit)
    {
      out := [];
      for i := 0 to |messages|
        invariant out == InRange(messages[..i], conv, b, e)
      {
        assert messages[..i + 1][..i] == messages[..i];
        if messages[i].conv == conv && b <= messages[i].seqNo <= e { out := out + [messages[i]]; }
      }
      assert messages[..|messages|] == messages;
      out := SortBySeq(out);
      out := out[..if |out| < limit then |out| else limit];
    }

    method TouchUserConversation(owner: string, conv: string, peer: string, readSeq: int, now: Time)
      modifies this`rows
      ensures View() == TouchRow(old(View()), owner, conv, peer, readSeq, now)
    {
      var cur := if (owner, conv) in rows then rows[(owner, conv)] else Row(peer, "", 1, 0, 0, now);
      cur := cur.(updatedAt := if cur.updatedAt > now then cur.updatedAt else now,
                  readSeq := if cur.readSeq >= readSeq then cur.readSeq else readSeq);
      rows := rows[(owner, conv) := cur];
    }

    method TouchConversationMembers(conv: string, now: Time)
      modifies this`rows
      ensures View() == TouchMembers(old(View()), conv, now)
    {
      var rest := rows.Keys;
      while rest != {}
        invariant rest <= old(rows).Keys == rows.Keys
        invariant forall k :: k in rows ==>
          rows[k] == if k in rest then old(rows)[k] else TouchMembers(old(View()), conv, now).rows[k]
      {
        var k :| k in rest;
        rest := rest - {k};
        var r := rows[k];
        if k.1 == conv && r.maxSeq == 0 && now > r.updatedAt { rows := rows[k := r.(updatedAt := now)]; }
      }
    }

    method AdvanceReadSeq(owner: string, conv: string, readSeq: int)
      modifies this`rows
      ensures View() == AdvanceRead(old(View()), owner, conv, readSeq)
    {
      if (owner, conv) in rows {
        var r := rows[(owner, conv)];
        rows := rows[(owner, conv) := r.(readSeq := if r.readSeq >= readSeq then r.readSeq else readSeq)];
      }
    }

    method LockConversation(conv: string, groupId: string, now: Time) returns (c: Conversation)
      modifies this`convs
      ensures c == Locked(old(View()), conv, groupId, now) && View() == Lock(old(View()), conv, groupId, now)
    {
      if conv !in convs { convs := convs[conv := Conversation(groupId, 0, now)]; }
      c := convs[conv];
      assert convs == old(convs)[conv := c];
    }

    /** The ids whose row covers the seq, in the order given. */
    method VisibleOwners(conv: string, ids: seq<string>, seqNo: int) returns (out: seq<string>)
      ensures out == ChatModel.VisibleOwners(View(), conv, ids, seqNo)
    {
      out := [];
      for i := 0 to |ids|
        invariant out == ChatModel.VisibleOwners(View(), conv, ids[..i], seqNo)
      {
        VisibleSplit(View(), conv, ids[..i], ids[i], seqNo);
        assert ids[..i] + [ids[i]] == ids[..i + 1];
        if (ids[i], conv) in rows {
          var r := rows[(ids[i], conv)];
          if r.minSeq <= seqNo && (r.maxSeq == 0 || seqNo <= r.maxSeq) { out := out + [ids[i]]; }
        }
      }
      assert ids[..|ids|] == ids;
    }

    method CountGroupMembers(g: string) returns (n: nat)
      ensures n == |MembersOf(View(), g)|
    {
      var rest := members.Keys;
      ghost var counted: set<(string, string)> := {};
      n := 0;
      while rest != {}
        invariant rest <= members.Keys && n == |counted| && counted == set k | k in members && k !in rest && k.0 == g
      {
        var k :| k in rest;
        rest := rest - {k};
        if k.0 == g { n := n + 1; counted := counted + {k}; }
      }
      assert counted == MembersOf(View(), g);
    }

    method InsertRows(g: string, ids: seq<string>, now: Time)
      modifies this`rows
      ensures rows == old(rows) + FirstRows(g, ids, now)
    {
      assert FirstRows(g, ids[..0], now) == map[];
      for i := 0 to |ids|
        invariant rows == old(rows) + FirstRows(g, ids[..i], now)
      {
        assert ids[..i] + [ids[i]] == ids[..i + 1];
        FirstRowsStep(g, ids[..i], ids[i], now);
        PutAfterMerge(old(rows), FirstRows(g, ids[..i], now), (ids[i], Group(g)), Row("", g, 1, 0, 0, now));
        rows := rows[(ids[i], Group(g)) := Row("", g, 1, 0, 0, now)];
      }
      assert ids[..|ids|] == ids;
    }

    method InsertMembers(g: string, owner: string, ids: seq<string>, now: Time)
      modifies this`members
      ensures members == old(members) + FirstMembers(g, owner, ids, now)
    {
      assert FirstMembers(g, owner, ids[..0], now) == map[];
      for i := 0 to |ids|
        invariant members == old(members) + FirstMembers(g, owner, ids[..i], now)
      {
        assert ids[..i] + [ids[i]] == ids[..i + 1];
        var m := Member(if ids[i] == owner then ROLE_OWNER else ROLE_MEMBER, now);
        FirstMembersStep(g, owner, ids[..i], ids[i], now);
        PutAfterMerge(old(members), FirstMembers(g, owner, ids[..i], now), (g, ids[i]), m);
        members := members[(g, ids[i]) := m];
      }
      assert ids[..|ids|] == ids;
    }

    /** One bulk insert: nothing is stored when an owner is named twice or already has a row. */
    method CreateUserConversations(g: string, ids: seq<string>, now: Time) returns (ok: bool)
      modifies this`rows
      ensures ok <==> NoRepeat(ids) && forall u :: u in ids ==> (u, Group(g)) !in old(rows)
      ensures rows == if ok then old(rows) + FirstRows(g, ids, now) else old(rows)
    {
      var seen: set<string> := {};
      for i := 0 to |ids|
        invariant rows == old(rows) && (forall k :: 0 <= k < i ==> (ids[k], Group(g)) !in rows)
        invariant NoRepeat(ids[..i]) && forall u :: u in seen <==> u in ids[..i]
      {
        if (ids[i], Group(g)) in rows { return false; }
        if ids[i] in seen { return false; }
        seen := seen + {ids[i]};
        assert ids[..i + 1][..i] == ids[..i];
      }
      assert ids[..|ids|] == ids;
      InsertRows(g, ids, now);
      ok := true;
    }

    method CreateGroup(g: string, owner: string, ids: seq<string>, now: Time) returns (ok: bool)
      modifies this`groups, this`members
      ensures ok <==> g !in old(groups)
      ensures groups == if ok then old(groups)[g := ChatGroup(owner, false)] else old(groups)
      ensures members == if ok then old(members) + FirstMembers(g, owner, ids, now) else old(members)
    {
      if g in groups { return false; }
      groups := groups[g := ChatGroup(owner, false)];
      InsertMembers(g, owner, ids, now);
      ok := true;
    }

    /**
     Bounds, cursor and sort key come from the row; an existing row keeps its peer and group, and every other row is
     left alone.
     */
    method UpsertUserConversation(owner: string, conv: string, row: Row)
      modifies this`rows
      ensures rows.Keys == old(rows).Keys + {(owner, conv)} && forall k :: k in old(rows) && k != (owner, conv) ==>
              rows[k] == old(rows)[k]
      ensures var r := rows[(owner, conv)];
              r.minSeq == row.minSeq && r.maxSeq == row.maxSeq && r.readSeq == row.readSeq
                && r.updatedAt == row.updatedAt
      ensures (owner, conv) in old(rows) ==>
              var r, was := rows[(owner, conv)], old(rows)[(owner, conv)];
              r.peer == was.peer && r.groupId == was.groupId
      ensures (owner, conv) !in old(rows) ==> rows[(owner, conv)] == row
    {
      var cur := if (owner, conv) in rows then rows[(owner, conv)] else row;
      rows := rows[(owner, conv) := cur.(minSeq := row.minSeq, maxSeq := row.maxSeq, readSeq := row.readSeq,
        updatedAt := row.updatedAt)];
    }

    // ---------------------------------------------------------------- transactions

    method CheckMembership(g: string, u: string) returns (e: Option<Error>)
      ensures e == CheckGroupSend(View(), g, u)
    {
      if g !in groups { return Some(SendFailed); }
      if groups[g].dismissed { return Some(GroupDismissed); }
      if (g, u) !in members { return Some(NotGroupMember); }
      e := None;
    }

    method TouchConversations(inp: SendInput, seqNo: int, at: Time)
      modifies this`rows
      ensures View() == Touch(old(View()), inp, seqNo, at)
    {
      var conv := if inp.toGroup then Group(inp.groupId) else Single(inp.sender, inp.recv);
      var read := if inp.senderRead then seqNo else 0;
      if !inp.toGroup {
        TouchUserConversation(inp.sender, conv, inp.recv, read, at);
        TouchUserConversation(inp.recv, conv, inp.sender, 0, at);
      } else {
        TouchConversationMembers(conv, at);
        if read != 0 { AdvanceReadSeq(inp.sender, conv, read); }
      }
    }

    /** Send's transaction: lock, re-check membership, assign the next seq, insert, touch; anything else rolls back. */
    method SendInTx(inp: SendInput, serverId: string, arrived: Time) returns (outcome: SendOutcome)
      modifies this
      ensures (View(), outcome) == SendTx(old(View()), inp, serverId, arrived)
    {
      var conv := if inp.toGroup then Group(inp.groupId) else Single(inp.sender, inp.recv);
      var convs0 := convs;
      var c := LockConversation(conv, GroupIdOf(inp), arrived);
      if inp.toGroup {
        var refused := CheckMembership(inp.groupId, inp.sender);
        if refused.Some? { convs := convs0; return Rejected(refused.value); }
      }
      var now := if c.updatedAt > arrived then c.updatedAt else arrived;
      var m := NewMessage(inp, serverId, c.maxSeq + 1, now);
      var inserted := InsertMessage(m);
      if !inserted { convs := convs0; return Collision; }
      Record(inp, m);
      outcome := Committed(m);
    }

    /** What follows an insert: the new max_seq, and the rows of those who see the message. */
    method Record(inp: SendInput, m: Message)
      requires m.conv in convs
      modifies this`convs, this`rows
      ensures View() == Touch(SetMaxSeq(old(View()), m.conv, m.seqNo, m.sendTime), inp, m.seqNo, m.sendTime)
    {
      SetConversationMaxSeq(m.conv, m.seqNo, m.sendTime);
      TouchConversations(inp, m.seqNo, m.sendTime);
    }

    /** Create's transaction. The service hands it ids without repetitions (lo.Uniq); a repetition would be refused. */
    method CreateInTx(g: string, owner: string, ids: seq<string>, now: Time) returns (e: Option<Error>)
      modifies this
      ensures (View(), e) == if NoRepeat(ids) then CreateTx(old(View()), g, owner, ids, now)
              else (old(View()), Some(Duplicate))
    {
      var groups0, members0, convs0 := groups, members, convs;
      var created := CreateGroup(g, owner, ids, now);
      if !created { return Some(Duplicate); }
      var _ := LockConversation(Group(g), g, now);
      var stored := CreateUserConversations(g, ids, now);
      if !stored {
        groups, members, convs := groups0, members0, convs0;
        return Some(Duplicate);
      }
      e := None;
    }

    method JoinInTx(g: string, u: string, maxMembers: int, now: Time) returns (e: Option<Error>)
      modifies this
      ensures (View(), e) == JoinTx(old(View()), g, u, maxMembers, now)
    {
      var convs0 := convs;
      var c := LockConversation(Group(g), g, now);
      if (g, u) in members { convs := convs0; return Some(AlreadyGroupMember); }
      var n := CountGroupMembers(g);
      if n >= maxMembers { convs := convs0; return Some(GroupFull); }
      members := members[(g, u) := Member(ROLE_MEMBER, now)];
      UpsertUserConversation(u, Group(g), Row("", g, c.maxSeq + 1, 0, c.maxSeq, now));
      assert rows == old(rows)[(u, Group(g)) := Rejoined(old(View()), g, u, c.maxSeq, now)];
      e := None;
    }

    /** The checks a kick makes before it removes anyone. */
    method CheckKick(g: string, owner: string, operator: string, u: string) returns (e: Option<Error>)
      ensures e == KickRefused(View(), g, owner, operator, u)
    {
      if operator == u { return None; }
      if (g, operator) !in members { return Some(NotGroupMember); }
      if members[(g, operator)].role < ROLE_ADMIN { return Some(NotGroupAdmin); }
      if (g, u) !in members { return Some(NotGroupMember); }
      if u == owner { return Some(CannotKickOwner); }
      if members[(g, operator)].role == ROLE_ADMIN && members[(g, u)].role >= ROLE_ADMIN { return Some(NoPermission); }
      e := None;
    }

    /** remove's transaction, for Quit (operator is the user) and Kick. */
    method RemoveInTx(g: string, owner: string, operator: string, u: string, now: Time) returns (e: Option<Error>)
      modifies this
      ensures (View(), e) == RemoveTx(old(View()), g, owner, operator, u, now)
    {
      var convs0 := convs;
      var c := LockConversation(Group(g), g, now);
      var refused := CheckKick(g, owner, operator, u);
      if refused.Some? { convs := convs0; return refused; }
      if (g, u) !in members { convs := convs0; return Some(NotGroupMember); }
      members := members - {(g, u)};
      if c.maxSeq == 0 {
        rows := rows - {(u, Group(g))};
      } else if (u, Group(g)) in rows {
        rows := rows[(u, Group(g)) := rows[(u, Group(g))].(maxSeq := c.maxSeq)];
      }
      e := None;
    }
  }
}
