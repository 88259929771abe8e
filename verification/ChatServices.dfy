/** The message, group and conversation services: what a caller gets back and what it leaves in the store. */
module ChatServices {
  import opened Common
  import opened ConvIds
  import opened ChatModel
  import opened ChatInvariants
  import opened ChatStore
  import Identity

  datatype Result<+T> = Ok(value: T) | Err(error: Error)

  /** lo.Uniq: the first occurrence of each id, in order. */
  method Uniq(ids: seq<string>) returns (out: seq<string>)
    ensures NoRepeat(out) && forall u :: u in out <==> u in ids
  {
    out := [];
    for i := 0 to |ids|
      invariant NoRepeat(out) && forall u :: u in out <==> u in ids[..i]
    {
      if ids[i] !in out { out := out + [ids[i]]; }
    }
    assert ids[..|ids|] == ids;
  }

  // ---------------------------------------------------------------- group.Create

  /** The bytes of a new group's texts. */
  datatype GroupText = GroupText(name: string, avatar: string, introduction: string, extra: string)

  predicate TextFits(t: GroupText) {
    0 < |t.name| <= 255 && |t.avatar| <= 1024 && |t.introduction| <= 1024 && |t.extra| <= 65535
  }

  function People(owner: string, memberIds: seq<string>): set<string> { {owner} + set u | u in memberIds }

  /** Why these people may not start a group, in the order the service looks. */
  ghost function CreateRefused(text: GroupText, ids: set<string>, maxMembers: int, users: set<string>): Option<Error> {
    if !TextFits(text) || exists u :: u in ids && !Identity.Valid(u) then Some(InvalidParam)
    else if |ids| > maxMembers then Some(GroupFull)
    else if !(ids <= users) then Some(UserNotFound)
    else None
  }

  lemma {:induction false} NoRepeatSize(s: seq<string>)
    requires NoRepeat(s)
    ensures |set u | u in s| == |s|
  {
    if s != [] {
      NoRepeatSize(s[1..]);
      assert (set u | u in s) == (set u | u in s[1..]) + {s[0]};
    }
  }

  /** GetUsers: how many of the ids belong to a user; all of them exactly when each does. */
  method CountUsers(ids: seq<string>, users: set<string>) returns (n: nat)
    ensures n <= |ids| && (n == |ids| <==> forall u :: u in ids ==> u in users)
  {
    n := 0;
    for i := 0 to |ids|
      invariant n <= i && (n == i <==> forall u :: u in ids[..i] ==> u in users)
    {
      if ids[i] in users { n := n + 1; }
    }
    assert ids[..|ids|] == ids;
  }

  /** The ids a new group starts with, each once, or why it may not start. */
  method Roster(text: GroupText, owner: string, memberIds: seq<string>, maxMembers: int, users: set<string>)
    returns (r: Result<seq<string>>)
    ensures var ids := People(owner, memberIds);
            if CreateRefused(text, ids, maxMembers, users).Some? then
              r == Err(CreateRefused(text, ids, maxMembers, users).value)
            else r.Ok? && NoRepeat(r.value) && forall u :: u in r.value <==> u in ids
  {
    if !TextFits(text) { return Err(InvalidParam); }
    var ids := Uniq([owner] + memberIds);
    ghost var all := People(owner, memberIds);
    assert (set u | u in ids) == all;
    NoRepeatSize(ids);
    for i := 0 to |ids|
      invariant forall k :: 0 <= k < i ==> Identity.Valid(ids[k])
    {
      if !Identity.Valid(ids[i]) {
        assert ids[i] in all;
        return Err(InvalidParam);
      }
    }
    if |ids| > maxMembers { return Err(GroupFull); }
    var n := CountUsers(ids, users);
    if n != |ids| { return Err(UserNotFound); }
    r := Ok(ids);
  }

  /** group.Create; g is the fresh group id and users are the ids the store has a user for. */
  method Create(
    st: Mem, users: set<string>, g: string, text: GroupText, owner: string, memberIds: seq<string>, maxMembers: int,
    now: Time)
    returns (r: Result<seq<string>>)
    modifies st
    ensures r.Err? ==> st.View() == old(st.View())
    ensures var refused := CreateRefused(text, People(owner, memberIds), maxMembers, users);
            if refused.Some? then r == Err(refused.value) else r.Ok? || r == Err(StoreFailed)
    ensures r.Ok? ==> NoRepeat(r.value) && (forall u :: u in r.value <==> u in People(owner, memberIds))
                      && CreateTx(old(st.View()), g, owner, r.value, now) == (st.View(), None)
  {
    r := Roster(text, owner, memberIds, maxMembers, users);
    if r.Err? { return; }
    var e := st.CreateInTx(g, owner, r.value, now);
    if e.Some? { r := Err(StoreFailed); }
  }

  // ---------------------------------------------------------------- message.Send

  /** The ack carries the server id, conversation, seq and time of the message. */
  predicate Reports(ack: Ack, m: Message) {
    ack.serverId == m.serverId && ack.conv == m.conv && ack.seqNo == m.seqNo && ack.sendTime == m.sendTime
  }

  /**
   Send once its pre-check found no stored message: the transaction, the re-read after a collision, and what is
   published.
   */
  method Commit(st: Mem, inp: SendInput, serverId: string, now: Time)
    returns (r: Result<Ack>, published: Option<Message>)
    modifies st
    ensures var (db', outcome) := SendTx(old(st.View()), inp, serverId, now);
            var found := FindByClient(old(st.messages), Destination(inp), inp.sender, inp.clientId);
            match outcome
            case Committed(m) => st.View() == db' && r == Ok(AckOf(m)) && published == Some(m)
            case Rejected(e) => st.View() == old(st.View()) && r == Err(e) && published == None
            case Collision => st.View() == old(st.View()) && published == found
                              && r == if found.Some? then Ok(AckOf(found.value)) else Err(SeqAllocFailed)
    ensures r.Ok? ==> published.Some? && Reports(r.value, published.value)
  {
    var outcome := st.SendInTx(inp, serverId, now);
    match outcome
    case Committed(m) => r, published := Ok(AckOf(m)), Some(m);
    case Rejected(e) => r, published := Err(e), None;
    case Collision =>
      published := st.GetMessageByClientId(Destination(inp), inp.sender, inp.clientId);
      r := if published.Some? then Ok(AckOf(published.value)) else Err(SeqAllocFailed);
  }

  /**
   What validate finds out about the text of a request: a client id ending in whitespace, an unknown content type,
   content that is JSON.
   */
  datatype Form = Form(padded: bool, knownType: bool, isJson: bool)

  /** validate, in its order. */
  function Invalid(inp: SendInput, form: Form, maxContent: int): Option<Error> {
    if inp.clientId == "" || |inp.clientId| > 64 || form.padded then Some(InvalidParam)
    else if !inp.toGroup && (!Identity.Valid(inp.recv) || inp.recv == inp.sender) then Some(InvalidParam)
    else if inp.toGroup && inp.groupId == "" then Some(InvalidParam)
    else if !form.knownType then Some(InvalidParam)
    else if |inp.content| > maxContent then Some(ContentTooLong)
    else if !form.isJson then Some(InvalidParam)
    else None
  }

  /** What Send says before it looks for a stored message. */
  function SendRefused(db: Db, users: set<string>, inp: SendInput, form: Form, maxContent: int): Option<Error> {
    if Invalid(inp, form, maxContent).Some? then Invalid(inp, form, maxContent)
    else if !inp.toGroup && inp.recv !in users then Some(UserNotFound)
    else if inp.toGroup && inp.groupId !in db.groups then Some(GroupNotFound)
    else None
  }

  /** A request whose text, target and body are in order. */
  predicate InOrder(inp: SendInput, form: Form, maxContent: int) {
    && 1 <= |inp.clientId| <= 64 && !form.padded && form.knownType && form.isJson && |inp.content| <= maxContent
    && (if inp.toGroup then inp.groupId != "" else Identity.Valid(inp.recv) && inp.recv != inp.sender)
  }

  /** What Send refuses before it looks for a stored message, and with which error. */
  lemma SendRefusals(db: Db, users: set<string>, inp: SendInput, form: Form, maxContent: int)
    ensures var e := SendRefused(db, users, inp, form, maxContent);
            var there := if inp.toGroup then inp.groupId in db.groups else inp.recv in users;
            && (e.None? <==> InOrder(inp, form, maxContent) && there)
            && (e == Some(UserNotFound) <==> InOrder(inp, form, maxContent) && !there && !inp.toGroup)
            && (e == Some(GroupNotFound) <==> InOrder(inp, form, maxContent) && !there && inp.toGroup)
            && (e == Some(ContentTooLong) <==>
                  maxContent < |inp.content| && InOrder(inp.(content := ""), form.(isJson := true), Max(0, maxContent)))
            && (e.None? || e.value in {InvalidParam, ContentTooLong, UserNotFound, GroupNotFound})
  {}

  /** Who may start a group, and why others may not. */
  lemma CreateRefusals(text: GroupText, ids: set<string>, maxMembers: int, users: set<string>)
    ensures var e := CreateRefused(text, ids, maxMembers, users);
            var fits := 1 <= |text.name| <= 255 && |text.avatar| <= 1024 && |text.introduction| <= 1024
                        && |text.extra| <= 65535;
            var valid := forall u :: u in ids ==> Identity.Valid(u);
            && (e == Some(InvalidParam) <==> !fits || !valid)
            && (e == Some(GroupFull) <==> fits && valid && maxMembers < |ids|)
            && (e == Some(UserNotFound) <==>
                  fits && valid && |ids| <= maxMembers && exists u :: u in ids && u !in users)
            && (e.None? <==> fits && valid && |ids| <= maxMembers && forall u :: u in ids ==> u in users)
  {}

  predicate Answers(ms: seq<Message>, inp: SendInput, m: Message) {
    m in ms && SameKey(m, Destination(inp), inp.sender, inp.clientId)
  }

  /**
   message.Send: an ack is always the ack of a stored message under the request's key, and what is published is that
   message. A retry changes nothing and needs no quota for its ack; only its republication does, and the right to send.
   */
  method Send(
    st: Mem, users: set<string>, inp: SendInput, form: Form, maxContent: int, quota: bool, serverId: string, now: Time)
    returns (r: Result<Ack>, published: Option<Message>)
    modifies st
    ensures r.Err? ==> st.View() == old(st.View()) && published.None?
    ensures r.Ok? ==> exists m ::
            && Answers(st.messages, inp, m) && Reports(r.value, m)
            && (published.Some? ==> published.value == m)
    ensures st.messages != old(st.messages) ==>
              && r.Ok? && published.Some? && st.messages == old(st.messages) + [published.value]
              && r.value.serverId == serverId && published.value.content == inp.content
              && r.value.conv == (if inp.toGroup then Group(inp.groupId) else Single(inp.sender, inp.recv))
              && r.value.seqNo == MaxSeqOf(old(st.View()), r.value.conv) + 1 && now <= r.value.sendTime
    ensures var refused := SendRefused(old(st.View()), users, inp, form, maxContent);
            var found := FindByClient(old(st.messages), Destination(inp), inp.sender, inp.clientId);
            && (refused.Some? ==> r == Err(refused.value))
            && (refused.None? && found.Some? ==>
                  && st.View() == old(st.View()) && r == Ok(AckOf(found.value))
                  && (published.Some? <==>
                       && quota
                       && (inp.toGroup ==> CheckGroupSend(old(st.View()), inp.groupId, inp.sender).None?)))
            && (refused.None? && found.None? && !quota ==> r == Err(TooManyRequests))
            && (refused.None? && found.None? && quota ==>
                  match SendTx(old(st.View()), inp, serverId, now).1
                  case Committed(m) => r == Ok(AckOf(m)) && published == Some(m)
                    && st.View() == SendTx(old(st.View()), inp, serverId, now).0
                  case Rejected(e) => r == Err(e)
                  case Collision => r == Err(SeqAllocFailed))
  {
    published := None;
    var invalid := Invalid(inp, form, maxContent);
    if invalid.Some? { return Err(invalid.value), None; }
    if !inp.toGroup && inp.recv !in users { return Err(UserNotFound), None; }
    if inp.toGroup && inp.groupId !in st.groups { return Err(GroupNotFound), None; }
    var hit := st.GetMessageByClientId(Destination(inp), inp.sender, inp.clientId);
    if hit.Some? {
      FoundIsStored(st.messages, Destination(inp), inp.sender, inp.clientId);
      assert Answers(st.messages, inp, hit.value);
      var denied: Option<Error> := None;
      if inp.toGroup { denied := st.CheckMembership(inp.groupId, inp.sender); }
      if denied.None? && quota { published := hit; }
      return Ok(AckOf(hit.value)), published;
    }
    if !quota { return Err(TooManyRequests), None; }
    ghost var before := st.View();
    r, published := Commit(st, inp, serverId, now);
    if r.Ok? { CommittedIsStored(before, inp, serverId, now); }
    assert st.messages == st.View().messages && before.messages == old(st.messages);
  }

  lemma CommittedIsStored(db: Db, inp: SendInput, serverId: string, now: Time)
    requires SendTx(db, inp, serverId, now).1.Committed?
    ensures var (db', r) := SendTx(db, inp, serverId, now);
            Answers(db'.messages, inp, r.m) && db'.messages == db.messages + [r.m]
  {
    var m := SendTx(db, inp, serverId, now).1.m;
    TouchKeepsLog(Appended(db, inp, m, now), inp, m.seqNo, m.sendTime);
  }

  /**
   conversation.MarkRead when nothing else runs: the cursor goes to what was asked for and is visible, never back, and
   everything is read after a call at or past the visible end.
   */
  method MarkRead(st: Mem, u: string, conv: string, readSeq: int) returns (r: Result<int>)
    modifies st
    ensures r.Err? ==> st.View() == old(st.View())
    ensures r == Err(InvalidParam) <==> readSeq < 1
    ensures r == Err(NoPermission) <==> readSeq >= 1 && ((u, conv) !in old(st.rows) || conv !in old(st.convs))
    ensures readSeq >= 1 && (u, conv) in old(st.rows) && conv in old(st.convs) ==>
              var row, top := old(st.rows)[(u, conv)], VisibleMax(old(st.rows)[(u, conv)], old(st.convs)[conv].maxSeq);
              && r == Ok(Max(row.readSeq, Min(readSeq, top)))
              && st.View() == old(st.View()).(rows := old(st.rows)[(u, conv) := row.(readSeq := r.value)])
              && (top <= readSeq ==> Unread(st.rows[(u, conv)], st.convs[conv].maxSeq) == 0)
    ensures match PlanRead(old(st.View()), u, conv, readSeq)
            case ReadRefused(e) => r == Err(e) && st.View() == old(st.View())
            case ReadDone(cur) => r == Ok(cur) && st.View() == old(st.View())
            case ReadTo(target) =>
              && r == Ok(target) && st.View() == AdvanceRead(old(st.View()), u, conv, target)
              && (u, conv) in st.rows && st.rows[(u, conv)].readSeq == target
  {
    if readSeq < 1 { return Err(InvalidParam); }
    if (u, conv) !in st.rows || conv !in st.convs { return Err(NoPermission); }
    var row := st.rows[(u, conv)];
    var target := Min(readSeq, VisibleMax(row, st.convs[conv].maxSeq));
    if target <= row.readSeq { return Ok(row.readSeq); }
    st.AdvanceReadSeq(u, conv, target);
    r := Ok(target);
  }

  /** Pull's page of a visible range. */
  method Page(st: Mem, conv: string, b: int, e: int, n: nat) returns (r: PullResult)
    ensures r == if b > e then Pulled([], false)
                 else var found := ListMessages(st.View(), conv, b, e, n + 1);
                   Pulled(found[..Min(|found|, n)], |found| > n)
  {
    if b > e { return Pulled([], false); }
    var found := st.ListMessages(conv, b, e, n + 1);
    r := Pulled(found[..Min(|found|, n)], |found| > n);
  }

  /** message.Pull. */
  method Pull(st: Mem, u: string, conv: string, begin: int, end: int, limit: int, pageMax: int) returns (r: PullResult)
    ensures r == ChatModel.Pull(st.View(), u, conv, begin, end, limit, pageMax)
  {
    if begin < 1 || end < begin { return PullRefused(InvalidParam); }
    var n := PageLimit(limit, pageMax);
    if (u, conv) !in st.rows || conv !in st.convs { return PullRefused(NoPermission); }
    var row := st.rows[(u, conv)];
    r := Page(st, conv, Max(begin, row.minSeq), Min(end, VisibleMax(row, st.convs[conv].maxSeq)), n);
  }
}
