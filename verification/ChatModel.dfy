/**
 The chat database and its transactions as values: the row semantics of the store
 (internal/store/storetest/mem_message.go, mem_group.go and the SQL they mirror) and the message,
 group and conversation services on top of it. A transaction that fails leaves the database as it was.
 */
module ChatModel {
  import opened Common
  import opened ConvIds

  type Time = int

  const ROLE_MEMBER := 1
  const ROLE_ADMIN := 2
  const ROLE_OWNER := 3

  datatype Message = Message(
    conv: string, seqNo: int, serverId: string, clientId: string, sender: string,
    recv: string, groupId: string, content: string, sendTime: Time)
  datatype Conversation = Conversation(groupId: string, maxSeq: int, updatedAt: Time)
  /** A user_conversations row: maxSeq 0 means "no upper bound". */
  datatype Row = Row(peer: string, groupId: string, minSeq: int, maxSeq: int, readSeq: int, updatedAt: Time)
  datatype ChatGroup = ChatGroup(ownerId: string, dismissed: bool)
  datatype Member = Member(role: int, joinedAt: Time)

  /** rows is keyed by (owner, conversation), members by (group, user). */
  datatype Db = Db(
    groups: map<string, ChatGroup>, members: map<(string, string), Member>,
    convs: map<string, Conversation>, rows: map<(string, string), Row>, messages: seq<Message>)

  datatype Error =
    | GroupNotFound | GroupDismissed | NotGroupMember | AlreadyGroupMember | GroupFull | NotGroupAdmin
    | CannotKickOwner | NoPermission | InvalidParam | Duplicate | SeqAllocFailed | SendFailed | StoreFailed
      | UserNotFound | TooManyRequests
    | ContentTooLong

  function Max(a: int, b: int): int { if a >= b then a else b }
  function Min(a: int, b: int): int { if a <= b then a else b }

  // ---------------------------------------------------------------- row semantics

  /** The conversation row LockConversation returns, created on first use. */
  function Locked(db: Db, conv: string, groupId: string, now: Time): Conversation {
    if conv in db.convs then db.convs[conv] else Conversation(groupId, 0, now)
  }

  function Lock(db: Db, conv: string, groupId: string, now: Time): Db {
    db.(convs := db.convs[conv := Locked(db, conv, groupId, now)])
  }

  predicate SameKey(m: Message, conv: string, sender: string, clientId: string) {
    m.conv == conv && m.sender == sender && m.clientId == clientId
  }

  function FindByClient(ms: seq<Message>, conv: string, sender: string, clientId: string): Option<Message> {
    if ms == [] then None
    else if SameKey(ms[0], conv, sender, clientId) then Some(ms[0])
    else FindByClient(ms[1..], conv, sender, clientId)
  }

  /** The unique keys of the messages table: server id, (conversation, seq), (conversation, sender, client id). */
  predicate Collides(cur: Message, m: Message) {
    || cur.serverId == m.serverId
    || (cur.conv == m.conv && (cur.seqNo == m.seqNo || SameKey(cur, m.conv, m.sender, m.clientId)))
  }

  predicate Conflict(ms: seq<Message>, m: Message) {
    exists i :: 0 <= i < |ms| && Collides(ms[i], m)
  }

  function SetMaxSeq(db: Db, conv: string, seqNo: int, now: Time): Db
    requires conv in db.convs
  {
    db.(convs := db.convs[conv := db.convs[conv].(maxSeq := seqNo, updatedAt := now)])
  }

  /** Inserts the owner's row on first contact; read_seq and updated_at only move forward. */
  function TouchRow(db: Db, owner: string, conv: string, peer: string, readSeq: int, now: Time): Db {
    var cur := if (owner, conv) in db.rows then db.rows[(owner, conv)] else Row(peer, "", 1, 0, 0, now);
    db.(rows := db.rows[(owner, conv) :=
      cur.(updatedAt := Max(cur.updatedAt, now), readSeq := Max(cur.readSeq, readSeq))])
  }

  /** Advances updated_at of the rows without an upper bound. */
  function TouchMembers(db: Db, conv: string, now: Time): Db {
    db.(rows := map k | k in db.rows ::
      if k.1 == conv && db.rows[k].maxSeq == 0 then db.rows[k].(updatedAt := Max(db.rows[k].updatedAt, now))
      else db.rows[k])
  }

  function AdvanceRead(db: Db, owner: string, conv: string, readSeq: int): Db {
    if (owner, conv) !in db.rows then db
    else var r := db.rows[(owner, conv)]; db.(rows := db.rows[(owner, conv) := r.(readSeq := Max(r.readSeq, readSeq))])
  }

  function VisibleMax(r: Row, convMax: int): int {
    if r.maxSeq > 0 then Min(r.maxSeq, convMax) else convMax
  }

  predicate Covers(r: Row, seqNo: int) {
    r.minSeq <= seqNo && (r.maxSeq == 0 || seqNo <= r.maxSeq)
  }

  /** VisibleOwners: the ids, in order, whose row covers the seq. */
  function VisibleOwners(db: Db, conv: string, ids: seq<string>, seqNo: int): seq<string> {
    if ids == [] then []
    else (if (ids[0], conv) in db.rows && Covers(db.rows[(ids[0], conv)], seqNo) then [ids[0]] else [])
         + VisibleOwners(db, conv, ids[1..], seqNo)
  }

  function MaxSeqOf(db: Db, conv: string): int {
    if conv in db.convs then db.convs[conv].maxSeq else 0
  }

  // ---------------------------------------------------------------- message service

  datatype SendInput = SendInput(
    sender: string, clientId: string, toGroup: bool, recv: string, groupId: string, content: string, senderRead: bool)

  datatype Ack = Ack(serverId: string, conv: string, seqNo: int, sendTime: Time)

  function AckOf(m: Message): Ack { Ack(m.serverId, m.conv, m.seqNo, m.sendTime) }

  /** normalizeDestination: the session type's own target only. */
  function Destination(inp: SendInput): string {
    if inp.toGroup then Group(inp.groupId) else Single(inp.sender, inp.recv)
  }

  function CheckGroupSend(db: Db, g: string, user: string): Option<Error> {
    if g !in db.groups then Some(SendFailed)
    else if db.groups[g].dismissed then Some(GroupDismissed)
    else if (g, user) !in db.members then Some(NotGroupMember)
    else None
  }

  datatype SendOutcome = Committed(m: Message) | Collision | Rejected(e: Error)

  function NewMessage(inp: SendInput, serverId: string, seqNo: int, at: Time): Message {
    Message(Destination(inp), seqNo, serverId, inp.clientId, inp.sender,
            if inp.toGroup then "" else inp.recv, if inp.toGroup then inp.groupId else "", inp.content, at)
  }

  function GroupIdOf(inp: SendInput): string { if inp.toGroup then inp.groupId else "" }

  /** touchConversations. */
  function Touch(db: Db, inp: SendInput, seqNo: int, at: Time): Db {
    var conv := Destination(inp);
    var read := if inp.senderRead then seqNo else 0;
    if !inp.toGroup then
      TouchRow(TouchRow(db, inp.sender, conv, inp.recv, read, at), inp.recv, conv, inp.sender, 0, at)
    else
      var db' := TouchMembers(db, conv, at);
      if read == 0 then db' else AdvanceRead(db', inp.sender, conv, read)
  }

  /** The transaction of Send under the conversation row lock. */
  function SendTx(db: Db, inp: SendInput, serverId: string, now: Time): (Db, SendOutcome) {
    var conv := Destination(inp);
    var c := Locked(db, conv, GroupIdOf(inp), now);
    var refused := if inp.toGroup then CheckGroupSend(db, inp.groupId, inp.sender) else None;
    if refused.Some? then (db, Rejected(refused.value)) else
    var at := Max(c.updatedAt, now);
    var m := NewMessage(inp, serverId, c.maxSeq + 1, at);
    if Conflict(db.messages, m) then (db, Collision) else
    var d := Lock(db, conv, GroupIdOf(inp), now);
    var d' := d.(messages := d.messages + [m]);
    (Touch(SetMaxSeq(d', conv, m.seqNo, at), inp, m.seqNo, at), Committed(m))
  }

  // ---------------------------------------------------------------- group service

  function FirstMembers(g: string, owner: string, ids: seq<string>, now: Time): map<(string, string), Member> {
    map u | u in ids :: (g, u) := Member(if u == owner then ROLE_OWNER else ROLE_MEMBER, now)
  }

  /** Initial members see the whole history. */
  function FirstRows(g: string, ids: seq<string>, now: Time): map<(string, string), Row> {
    map u | u in ids :: (u, Group(g)) := Row("", g, 1, 0, 0, now)
  }

  function CreateTx(db: Db, g: string, owner: string, ids: seq<string>, now: Time): (Db, Option<Error>) {
    if g in db.groups then (db, Some(Duplicate))
    else if exists u :: u in ids && (u, Group(g)) in db.rows then (db, Some(Duplicate))
    else
      var d := Lock(db.(groups := db.groups[g := ChatGroup(owner, false)]), Group(g), g, now);
      (d.(members := d.members + FirstMembers(g, owner, ids, now), rows := d.rows + FirstRows(g, ids, now)), None)
  }

  function MembersOf(db: Db, g: string): set<(string, string)> {
    set k | k in db.members && k.0 == g
  }

  function JoinTx(db: Db, g: string, u: string, maxMembers: int, now: Time): (Db, Option<Error>) {
    var c := Locked(db, Group(g), g, now);
    if (g, u) in db.members then (db, Some(AlreadyGroupMember))
    else if |MembersOf(db, g)| >= maxMembers then (db, Some(GroupFull))
    else
      var d := Lock(db, Group(g), g, now);
      (d.(members := d.members[(g, u) := Member(ROLE_MEMBER, now)],
        rows := d.rows[(u, Group(g)) := Rejoined(d, g, u, c.maxSeq, now)]), None)
  }

  /** UpsertUserConversation: a rejoin resets the bounds and the read cursor, an existing row keeps the rest. */
  function Rejoined(db: Db, g: string, u: string, max: int, now: Time): Row {
    var cur := if (u, Group(g)) in db.rows then db.rows[(u, Group(g))] else Row("", g, 0, 0, 0, now);
    cur.(minSeq := max + 1, maxSeq := 0, readSeq := max, updatedAt := now)
  }

  /** The checks remove makes for Kick; Quit is operator == user and skips them. */
  function KickRefused(db: Db, g: string, owner: string, operator: string, u: string): Option<Error> {
    if operator == u then None
    else if (g, operator) !in db.members then Some(NotGroupMember)
    else if db.members[(g, operator)].role < ROLE_ADMIN then Some(NotGroupAdmin)
    else if (g, u) !in db.members then Some(NotGroupMember)
    else if u == owner then Some(CannotKickOwner)
    else if db.members[(g, operator)].role == ROLE_ADMIN && db.members[(g, u)].role >= ROLE_ADMIN then
      Some(NoPermission)
    else None
  }

  /** remove: freezes the upper bound at max_seq, or deletes the row of a group without messages. */
  function RemoveTx(db: Db, g: string, owner: string, operator: string, u: string, now: Time): (Db, Option<Error>) {
    var c := Locked(db, Group(g), g, now);
    var refused := KickRefused(db, g, owner, operator, u);
    if refused.Some? then (db, refused)
    else if (g, u) !in db.members then (db, Some(NotGroupMember))
    else
      var d := Lock(db, Group(g), g, now);
      var d' := d.(members := d.members - {(g, u)});
      var k := (u, Group(g));
      if c.maxSeq == 0 then (d'.(rows := d'.rows - {k}), None)
      else if k !in d'.rows then (d', None)
      else (d'.(rows := d'.rows[k := d'.rows[k].(maxSeq := c.maxSeq)]), None)
  }

  // ---------------------------------------------------------------- conversation service

  datatype ReadPlan = ReadRefused(e: Error) | ReadDone(readSeq: int) | ReadTo(target: int)

  /** The first half of MarkRead: one snapshot of the caller's row decides the target. */
  function PlanRead(db: Db, u: string, conv: string, readSeq: int): ReadPlan {
    if readSeq < 1 then ReadRefused(InvalidParam)
    else if (u, conv) !in db.rows || conv !in db.convs then ReadRefused(NoPermission)
    else
      var r := db.rows[(u, conv)];
      var target := Min(readSeq, VisibleMax(r, db.convs[conv].maxSeq));
      if target <= r.readSeq then ReadDone(r.readSeq) else ReadTo(target)
  }

  /** itemFromRow's unread count. */
  function Unread(r: Row, convMax: int): int {
    Max(VisibleMax(r, convMax) - r.readSeq, 0)
  }

  // ---------------------------------------------------------------- pull

  /** ListMessages before sorting: the stored rows of the range, in insertion order. */
  function InRange(ms: seq<Message>, conv: string, b: int, e: int): seq<Message> {
    if ms == [] then []
    else InRange(ms[..|ms|-1], conv, b, e)
         + (var m := ms[|ms|-1]; if m.conv == conv && b <= m.seqNo <= e then [m] else [])
  }

  /** One step of the stable sort by seq. */
  function InsertBySeq(s: seq<Message>, m: Message): seq<Message> {
    if s == [] || s[|s|-1].seqNo <= m.seqNo then s + [m]
    else InsertBySeq(s[..|s|-1], m) + [s[|s|-1]]
  }

  function SortBySeq(s: seq<Message>): seq<Message> {
    if s == [] then [] else InsertBySeq(SortBySeq(s[..|s|-1]), s[|s|-1])
  }

  function ListMessages(db: Db, conv: string, b: int, e: int, limit: nat): seq<Message> {
    var all := SortBySeq(InRange(db.messages, conv, b, e));
    all[..Min(|all|, limit)]
  }

  datatype PullResult = PullRefused(e: Error) | Pulled(messages: seq<Message>, hasMore: bool)

  function PageLimit(limit: int, pageMax: int): nat {
    var p := Max(pageMax, 1);
    if limit <= 0 || limit > p then p else limit
  }

  function Pull(db: Db, u: string, conv: string, begin: int, end: int, limit: int, pageMax: int): PullResult {
    if begin < 1 || end < begin then PullRefused(InvalidParam)
    else if (u, conv) !in db.rows || conv !in db.convs then PullRefused(NoPermission)
    else
      var n := PageLimit(limit, pageMax);
      var r := db.rows[(u, conv)];
      var b := Max(begin, r.minSeq);
      var e := Min(end, VisibleMax(r, db.convs[conv].maxSeq));
      if b > e then Pulled([], false)
      else var rows := ListMessages(db, conv, b, e, n + 1); Pulled(rows[..Min(|rows|, n)], |rows| > n)
  }
}
