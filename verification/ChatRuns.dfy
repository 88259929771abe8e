/**
 Whole runs of the chat services. Every transaction is one step under the conversation row lock; Send is a
 pre-check, a transaction and (after a collision) a re-read, MarkRead is a read and an advance, and any other
 step may come in between.
 */
module ChatRuns {
  import opened Common
  import opened ConvIds
  import opened ChatModel
  import opened ChatInvariants

  // ---------------------------------------------------------------- how a commit changes what a user reaches

  predicate SameBounds(db: Db, db': Db, k: (string, string)) {
    && (k in db'.rows <==> k in db.rows)
    && (k in db.rows ==> db'.rows[k].minSeq == db.rows[k].minSeq && db'.rows[k].maxSeq == db.rows[k].maxSeq)
  }

  lemma TouchKeepsBounds(db: Db, inp: SendInput, n: int, at: Time, g: string, u: string)
    ensures SameBounds(db, Touch(db, inp, n, at), (u, Group(g)))
  {
    if !inp.toGroup { SingleIsNotGroup(inp.sender, inp.recv, g); }
  }

  lemma SendReaches(db: Db, inp: SendInput, serverId: string, now: Time, g: string, u: string, n: int)
    requires DbOk(db) && SendTx(db, inp, serverId, now).1.Committed?
    ensures var (db', r) := SendTx(db, inp, serverId, now);
            Reaches(db', g, u, n) <==>
            Reaches(db, g, u, n) || (r.m.conv == Group(g) && n == r.m.seqNo && (g, u) in db.members)
  {
    var (db', r) := SendTx(db, inp, serverId, now);
    var d := Appended(db, inp, r.m, now);
    assert db' == Touch(d, inp, r.m.seqNo, r.m.sendTime);
    TouchKeepsLog(d, inp, r.m.seqNo, r.m.sendTime);
    TouchKeepsBounds(d, inp, r.m.seqNo, r.m.sendTime, g, u);
    AppendReaches(db, inp, r.m, now, g, u, n);
  }

  lemma AppendReaches(db: Db, inp: SendInput, m: Message, now: Time, g: string, u: string, n: int)
    requires RowsOk(db) && GroupsOk(db) && m.seqNo == Locked(db, m.conv, GroupIdOf(inp), now).maxSeq + 1
    ensures Reaches(Appended(db, inp, m, now), g, u, n) <==>
            Reaches(db, g, u, n) || (m.conv == Group(g) && n == m.seqNo && (g, u) in db.members)
  {}

  lemma SendHistory(db: Db, log: seq<Commit>, inp: SendInput, serverId: string, now: Time)
    requires DbOk(db) && HistoryOk(db, log) && SendTx(db, inp, serverId, now).1.Committed?
    ensures var (db', r) := SendTx(db, inp, serverId, now); HistoryOk(db', log + [Sent(r.m.conv, r.m.seqNo)])
  {
    var (db', r) := SendTx(db, inp, serverId, now);
    var h := Sent(r.m.conv, r.m.seqNo);
    assert db'.members == db.members by { TouchKeepsLog(Appended(db, inp, r.m, now), inp, r.m.seqNo, r.m.sendTime); }
    forall g, u ensures MemberAfter(log + [h], g, u) <==> (g, u) in db'.members { PeriodStep(log, h, g, u, 0); }
    forall g, u, n ensures InLatestPeriod(log + [h], g, u, n) <==> Reaches(db', g, u, n) {
      PeriodStep(log, h, g, u, n);
      SendReaches(db, inp, serverId, now, g, u, n);
    }
  }

  /** The rows and members of an existing group stay as they are when another group is created. */
  lemma CreateElsewhere(db: Db, g: string, owner: string, ids: seq<string>, now: Time, f: string, u: string)
    requires CreateTx(db, g, owner, ids, now).1.None? && f != g
    ensures var db' := CreateTx(db, g, owner, ids, now).0; var k := (u, Group(f));
            && (k in db'.rows <==> k in db.rows) && (k in db.rows ==> db'.rows[k] == db.rows[k])
            && ((f, u) in db'.members <==> (f, u) in db.members) && MaxSeqOf(db', Group(f)) == MaxSeqOf(db, Group(f))
  {
    if Group(f) == Group(g) { GroupInjective(f, g); }
    assert (u, Group(f)) !in FirstRows(g, ids, now);
  }

  /** A group starts without messages, so nothing in it is reached yet. */
  lemma CreateHere(db: Db, g: string, owner: string, ids: seq<string>, now: Time, u: string)
    requires GroupsOk(db) && CreateTx(db, g, owner, ids, now).1.None?
    ensures var db' := CreateTx(db, g, owner, ids, now).0;
            && MaxSeqOf(db', Group(g)) == 0 && (u, Group(g)) !in db.rows && (g, u) !in db.members
            && ((g, u) in db'.members <==> u in ids)
            && ((u, Group(g)) in db'.rows ==>
                 db'.rows[(u, Group(g))].minSeq == 1 && db'.rows[(u, Group(g))].maxSeq == 0)
  {}

  lemma CreateReaches(db: Db, g: string, owner: string, ids: seq<string>, now: Time, f: string, u: string, n: int)
    requires GroupsOk(db) && CreateTx(db, g, owner, ids, now).1.None?
    ensures var db' := CreateTx(db, g, owner, ids, now).0;
            && (Reaches(db', f, u, n) <==> Reaches(db, f, u, n) && !(f == g && u in ids))
            && ((f, u) in db'.members <==> (f, u) in db.members || (f == g && u in ids))
  {
    if f == g { CreateHere(db, g, owner, ids, now, u); } else { CreateElsewhere(db, g, owner, ids, now, f, u); }
  }

  lemma CreateHistory(db: Db, log: seq<Commit>, g: string, owner: string, ids: seq<string>, now: Time)
    requires DbOk(db) && HistoryOk(db, log) && CreateTx(db, g, owner, ids, now).1.None?
    ensures HistoryOk(CreateTx(db, g, owner, ids, now).0, log + [Created(g, ids)])
  {
    var db' := CreateTx(db, g, owner, ids, now).0;
    var h := Created(g, ids);
    forall f, u ensures MemberAfter(log + [h], f, u) <==> (f, u) in db'.members {
      PeriodStep(log, h, f, u, 0);
      CreateReaches(db, g, owner, ids, now, f, u, 0);
    }
    forall f, u, n ensures InLatestPeriod(log + [h], f, u, n) <==> Reaches(db', f, u, n) {
      PeriodStep(log, h, f, u, n);
      CreateReaches(db, g, owner, ids, now, f, u, n);
    }
  }

  lemma JoinReaches(db: Db, g: string, u: string, maxMembers: int, now: Time, f: string, v: string, n: int)
    requires JoinTx(db, g, u, maxMembers, now).1.None?
    ensures var db' := JoinTx(db, g, u, maxMembers, now).0;
            && (Reaches(db', f, v, n) <==> Reaches(db, f, v, n) && !(f == g && v == u))
            && ((f, v) in db'.members <==> (f, v) in db.members || (f == g && v == u))
  {
    if Group(f) == Group(g) { GroupInjective(f, g); }
  }

  lemma JoinHistory(db: Db, log: seq<Commit>, g: string, u: string, maxMembers: int, now: Time)
    requires DbOk(db) && HistoryOk(db, log) && JoinTx(db, g, u, maxMembers, now).1.None?
    ensures HistoryOk(JoinTx(db, g, u, maxMembers, now).0, log + [Joined(g, u)])
  {
    var db', h := JoinTx(db, g, u, maxMembers, now).0, Joined(g, u);
    forall f, v ensures MemberAfter(log + [h], f, v) <==> (f, v) in db'.members {
      PeriodStep(log, h, f, v, 0);
      JoinReaches(db, g, u, maxMembers, now, f, v, 0);
    }
    forall f, v, n ensures InLatestPeriod(log + [h], f, v, n) <==> Reaches(db', f, v, n) {
      PeriodStep(log, h, f, v, n);
      JoinReaches(db, g, u, maxMembers, now, f, v, n);
    }
  }

  lemma RemoveReaches(
    db: Db, g: string, owner: string, operator: string, u: string, now: Time, f: string, v: string, n: int)
    requires DbOk(db) && RemoveTx(db, g, owner, operator, u, now).1.None?
    ensures var db' := RemoveTx(db, g, owner, operator, u, now).0;
            && (Reaches(db', f, v, n) <==> Reaches(db, f, v, n))
            && ((f, v) in db'.members <==> (f, v) in db.members && !(f == g && v == u))
  {
    if Group(f) == Group(g) { GroupInjective(f, g); }
    if (v, Group(f)) in db.rows { assert RowOk(db.rows[(v, Group(f))], db.convs[Group(f)].maxSeq); }
  }

  lemma RemoveHistory(db: Db, log: seq<Commit>, g: string, owner: string, operator: string, u: string, now: Time)
    requires DbOk(db) && HistoryOk(db, log) && RemoveTx(db, g, owner, operator, u, now).1.None?
    ensures HistoryOk(RemoveTx(db, g, owner, operator, u, now).0, log + [Left(g, u)])
  {
    var db', h := RemoveTx(db, g, owner, operator, u, now).0, Left(g, u);
    forall f, v ensures MemberAfter(log + [h], f, v) <==> (f, v) in db'.members {
      PeriodStep(log, h, f, v, 0);
      RemoveReaches(db, g, owner, operator, u, now, f, v, 0);
    }
    forall f, v, n ensures InLatestPeriod(log + [h], f, v, n) <==> Reaches(db', f, v, n) {
      PeriodStep(log, h, f, v, n);
      RemoveReaches(db, g, owner, operator, u, now, f, v, n);
    }
  }

  // ---------------------------------------------------------------- the machine

  /** One Send request: waiting to run its transaction, waiting to re-read after a collision, or finished. */
  datatype Attempt =
    | Pending(inp: SendInput, serverId: string, now: Time)
    | Colliding(inp: SendInput)
    | Acked(inp: SendInput, ack: Ack)
    | Failed(inp: SendInput, e: Error)

  /** A MarkRead between its read and its advance. */
  datatype ReadTask = ReadTask(u: string, conv: string, target: int)

  datatype Sys = Sys(
    db: Db, attempts: map<nat, Attempt>, readers: map<nat, ReadTask>, minted: set<string>, log: seq<Commit>)

  datatype Event =
    | Dismiss(g: string)
    | Create(g: string, owner: string, ids: seq<string>, now: Time)
    | Join(g: string, u: string, maxMembers: int, now: Time)
    | Remove(g: string, operator: string, u: string, now: Time)
    | SendBegin(a: nat, inp: SendInput, serverId: string, now: Time)
    | SendCommit(a: nat) | SendReread(a: nat) | SendFail(a: nat)
    | ReadBegin(t: nat, u: string, conv: string, readSeq: int)
    | ReadAdvance(t: nat)

  function Init(): Sys { Sys(Db(map[], map[], map[], map[], []), map[], map[], {}, []) }

  /**
   Attempts use fresh numbers and fresh server ids (UUIDv7); a membership change names an existing group, whose roster
   began with its owner and which its owner cannot quit.
   */
  predicate Allowed(s: Sys, e: Event) {
    match e
    case Dismiss(g) => g in s.db.groups
    case Create(_, owner, ids, _) => owner in ids
    case Join(g, _, _, _) => g in s.db.groups
    case Remove(g, operator, u, _) => g in s.db.groups && (operator == u ==> u != s.db.groups[g].ownerId)
    case SendBegin(a, _, serverId, _) => a !in s.attempts && serverId !in s.minted
    case SendCommit(a) => a in s.attempts && s.attempts[a].Pending?
    case SendReread(a) => a in s.attempts && s.attempts[a].Colliding?
    case SendFail(a) => a in s.attempts && (s.attempts[a].Pending? || s.attempts[a].Colliding?)
    case ReadBegin(t, _, _, _) => t !in s.readers
    case ReadAdvance(t) => t in s.readers
  }

  function Committed(s: Sys, db: Db, h: Commit): Sys { s.(db := db, log := s.log + [h]) }

  function Next(s: Sys, e: Event): Sys
    requires Allowed(s, e)
  {
    match e
    case Dismiss(g) => s.(db := s.db.(groups := s.db.groups[g := s.db.groups[g].(dismissed := true)]))
    case Create(g, owner, ids, now) =>
      var (db, err) := CreateTx(s.db, g, owner, ids, now);
      if err.None? then Committed(s, db, Created(g, ids)) else s
    case Join(g, u, maxMembers, now) =>
      var (db, err) := JoinTx(s.db, g, u, maxMembers, now);
      if err.None? then Committed(s, db, Joined(g, u)) else s
    case Remove(g, operator, u, now) =>
      var (db, err) := RemoveTx(s.db, g, s.db.groups[g].ownerId, operator, u, now);
      if err.None? then Committed(s, db, Left(g, u)) else s
    case SendBegin(a, inp, serverId, now) =>
      // A retry of a committed message is answered at once; otherwise the request goes on to its transaction.
      var hit := FindByClient(s.db.messages, Destination(inp), inp.sender, inp.clientId);
      var att := if hit.Some? then Acked(inp, AckOf(hit.value)) else Pending(inp, serverId, now);
      s.(attempts := s.attempts[a := att], minted := s.minted + {serverId})
    case SendCommit(a) => AfterTx(s, a)
    case SendReread(a) =>
      var inp := s.attempts[a].inp;
      var hit := FindByClient(s.db.messages, Destination(inp), inp.sender, inp.clientId);
      s.(attempts := s.attempts[a := if hit.Some? then Acked(inp, AckOf(hit.value)) else Failed(inp, SeqAllocFailed)])
    case SendFail(a) => s.(attempts := s.attempts[a := Failed(s.attempts[a].inp, StoreFailed)])
    case ReadBegin(t, u, conv, readSeq) =>
      var plan := PlanRead(s.db, u, conv, readSeq);
      if plan.ReadTo? then s.(readers := s.readers[t := ReadTask(u, conv, plan.target)]) else s
    case ReadAdvance(t) =>
      var r := s.readers[t];
      s.(db := AdvanceRead(s.db, r.u, r.conv, r.target), readers := s.readers - {t})
  }

  function AfterTx(s: Sys, a: nat): Sys
    requires a in s.attempts && s.attempts[a].Pending?
  {
    var p := s.attempts[a];
    var (db, r) := SendTx(s.db, p.inp, p.serverId, p.now);
    match r
    case Committed(m) => Committed(s, db, Sent(m.conv, m.seqNo)).(attempts := s.attempts[a := Acked(p.inp, AckOf(m))])
    case Collision => s.(attempts := s.attempts[a := Colliding(p.inp)])
    case Rejected(e) => s.(attempts := s.attempts[a := Failed(p.inp, e)])
  }

  // ---------------------------------------------------------------- what every step keeps

  predicate Backed(ms: seq<Message>, inp: SendInput, ack: Ack) {
    exists i :: 0 <= i < |ms| && SameKey(ms[i], Destination(inp), inp.sender, inp.clientId) && AckOf(ms[i]) == ack
  }

  ghost predicate AttemptOk(s: Sys, att: Attempt) {
    match att
    case Pending(_, serverId, _) =>
      && serverId in s.minted
      && (forall i :: 0 <= i < |s.db.messages| ==> s.db.messages[i].serverId != serverId)
    case Colliding(inp) => FindByClient(s.db.messages, Destination(inp), inp.sender, inp.clientId).Some?
    case Acked(inp, ack) => Backed(s.db.messages, inp, ack)
    case Failed(_, e) => e != SeqAllocFailed
  }

  ghost predicate AttemptsOk(s: Sys) {
    && (forall a :: a in s.attempts ==> AttemptOk(s, s.attempts[a]))
    && (forall a, b ::
          a in s.attempts && b in s.attempts && a != b && s.attempts[a].Pending? && s.attempts[b].Pending? ==>
          s.attempts[a].serverId != s.attempts[b].serverId)
    && (forall i :: 0 <= i < |s.db.messages| ==> s.db.messages[i].serverId in s.minted)
  }

  ghost predicate ReadOk(db: Db, r: ReadTask) {
    && r.target >= 1 && (r.u, r.conv) in db.rows && r.conv in db.convs
    && r.target <= VisibleMax(db.rows[(r.u, r.conv)], db.convs[r.conv].maxSeq)
  }

  ghost predicate ReadsOk(s: Sys) {
    forall t :: t in s.readers ==> ReadOk(s.db, s.readers[t])
  }

  ghost predicate SysOk(s: Sys) {
    DbOk(s.db) && HistoryOk(s.db, s.log) && AttemptsOk(s) && ReadsOk(s)
  }

  lemma InitOk()
    ensures SysOk(Init())
  {}

  lemma DbStep(s: Sys, e: Event)
    requires SysOk(s) && Allowed(s, e)
    ensures DbOk(Next(s, e).db)
  {
    match e
    case Dismiss(g) => SameBoundsKeepGroups(s.db, Next(s, e).db);
    case Create(g, owner, ids, now) => CreateKeeps(s.db, g, owner, ids, now);
    case Join(g, u, maxMembers, now) => JoinKeeps(s.db, g, u, maxMembers, now);
    case Remove(g, operator, u, now) => RemoveKeeps(s.db, g, s.db.groups[g].ownerId, operator, u, now);
    case SendCommit(a) => SendKeeps(s.db, s.attempts[a].inp, s.attempts[a].serverId, s.attempts[a].now);
    case ReadAdvance(t) => AdvanceKeeps(s.db, s.readers[t].u, s.readers[t].conv, s.readers[t].target);
    case _ =>
  }

  lemma HistoryStep(s: Sys, e: Event)
    requires SysOk(s) && Allowed(s, e)
    ensures HistoryOk(Next(s, e).db, Next(s, e).log)
  {
    match e
    case Create(g, owner, ids, now) =>
      if CreateTx(s.db, g, owner, ids, now).1.None? { CreateHistory(s.db, s.log, g, owner, ids, now); }
    case Join(g, u, maxMembers, now) =>
      if JoinTx(s.db, g, u, maxMembers, now).1.None? { JoinHistory(s.db, s.log, g, u, maxMembers, now); }
    case Remove(g, operator, u, now) =>
      if RemoveTx(s.db, g, s.db.groups[g].ownerId, operator, u, now).1.None? {
        RemoveHistory(s.db, s.log, g, s.db.groups[g].ownerId, operator, u, now);
      }
    case SendCommit(a) =>
      var p := s.attempts[a];
      if SendTx(s.db, p.inp, p.serverId, p.now).1.Committed? { SendHistory(s.db, s.log, p.inp, p.serverId, p.now); }
    case ReadAdvance(t) => AdvanceHistory(s.db, s.log, s.readers[t].u, s.readers[t].conv, s.readers[t].target);
    case _ =>
  }

  lemma AdvanceHistory(db: Db, log: seq<Commit>, u: string, conv: string, read: int)
    requires HistoryOk(db, log)
    ensures HistoryOk(AdvanceRead(db, u, conv, read), log)
  {}

  // ---------------------------------------------------------------- what only ever moves forward

  function MinOf(db: Db, k: (string, string)): int { if k in db.rows then db.rows[k].minSeq else 1 }
  function ReadOf(db: Db, k: (string, string)): int { if k in db.rows then db.rows[k].readSeq else 0 }
  function TopOf(db: Db, k: (string, string)): int {
    if k in db.rows then VisibleMax(db.rows[k], MaxSeqOf(db, k.1)) else 0
  }

  /** Bounds and cursors of every user, counting a missing row as "from 1, nothing read, nothing visible". */
  ghost predicate RowMoves(db: Db, db': Db, k: (string, string)) {
    && MinOf(db, k) <= MinOf(db', k) && ReadOf(db, k) <= ReadOf(db', k) && TopOf(db, k) <= TopOf(db', k)
    && (k in db.rows && MaxSeqOf(db, k.1) > 0 ==> k in db'.rows)
  }

  ghost predicate Progress(db: Db, db': Db) {
    && db.messages <= db'.messages && db.groups.Keys <= db'.groups.Keys
    && (forall c :: c in db.convs ==> c in db'.convs && db.convs[c].maxSeq <= db'.convs[c].maxSeq
                                      && db.convs[c].updatedAt <= db'.convs[c].updatedAt)
    && (forall k :: RowMoves(db, db', k))
  }

  lemma SendProgress(db: Db, inp: SendInput, serverId: string, now: Time)
    requires LogOk(db)
    ensures Progress(db, SendTx(db, inp, serverId, now).0)
  {
    var (db', r) := SendTx(db, inp, serverId, now);
    if r.Committed? {
      var d := Appended(db, inp, r.m, now);
      assert db' == Touch(d, inp, r.m.seqNo, r.m.sendTime);
      TouchKeepsLog(d, inp, r.m.seqNo, r.m.sendTime);
      assert db'.messages == db.messages + [r.m];
      forall k ensures RowMoves(db, db', k) {
        AppendMoves(db, inp, r.m, now, k);
        TouchMoves(d, inp, r.m.seqNo, r.m.sendTime, k);
      }
    }
  }

  lemma AppendMoves(db: Db, inp: SendInput, m: Message, now: Time, k: (string, string))
    requires m.seqNo == Locked(db, m.conv, GroupIdOf(inp), now).maxSeq + 1
    ensures RowMoves(db, Appended(db, inp, m, now), k)
  {}

  lemma TouchMoves(d: Db, inp: SendInput, n: int, at: Time, k: (string, string))
    requires forall c :: c in d.convs ==> d.convs[c].maxSeq >= 0
    ensures RowMoves(d, Touch(d, inp, n, at), k)
  {}

  lemma CreateProgress(db: Db, g: string, owner: string, ids: seq<string>, now: Time)
    requires DbOk(db)
    ensures Progress(db, CreateTx(db, g, owner, ids, now).0)
  {
    var (db', e) := CreateTx(db, g, owner, ids, now);
    if e.None? {
      forall k ensures RowMoves(db, db', k) {
        if k in db.rows { assert k !in FirstRows(g, ids, now); }
      }
    }
  }

  lemma SameProgress(db: Db)
    ensures Progress(db, db)
  {}

  lemma JoinProgress(db: Db, g: string, u: string, maxMembers: int, now: Time)
    requires RowsOk(db) && (forall c :: c in db.convs ==> db.convs[c].maxSeq >= 0)
    ensures Progress(db, JoinTx(db, g, u, maxMembers, now).0)
  {
    var (db', e) := JoinTx(db, g, u, maxMembers, now);
    if e.None? {
      forall k ensures RowMoves(db, db', k) { JoinMoves(db, g, u, maxMembers, now, k); }
    } else {
      SameProgress(db);
    }
  }

  lemma JoinMoves(db: Db, g: string, u: string, maxMembers: int, now: Time, k: (string, string))
    requires RowsOk(db) && (forall c :: c in db.convs ==> db.convs[c].maxSeq >= 0)
             && JoinTx(db, g, u, maxMembers, now).1.None?
    ensures RowMoves(db, JoinTx(db, g, u, maxMembers, now).0, k)
  {
    if k in db.rows { assert RowOk(db.rows[k], db.convs[k.1].maxSeq); }
  }

  lemma RemoveProgress(db: Db, g: string, owner: string, operator: string, u: string, now: Time)
    requires RowsOk(db) && (forall c :: c in db.convs ==> db.convs[c].maxSeq >= 0)
    ensures Progress(db, RemoveTx(db, g, owner, operator, u, now).0)
  {
    var (db', e) := RemoveTx(db, g, owner, operator, u, now);
    if e.None? {
      forall k ensures RowMoves(db, db', k) { RemoveMoves(db, g, owner, operator, u, now, k); }
    } else {
      SameProgress(db);
    }
  }

  lemma RemoveMoves(db: Db, g: string, owner: string, operator: string, u: string, now: Time, k: (string, string))
    requires RowsOk(db) && (forall c :: c in db.convs ==> db.convs[c].maxSeq >= 0)
             && RemoveTx(db, g, owner, operator, u, now).1.None?
    ensures RowMoves(db, RemoveTx(db, g, owner, operator, u, now).0, k)
  {
    if k in db.rows { assert RowOk(db.rows[k], db.convs[k.1].maxSeq); }
  }

  lemma AdvanceProgress(db: Db, u: string, conv: string, read: int)
    ensures Progress(db, AdvanceRead(db, u, conv, read))
  {
    assert forall k :: RowMoves(db, AdvanceRead(db, u, conv, read), k);
  }

  lemma DismissProgress(db: Db, g: string)
    requires g in db.groups
    ensures Progress(db, db.(groups := db.groups[g := db.groups[g].(dismissed := true)]))
  {
    var db' := db.(groups := db.groups[g := db.groups[g].(dismissed := true)]);
    assert forall k :: RowMoves(db, db', k);
  }

  lemma StepProgress(s: Sys, e: Event)
    requires DbOk(s.db) && Allowed(s, e)
    ensures Progress(s.db, Next(s, e).db)
  {
    match e
    case Create(g, owner, ids, now) => CreateProgress(s.db, g, owner, ids, now);
    case Join(g, u, maxMembers, now) => JoinProgress(s.db, g, u, maxMembers, now);
    case Remove(g, operator, u, now) => RemoveProgress(s.db, g, s.db.groups[g].ownerId, operator, u, now);
    case SendCommit(a) => SendProgress(s.db, s.attempts[a].inp, s.attempts[a].serverId, s.attempts[a].now);
    case Dismiss(g) => DismissProgress(s.db, g);
    case ReadAdvance(t) => AdvanceProgress(s.db, s.readers[t].u, s.readers[t].conv, s.readers[t].target);
    case _ => SameProgress(s.db);
  }

  // ---------------------------------------------------------------- attempts and readers

  lemma {:induction false} FindGrows(ms: seq<Message>, m: Message, conv: string, sender: string, clientId: string)
    ensures FindByClient(ms, conv, sender, clientId).Some? ==>
            FindByClient(ms + [m], conv, sender, clientId) == FindByClient(ms, conv, sender, clientId)
  {
    if ms != [] {
      assert (ms + [m])[1..] == ms[1..] + [m];
      FindGrows(ms[1..], m, conv, sender, clientId);
    }
  }

  lemma FoundIsBacked(ms: seq<Message>, inp: SendInput)
    ensures var r := FindByClient(ms, Destination(inp), inp.sender, inp.clientId);
            r.Some? ==> Backed(ms, inp, AckOf(r.value))
  {}

  lemma CommitAttempts(s: Sys, a: nat)
    requires LogOk(s.db) && AttemptsOk(s) && Allowed(s, SendCommit(a))
    ensures AttemptsOk(AfterTx(s, a))
  {
    var p := s.attempts[a];
    var (db, r) := SendTx(s.db, p.inp, p.serverId, p.now);
    if r.Committed? {
      assert db.messages == s.db.messages + [r.m] by {
        TouchKeepsLog(Appended(s.db, p.inp, r.m, p.now), p.inp, r.m.seqNo, r.m.sendTime);
      }
      CommittedAttempts(s, AfterTx(s, a), a, r.m);
    } else {
      assert AttemptOk(s, p);
      if r.Collision? { CollisionIsRetry(s.db, p.inp, p.serverId, p.now); }
      AnswerKeepsAttempts(s, AfterTx(s, a), a);
    }
  }

  /** A committed attempt is backed by its message, and every other attempt stays as it was. */
  lemma CommittedAttempts(s: Sys, s': Sys, a: nat, m: Message)
    requires AttemptsOk(s) && a in s.attempts && s.attempts[a].Pending? && m.serverId == s.attempts[a].serverId
    requires s'.db.messages == s.db.messages + [m] && s'.minted == s.minted
             && s'.attempts == s.attempts[a := Acked(s.attempts[a].inp, AckOf(m))]
    requires SameKey(m, Destination(s.attempts[a].inp), s.attempts[a].inp.sender, s.attempts[a].inp.clientId)
    ensures AttemptsOk(s')
  {
    assert s'.db.messages[|s.db.messages|] == m;
    forall b | b in s'.attempts ensures AttemptOk(s', s'.attempts[b]) {
      if b != a { BackedGrows(s, s', m, s.attempts[b]); }
    }
  }

  lemma BackedGrows(s: Sys, s': Sys, m: Message, att: Attempt)
    requires AttemptOk(s, att) && s'.db.messages == s.db.messages + [m] && s'.minted == s.minted
    requires att.Pending? ==> att.serverId != m.serverId
    ensures AttemptOk(s', att)
  {
    if att.Colliding? { FindGrows(s.db.messages, m, Destination(att.inp), att.inp.sender, att.inp.clientId); }
    if att.Acked? {
      var i :| 0 <= i < |s.db.messages|
        && SameKey(s.db.messages[i], Destination(att.inp), att.inp.sender, att.inp.clientId)
               && AckOf(s.db.messages[i]) == att.ack;
      assert s'.db.messages[i] == s.db.messages[i];
    }
  }

  lemma MembershipKeepsMessages(s: Sys, e: Event)
    requires Allowed(s, e) && !e.SendCommit?
    ensures Next(s, e).db.messages == s.db.messages
  {}

  /** Steps that leave the messages alone and answer at most one attempt. */
  lemma AnswerKeepsAttempts(s: Sys, s': Sys, a: nat)
    requires AttemptsOk(s) && s'.db.messages == s.db.messages && s.minted <= s'.minted
    requires forall b :: b in s'.attempts && b != a ==> b in s.attempts && s'.attempts[b] == s.attempts[b]
    requires a in s'.attempts ==> AttemptOk(s', s'.attempts[a])
    requires a in s'.attempts && s'.attempts[a].Pending? ==>
             s'.attempts[a].serverId !in s.minted || (a in s.attempts && s'.attempts[a] == s.attempts[a])
    ensures AttemptsOk(s')
  {}

  lemma AttemptsStep(s: Sys, e: Event)
    requires LogOk(s.db) && AttemptsOk(s) && Allowed(s, e)
    ensures AttemptsOk(Next(s, e))
  {
    if e.SendCommit? {
      CommitAttempts(s, e.a);
    } else if e.SendBegin? {
      FoundIsBacked(s.db.messages, e.inp);
      AnswerKeepsAttempts(s, Next(s, e), e.a);
    } else if e.SendReread? {
      assert AttemptOk(s, s.attempts[e.a]);
      FoundIsBacked(s.db.messages, s.attempts[e.a].inp);
      AnswerKeepsAttempts(s, Next(s, e), e.a);
    } else if e.SendFail? {
      AnswerKeepsAttempts(s, Next(s, e), e.a);
    } else {
      MembershipKeepsMessages(s, e);
      assert Next(s, e).attempts == s.attempts && Next(s, e).minted == s.minted;
      assert forall a :: a in s.attempts ==> AttemptOk(Next(s, e), s.attempts[a]);
    }
  }

  lemma ReadersStep(s: Sys, e: Event)
    requires DbOk(s.db) && ReadsOk(s) && Allowed(s, e)
    ensures ReadsOk(Next(s, e))
  {
    var s' := Next(s, e);
    StepProgress(s, e);
    forall t | t in s'.readers ensures ReadOk(s'.db, s'.readers[t]) {
      if t in s.readers && s'.readers[t] == s.readers[t] {
        var k := (s.readers[t].u, s.readers[t].conv);
        assert RowMoves(s.db, s'.db, k);
      }
    }
  }

  lemma StepOk(s: Sys, e: Event)
    requires SysOk(s) && Allowed(s, e)
    ensures SysOk(Next(s, e))
  {
    assert DbOk(Next(s, e).db) by { DbStep(s, e); }
    assert HistoryOk(Next(s, e).db, Next(s, e).log) by { HistoryStep(s, e); }
    assert AttemptsOk(Next(s, e)) by { AttemptsStep(s, e); }
    assert ReadsOk(Next(s, e)) by { ReadersStep(s, e); }
  }

  // ---------------------------------------------------------------- runs

  /** The state a run leads to, when each event is allowed in its turn. */
  ghost function Run(s: Sys, es: seq<Event>): Option<Sys>
    decreases |es|
  {
    if es == [] then Some(s) else if Allowed(s, es[0]) then Run(Next(s, es[0]), es[1..]) else None
  }

  ghost predicate Reachable(s: Sys) { exists es :: Run(Init(), es) == Some(s) }

  /** Some run goes on from s to s'. */
  ghost predicate Leads(s: Sys, s': Sys) { exists es :: Run(s, es) == Some(s') }

  lemma {:induction false} RunThen(s: Sys, es: seq<Event>, fs: seq<Event>)
    requires Run(s, es).Some?
    ensures Run(s, es + fs) == Run(Run(s, es).value, fs)
    decreases |es|
  {
    if es == [] {
      assert es + fs == fs;
    } else {
      assert (es + fs)[1..] == es[1..] + fs;
      RunThen(Next(s, es[0]), es[1..], fs);
    }
  }

  lemma ReachableRun(s: Sys, es: seq<Event>)
    requires Reachable(s) && Run(s, es).Some?
    ensures Reachable(Run(s, es).value)
  {
    var before :| Run(Init(), before) == Some(s);
    RunThen(Init(), before, es);
  }

  lemma ReachableStep(s: Sys, e: Event)
    requires Reachable(s) && Allowed(s, e)
    ensures Reachable(Next(s, e))
  {
    assert Run(s, [e]) == Some(Next(s, e)) by { assert [e][1..] == []; }
    ReachableRun(s, [e]);
  }

  lemma {:induction false} RunOk(s: Sys, es: seq<Event>)
    requires SysOk(s) && Run(s, es).Some?
    ensures SysOk(Run(s, es).value)
    decreases |es|
  {
    if es != [] {
      assert SysOk(Next(s, es[0])) by { StepOk(s, es[0]); }
      RunOk(Next(s, es[0]), es[1..]);
    }
  }

  lemma ReachableOk(s: Sys)
    requires Reachable(s)
    ensures SysOk(s)
  {
    var es :| Run(Init(), es) == Some(s);
    InitOk();
    RunOk(Init(), es);
  }

  lemma LeadsOk(s: Sys, s': Sys)
    requires Reachable(s) && Leads(s, s')
    ensures SysOk(s')
  {
    var es :| Run(s, es) == Some(s');
    ReachableOk(s);
    RunOk(s, es);
  }

  lemma {:induction false} RunProgress(s: Sys, es: seq<Event>)
    requires SysOk(s) && Run(s, es).Some?
    ensures Progress(s.db, Run(s, es).value.db)
    decreases |es|
  {
    if es != [] {
      var s' := Next(s, es[0]);
      assert SysOk(s') by { StepOk(s, es[0]); }
      assert Progress(s.db, s'.db) by { StepProgress(s, es[0]); }
      RunProgress(s', es[1..]);
      ProgressTransitive(s.db, s'.db, Run(s, es).value.db);
    }
  }

  /** From any point of a run on, the log, the bounds, the cursors and the visible maxima only move forward. */
  lemma LeadsProgress(s: Sys, s': Sys)
    requires Reachable(s) && Leads(s, s')
    ensures Progress(s.db, s'.db)
  {
    var es :| Run(s, es) == Some(s');
    assert SysOk(s) by { ReachableOk(s); }
    RunProgress(s, es);
  }

  lemma ProgressTransitive(a: Db, b: Db, c: Db)
    requires Progress(a, b) && Progress(b, c)
    ensures Progress(a, c)
  {
    forall k ensures RowMoves(a, c, k) { assert RowMoves(a, b, k) && RowMoves(b, c, k); }
  }
}
