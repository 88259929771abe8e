/**
 Stamps of the chat database when every clock is store.NowMs: whole milliseconds that fit an int64, whichever node
 read them.
 */
module ChatClocks {
  import opened Common
  import opened ConvIds
  import opened ChatModel
  import opened ChatInvariants
  import opened ChatRuns
  import opened Decimal
  import opened ListCursors

  /** A moment as the services read it. */
  predicate Whole(t: Time) { t % MILLISECOND == 0 && MIN_INT64 <= UnixMilli(t) <= MAX_INT64 }

  predicate WholeClock(e: Event) { e.Create? || e.Join? || e.Remove? || e.SendBegin? ==> Whole(e.now) }

  ghost predicate WholeRows(db: Db) { forall k :: k in db.rows ==> k.1 != "" && Whole(db.rows[k].updatedAt) }

  ghost predicate WholeConvs(db: Db) { forall c :: c in db.convs ==> Whole(db.convs[c].updatedAt) }

  ghost predicate WholeDb(db: Db) { WholeRows(db) && WholeConvs(db) }

  ghost predicate WholeSys(s: Sys) {
    WholeDb(s.db) && forall a :: a in s.attempts && s.attempts[a].Pending? ==> Whole(s.attempts[a].now)
  }

  lemma LockWhole(db: Db, conv: string, groupId: string, now: Time)
    requires WholeDb(db) && Whole(now)
    ensures WholeDb(Lock(db, conv, groupId, now))
  {}

  lemma TouchWhole(d: Db, inp: SendInput, n: int, at: Time)
    requires WholeRows(d) && Whole(at)
    ensures WholeRows(Touch(d, inp, n, at))
  {}

  lemma SendWhole(db: Db, inp: SendInput, serverId: string, now: Time)
    requires WholeDb(db) && Whole(now)
    ensures WholeDb(SendTx(db, inp, serverId, now).0)
  {
    var (db', r) := SendTx(db, inp, serverId, now);
    if r.Committed? {
      var d := Appended(db, inp, r.m, now);
      assert db' == Touch(d, inp, r.m.seqNo, r.m.sendTime);
      TouchKeepsLog(d, inp, r.m.seqNo, r.m.sendTime);
      TouchWhole(d, inp, r.m.seqNo, r.m.sendTime);
    }
  }

  lemma CreateWhole(db: Db, g: string, owner: string, ids: seq<string>, now: Time)
    requires WholeDb(db) && Whole(now)
    ensures WholeDb(CreateTx(db, g, owner, ids, now).0)
  {}

  lemma JoinWhole(db: Db, g: string, u: string, maxMembers: int, now: Time)
    requires WholeDb(db) && Whole(now)
    ensures WholeDb(JoinTx(db, g, u, maxMembers, now).0)
  {
    LockWhole(db, Group(g), g, now);
  }

  lemma RemoveWhole(db: Db, g: string, owner: string, operator: string, u: string, now: Time)
    requires WholeDb(db) && Whole(now)
    ensures WholeDb(RemoveTx(db, g, owner, operator, u, now).0)
  {
    LockWhole(db, Group(g), g, now);
  }

  lemma StepWhole(s: Sys, e: Event)
    requires WholeSys(s) && Allowed(s, e) && WholeClock(e)
    ensures WholeDb(Next(s, e).db)
  {
    match e
    case Create(g, owner, ids, now) => CreateWhole(s.db, g, owner, ids, now);
    case Join(g, u, maxMembers, now) => JoinWhole(s.db, g, u, maxMembers, now);
    case Remove(g, operator, u, now) => RemoveWhole(s.db, g, s.db.groups[g].ownerId, operator, u, now);
    case SendCommit(a) => SendWhole(s.db, s.attempts[a].inp, s.attempts[a].serverId, s.attempts[a].now);
    case _ =>
  }

  lemma AttemptsWhole(s: Sys, e: Event)
    requires WholeSys(s) && Allowed(s, e) && WholeClock(e)
    ensures forall a :: a in Next(s, e).attempts && Next(s, e).attempts[a].Pending? ==>
            Whole(Next(s, e).attempts[a].now)
  {}

  lemma {:induction false} RunWhole(s: Sys, es: seq<Event>)
    requires WholeSys(s) && Run(s, es).Some? && forall i :: 0 <= i < |es| ==> WholeClock(es[i])
    ensures WholeSys(Run(s, es).value)
    decreases |es|
  {
    if es != [] {
      var s' := Next(s, es[0]);
      assert WholeSys(s') by {
        StepWhole(s, es[0]);
        AttemptsWhole(s, es[0]);
      }
      RunWhole(s', es[1..]);
    }
  }

  /** Some run whose clocks are whole milliseconds is in state s. */
  ghost predicate Clocked(s: Sys) {
    exists es :: Run(Init(), es) == Some(s) && forall i :: 0 <= i < |es| ==> WholeClock(es[i])
  }

  lemma ClockedIs(s: Sys)
    requires Clocked(s)
    ensures Reachable(s) && WholeSys(s)
  {
    var es :| Run(Init(), es) == Some(s) && forall i :: 0 <= i < |es| ==> WholeClock(es[i]);
    RunWhole(Init(), es);
  }
}
