/**
 The sort key of the conversation list over whole runs: when updated_at of a row can go back, and what it never falls
 behind.
 */
module ChatStamps {
  import opened Common
  import opened ConvIds
  import opened ChatModel
  import opened ChatInvariants
  import opened ChatRuns

  // ---------------------------------------------------------------- one step

  /** e is a join of row k's user and group that commits: the user is not a member and the group has room. */
  predicate JoinsRow(s: Sys, e: Event, k: (string, string)) {
    e.Join? && k == (e.u, Group(e.g)) && (e.g, e.u) !in s.db.members && |MembersOf(s.db, e.g)| < e.maxMembers
  }

  lemma SendRaises(db: Db, inp: SendInput, serverId: string, now: Time, k: (string, string))
    requires k in db.rows
    ensures var db' := SendTx(db, inp, serverId, now).0; k in db'.rows && db.rows[k].updatedAt <= db'.rows[k].updatedAt
  {
    var (db', r) := SendTx(db, inp, serverId, now);
    if r.Committed? {
      var d := Appended(db, inp, r.m, now);
      assert db' == Touch(d, inp, r.m.seqNo, r.m.sendTime);
      TouchRaises(d, inp, r.m.seqNo, r.m.sendTime, k);
    }
  }

  lemma TouchRaises(d: Db, inp: SendInput, n: int, at: Time, k: (string, string))
    requires k in d.rows
    ensures k in Touch(d, inp, n, at).rows && d.rows[k].updatedAt <= Touch(d, inp, n, at).rows[k].updatedAt
  {}

  /** A send opens no row of a group conversation. */
  lemma SendOpensNoGroupRow(db: Db, inp: SendInput, serverId: string, now: Time, u: string, g: string)
    requires (u, Group(g)) !in db.rows
    ensures (u, Group(g)) !in SendTx(db, inp, serverId, now).0.rows
  {
    var (db', r) := SendTx(db, inp, serverId, now);
    if r.Committed? {
      assert db' == Touch(Appended(db, inp, r.m, now), inp, r.m.seqNo, r.m.sendTime);
      TouchKeepsBounds(Appended(db, inp, r.m, now), inp, r.m.seqNo, r.m.sendTime, g, u);
    }
  }

  lemma GroupsStay(s: Sys, e: Event)
    requires Allowed(s, e)
    ensures s.db.groups.Keys <= Next(s, e).db.groups.Keys
  {
    if e.SendCommit? {
      var p := s.attempts[e.a];
      var r := SendTx(s.db, p.inp, p.serverId, p.now).1;
      if r.Committed? { TouchKeepsLog(Appended(s.db, p.inp, r.m, p.now), p.inp, r.m.seqNo, r.m.sendTime); }
    }
  }

  lemma CreateKeepsRow(db: Db, g: string, owner: string, ids: seq<string>, now: Time, k: (string, string))
    requires k in db.rows
    ensures var db' := CreateTx(db, g, owner, ids, now).0; k in db'.rows && db'.rows[k] == db.rows[k]
  {
    if CreateTx(db, g, owner, ids, now).1.None? { assert k !in FirstRows(g, ids, now); }
  }

  lemma JoinStamps(s: Sys, e: Event, k: (string, string))
    requires Allowed(s, e) && e.Join?
    ensures var s' := Next(s, e);
            if JoinsRow(s, e, k) then k in s'.db.rows && s'.db.rows[k].updatedAt == e.now
            else (k in s'.db.rows <==> k in s.db.rows) && (k in s.db.rows ==> s'.db.rows[k] == s.db.rows[k])
  {
    if k.1 == Group(e.g) { assert k == (k.0, Group(e.g)); }
  }

  lemma OthersRaise(s: Sys, e: Event, k: (string, string))
    requires Allowed(s, e) && !e.Join? && k in s.db.rows && k in Next(s, e).db.rows
    ensures s.db.rows[k].updatedAt <= Next(s, e).db.rows[k].updatedAt
  {
    match e
    case Create(g, owner, ids, now) => CreateKeepsRow(s.db, g, owner, ids, now, k);
    case SendCommit(a) => SendRaises(s.db, s.attempts[a].inp, s.attempts[a].serverId, s.attempts[a].now, k);
    case _ =>
  }

  /**
   A step lowers the sort key of a row exactly when it is a committed rejoin of that user and group with an earlier
   clock.
   */
  lemma StampFallsExactly(s: Sys, e: Event, k: (string, string))
    requires Allowed(s, e) && k in s.db.rows && k in Next(s, e).db.rows
    ensures Next(s, e).db.rows[k].updatedAt < s.db.rows[k].updatedAt <==>
            JoinsRow(s, e, k) && e.now < s.db.rows[k].updatedAt
  {
    if e.Join? { JoinStamps(s, e, k); } else { OthersRaise(s, e, k); }
  }

  // ---------------------------------------------------------------- whole runs

  /** The highest stamp so far; None before there was any. */
  function HighOf(db: Db, k: (string, string), high: Option<Time>): Option<Time> {
    if k !in db.rows then high
    else Some(if high.Some? then Max(high.value, db.rows[k].updatedAt) else db.rows[k].updatedAt)
  }

  predicate Tops(t: Time, high: Option<Time>) { high.Some? ==> high.value <= t }

  /** No commit of the run stamps row k with a clock behind the highest stamp it had before. */
  ghost predicate NeverBackdated(s: Sys, es: seq<Event>, k: (string, string), high: Option<Time>)
    decreases |es|
  {
    es == [] || (Allowed(s, es[0]) && (JoinsRow(s, es[0], k) ==> Tops(es[0].now, high))
                 && NeverBackdated(Next(s, es[0]), es[1..], k, HighOf(Next(s, es[0]).db, k, high)))
  }

  /** Wherever row k exists along the run, its stamp is the highest it ever had. */
  ghost predicate Rising(s: Sys, es: seq<Event>, k: (string, string), high: Option<Time>)
    decreases |es|
  {
    es == [] || (Allowed(s, es[0]) && (k in Next(s, es[0]).db.rows ==> Tops(Next(s, es[0]).db.rows[k].updatedAt, high))
                 && Rising(Next(s, es[0]), es[1..], k, HighOf(Next(s, es[0]).db, k, high)))
  }

  /** Row k has the stamp high, or was removed with the group still there, or was never seen. */
  ghost predicate Stamped(db: Db, k: (string, string), high: Option<Time>) {
    if k in db.rows then high == Some(db.rows[k].updatedAt)
    else high.Some? ==> exists g :: k.1 == Group(g) && g in db.groups
  }

  /** A row that went is only ever put back by a join. */
  lemma OnlyJoinsReturn(s: Sys, e: Event, k: (string, string), high: Option<Time>)
    requires DbOk(s.db) && Allowed(s, e) && !e.Join? && Stamped(s.db, k, high) && k !in s.db.rows && high.Some?
    ensures k !in Next(s, e).db.rows && Stamped(Next(s, e).db, k, high)
  {
    var g :| k.1 == Group(g) && g in s.db.groups;
    GroupsStay(s, e);
    if e.SendCommit? {
      SendOpensNoGroupRow(s.db, s.attempts[e.a].inp, s.attempts[e.a].serverId, s.attempts[e.a].now, k.0, g);
    } else if e.Create? {
      CreateOpensElsewhere(s.db, e.g, e.owner, e.ids, e.now, k.0, g);
    }
  }

  lemma CreateOpensElsewhere(db: Db, g: string, owner: string, ids: seq<string>, now: Time, u: string, f: string)
    requires (u, Group(f)) !in db.rows && f in db.groups
    ensures (u, Group(f)) !in CreateTx(db, g, owner, ids, now).0.rows
  {
    if f != g && CreateTx(db, g, owner, ids, now).1.None? { CreateElsewhere(db, g, owner, ids, now, f, u); }
  }

  /** A row that goes was a group's. */
  lemma OnlyGroupRowsGo(s: Sys, e: Event, k: (string, string))
    requires DbOk(s.db) && Allowed(s, e) && k in s.db.rows && k !in Next(s, e).db.rows
    ensures exists g :: k.1 == Group(g) && g in Next(s, e).db.groups
  {
    if e.SendCommit? {
      SendRaises(s.db, s.attempts[e.a].inp, s.attempts[e.a].serverId, s.attempts[e.a].now, k);
    } else if e.Create? {
      CreateKeepsRow(s.db, e.g, e.owner, e.ids, e.now, k);
    } else if e.Join? {
      JoinStamps(s, e, k);
    } else if e.Remove? {
      assert k.1 == Group(e.g) && e.g in Next(s, e).db.groups;
    }
  }

  lemma StampedStep(s: Sys, e: Event, k: (string, string), high: Option<Time>)
    requires DbOk(s.db) && Allowed(s, e) && Stamped(s.db, k, high)
    ensures var db' := Next(s, e).db;
            (JoinsRow(s, e, k) ==> Tops(e.now, high)) <==> (k in db'.rows ==> Tops(db'.rows[k].updatedAt, high))
    ensures (JoinsRow(s, e, k) ==> Tops(e.now, high)) ==> Stamped(Next(s, e).db, k, HighOf(Next(s, e).db, k, high))
  {
    var db' := Next(s, e).db;
    if e.Join? {
      JoinStamps(s, e, k);
      assert s.db.groups == db'.groups;
    } else if k in s.db.rows {
      if k in db'.rows { OthersRaise(s, e, k); } else { OnlyGroupRowsGo(s, e, k); }
    } else if high.Some? {
      OnlyJoinsReturn(s, e, k, high);
    }
  }

  lemma {:induction false} RisingExactly(s: Sys, es: seq<Event>, k: (string, string), high: Option<Time>)
    requires SysOk(s) && Run(s, es).Some? && Stamped(s.db, k, high)
    ensures Rising(s, es, k, high) <==> NeverBackdated(s, es, k, high)
    decreases |es|
  {
    if es != [] {
      var s' := Next(s, es[0]);
      assert SysOk(s') by { StepOk(s, es[0]); }
      StampedStep(s, es[0], k, high);
      if JoinsRow(s, es[0], k) ==> Tops(es[0].now, high) { RisingExactly(s', es[1..], k, HighOf(s'.db, k, high)); }
    }
  }

  /**
   From any reachable state on, and for a row that exists or is still to come, the sort key only rises along a run
   exactly when no rejoin in it is backdated.
   */
  lemma StampsRiseExactly(s: Sys, es: seq<Event>, k: (string, string))
    requires Reachable(s) && Run(s, es).Some?
    ensures Rising(s, es, k, HighOf(s.db, k, None)) <==> NeverBackdated(s, es, k, HighOf(s.db, k, None))
  {
    assert SysOk(s) by { ReachableOk(s); }
    RisingExactly(s, es, k, HighOf(s.db, k, None));
  }
}
