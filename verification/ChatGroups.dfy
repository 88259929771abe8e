/** Who may be in a group, and who may remove whom, over whole runs. */
module ChatGroups {
  import opened Common
  import opened ChatModel
  import opened ChatInvariants
  import opened ChatRuns

  // ---------------------------------------------------------------- roles

  /** The owner is a member and holds the owner's role, 3; everyone else is a plain member, 1. */
  ghost predicate RolesOk(db: Db) {
    && (forall g :: g in db.groups ==> (g, db.groups[g].ownerId) in db.members)
    && (forall g, u :: (g, u) in db.members ==>
          g in db.groups && db.members[(g, u)].role == if u == db.groups[g].ownerId then 3 else 1)
  }

  lemma CreateRoles(db: Db, g: string, owner: string, ids: seq<string>, now: Time)
    requires RolesOk(db) && owner in ids
    ensures RolesOk(CreateTx(db, g, owner, ids, now).0)
  {
    var (db', e) := CreateTx(db, g, owner, ids, now);
    if e.None? {
      forall h, u | (h, u) in db'.members ensures (h, u) in db.members || (h == g && u in ids) {}
    }
  }

  lemma JoinRoles(db: Db, g: string, u: string, maxMembers: int, now: Time)
    requires RolesOk(db) && g in db.groups
    ensures RolesOk(JoinTx(db, g, u, maxMembers, now).0)
  {}

  lemma RemoveRoles(db: Db, g: string, operator: string, u: string, now: Time)
    requires RolesOk(db) && g in db.groups && (operator == u ==> u != db.groups[g].ownerId)
    ensures RolesOk(RemoveTx(db, g, db.groups[g].ownerId, operator, u, now).0)
  {}

  lemma SendRoles(db: Db, inp: SendInput, serverId: string, now: Time)
    requires RolesOk(db)
    ensures RolesOk(SendTx(db, inp, serverId, now).0)
  {
    var (db', r) := SendTx(db, inp, serverId, now);
    if r.Committed? { TouchKeepsLog(Appended(db, inp, r.m, now), inp, r.m.seqNo, r.m.sendTime); }
  }

  lemma StepRoles(s: Sys, e: Event)
    requires RolesOk(s.db) && Allowed(s, e)
    ensures RolesOk(Next(s, e).db)
  {
    match e
    case Create(g, owner, ids, now) => CreateRoles(s.db, g, owner, ids, now);
    case Join(g, u, maxMembers, now) => JoinRoles(s.db, g, u, maxMembers, now);
    case Remove(g, operator, u, now) => RemoveRoles(s.db, g, operator, u, now);
    case SendCommit(a) => SendRoles(s.db, s.attempts[a].inp, s.attempts[a].serverId, s.attempts[a].now);
    case _ =>
  }

  lemma {:induction false} RunRoles(s: Sys, es: seq<Event>)
    requires RolesOk(s.db) && Run(s, es).Some?
    ensures RolesOk(Run(s, es).value.db)
    decreases |es|
  {
    if es != [] {
      StepRoles(s, es[0]);
      RunRoles(Next(s, es[0]), es[1..]);
    }
  }

  lemma ReachableRoles(s: Sys)
    requires Reachable(s)
    ensures RolesOk(s.db)
  {
    var es :| Run(Init(), es) == Some(s);
    RunRoles(Init(), es);
  }

  /** A group never loses its owner. */
  lemma OwnerStays(s: Sys, g: string)
    requires Reachable(s) && g in s.db.groups
    ensures var owner := s.db.groups[g].ownerId;
            (g, owner) in s.db.members && s.db.members[(g, owner)].role == ROLE_OWNER
  {
    ReachableRoles(s);
  }

  /** In every reachable state everyone but the owner is a plain member, however they came in. */
  lemma OthersArePlain(s: Sys, g: string, u: string)
    requires Reachable(s) && (g, u) in s.db.members
    ensures g in s.db.groups && s.db.members[(g, u)].role == if u == s.db.groups[g].ownerId then 3 else 1
  {
    ReachableRoles(s);
  }

  /** Ranks as the checks of remove know them: exactly the owner holds the owner's role. */
  ghost predicate Ranked(db: Db, g: string) {
    && g in db.groups
    && forall u :: (g, u) in db.members ==>
         1 <= db.members[(g, u)].role <= 3 && (db.members[(g, u)].role == 3 <==> u == db.groups[g].ownerId)
  }

  /** What a kick answers, whatever ranks there are: the first of these that holds. */
  lemma KickAnswers(db: Db, g: string, operator: string, u: string, now: Time)
    requires Ranked(db, g) && operator != u
    ensures var (db', e) := RemoveTx(db, g, db.groups[g].ownerId, operator, u, now);
            var listed, mine := (g, operator) in db.members, (g, u) in db.members;
            && (e.Some? ==> db' == db)
            && (e == Some(NotGroupMember) <==> !listed || (db.members[(g, operator)].role >= 2 && !mine))
            && (e == Some(NotGroupAdmin) <==> listed && db.members[(g, operator)].role == 1)
            && (e == Some(CannotKickOwner) <==>
                  listed && db.members[(g, operator)].role >= 2 && mine && u == db.groups[g].ownerId)
            && (e == Some(NoPermission) <==>
                  && listed && db.members[(g, operator)].role == 2 && mine && u != db.groups[g].ownerId
                  && db.members[(g, u)].role == 2)
            && (e.None? || e.value in {NotGroupMember, NotGroupAdmin, CannotKickOwner, NoPermission})
  {}

  /** remove's four checks amount to one rule. */
  lemma KickRule(db: Db, g: string, operator: string, u: string, now: Time)
    requires Ranked(db, g) && operator != u
    ensures RemoveTx(db, g, db.groups[g].ownerId, operator, u, now).1.None? <==>
            && (g, operator) in db.members && (g, u) in db.members
            && db.members[(g, operator)].role >= ROLE_ADMIN && db.members[(g, operator)].role > db.members[(g, u)].role
  {}

  /** In every reachable state a kick succeeds exactly when an admin or the owner removes someone of lower rank. */
  lemma KickNeedsRank(s: Sys, g: string, operator: string, u: string, now: Time)
    requires Reachable(s) && g in s.db.groups && operator != u
    ensures RemoveTx(s.db, g, s.db.groups[g].ownerId, operator, u, now).1.None? <==>
            && (g, operator) in s.db.members && (g, u) in s.db.members
            && s.db.members[(g, operator)].role >= ROLE_ADMIN
               && s.db.members[(g, operator)].role > s.db.members[(g, u)].role
  {
    assert RolesOk(s.db) by { ReachableRoles(s); }
    KickRule(s.db, g, operator, u, now);
  }

  /** As nobody is ever made an admin, only the owner kicks: anyone else in the group, and nobody else anyone. */
  lemma OnlyTheOwnerKicks(s: Sys, g: string, operator: string, u: string, now: Time)
    requires Reachable(s) && g in s.db.groups && operator != u
    ensures var (db', e) := RemoveTx(s.db, g, s.db.groups[g].ownerId, operator, u, now);
            && (e.None? <==> operator == s.db.groups[g].ownerId && (g, u) in s.db.members)
            && (e == Some(NotGroupAdmin) <==> operator != s.db.groups[g].ownerId && (g, operator) in s.db.members)
            && (e.None? || e == Some(NotGroupAdmin) || e == Some(NotGroupMember))
  {
    assert RolesOk(s.db) by { ReachableRoles(s); }
  }

  // ---------------------------------------------------------------- size

  ghost predicate Fits(db: Db, limit: int) { forall g :: |MembersOf(db, g)| <= limit }

  /** Every request of the run was made under the configured limit. */
  predicate Configured(e: Event, limit: int) {
    match e
    case Create(_, _, ids, _) => |ids| <= limit
    case Join(_, _, maxMembers, _) => maxMembers <= limit
    case _ => true
  }

  function Pairs(g: string, ids: seq<string>): set<(string, string)> { set u | u in ids :: (g, u) }

  lemma {:induction false} PairsFit(g: string, ids: seq<string>)
    ensures |Pairs(g, ids)| <= |ids|
  {
    if ids == [] {
      assert Pairs(g, ids) == {};
    } else {
      var front, u := ids[..|ids|-1], ids[|ids|-1];
      PairsFit(g, front);
      assert forall v :: v in ids <==> v in front || v == u;
      assert Pairs(g, ids) == Pairs(g, front) + {(g, u)};
    }
  }

  lemma CreatedMembers(db: Db, g: string, owner: string, ids: seq<string>, now: Time, h: string)
    requires GroupsOk(db) && g !in db.groups
    ensures var m := db.members + FirstMembers(g, owner, ids, now);
            (set k | k in m && k.0 == h) == if h == g then Pairs(g, ids) else MembersOf(db, h)
  {}

  lemma CreateFits(db: Db, g: string, owner: string, ids: seq<string>, now: Time, limit: int)
    requires GroupsOk(db) && Fits(db, limit) && |ids| <= limit
    ensures Fits(CreateTx(db, g, owner, ids, now).0, limit)
  {
    var (db', e) := CreateTx(db, g, owner, ids, now);
    if e.None? {
      assert db'.members == db.members + FirstMembers(g, owner, ids, now);
      forall h ensures |MembersOf(db', h)| <= limit {
        CreatedMembers(db, g, owner, ids, now, h);
        PairsFit(g, ids);
      }
    }
  }

  lemma JoinedMembers(db: Db, g: string, u: string, maxMembers: int, now: Time, h: string)
    requires JoinTx(db, g, u, maxMembers, now).1.None?
    ensures MembersOf(JoinTx(db, g, u, maxMembers, now).0, h)
            == if h == g then MembersOf(db, g) + {(g, u)} else MembersOf(db, h)
  {}

  lemma JoinFits(db: Db, g: string, u: string, maxMembers: int, now: Time, limit: int)
    requires Fits(db, limit) && maxMembers <= limit
    ensures Fits(JoinTx(db, g, u, maxMembers, now).0, limit)
  {
    var (db', e) := JoinTx(db, g, u, maxMembers, now);
    if e.None? {
      forall h ensures |MembersOf(db', h)| <= limit {
        assert |MembersOf(db, h)| <= limit;
        JoinedMembers(db, g, u, maxMembers, now, h);
      }
    }
  }

  lemma RemoveFits(db: Db, g: string, owner: string, operator: string, u: string, now: Time, limit: int)
    requires Fits(db, limit)
    ensures Fits(RemoveTx(db, g, owner, operator, u, now).0, limit)
  {
    var db' := RemoveTx(db, g, owner, operator, u, now).0;
    forall h ensures |MembersOf(db', h)| <= limit {
      assert MembersOf(db', h) <= MembersOf(db, h);
      SmallerFits(MembersOf(db', h), MembersOf(db, h));
    }
  }

  lemma {:induction false} SmallerFits<T>(a: set<T>, b: set<T>)
    requires a <= b
    ensures |a| <= |b|
  {
    if a != {} {
      var x :| x in a;
      SmallerFits(a - {x}, b - {x});
    }
  }

  lemma SameMembersFit(db: Db, db': Db, limit: int)
    requires Fits(db, limit) && db'.members == db.members
    ensures Fits(db', limit)
  {
    forall h ensures |MembersOf(db', h)| <= limit { assert MembersOf(db', h) == MembersOf(db, h); }
  }

  lemma StepFits(s: Sys, e: Event, limit: int)
    requires DbOk(s.db) && Fits(s.db, limit) && Allowed(s, e) && Configured(e, limit)
    ensures Fits(Next(s, e).db, limit)
  {
    match e
    case Create(g, owner, ids, now) => CreateFits(s.db, g, owner, ids, now, limit);
    case Join(g, u, maxMembers, now) => JoinFits(s.db, g, u, maxMembers, now, limit);
    case Remove(g, operator, u, now) => RemoveFits(s.db, g, s.db.groups[g].ownerId, operator, u, now, limit);
    case SendCommit(a) =>
      SendMembers(s.db, s.attempts[a].inp, s.attempts[a].serverId, s.attempts[a].now);
      SameMembersFit(s.db, Next(s, e).db, limit);
    case _ => SameMembersFit(s.db, Next(s, e).db, limit);
  }

  lemma SendMembers(db: Db, inp: SendInput, serverId: string, now: Time)
    ensures SendTx(db, inp, serverId, now).0.members == db.members
  {}

  lemma {:induction false} RunFits(s: Sys, es: seq<Event>, limit: nat)
    requires SysOk(s) && Fits(s.db, limit) && Run(s, es).Some? && forall i :: 0 <= i < |es| ==> Configured(es[i], limit)
    ensures Fits(Run(s, es).value.db, limit)
    decreases |es|
  {
    if es != [] {
      var s' := Next(s, es[0]);
      assert SysOk(s') by { StepOk(s, es[0]); }
      assert Fits(s'.db, limit) by { StepFits(s, es[0], limit); }
      RunFits(s', es[1..], limit);
    }
  }

  /** No group ever grows past the limit, however joins, kicks and rejoins interleave. */
  lemma GroupsStayWithinLimit(es: seq<Event>, limit: nat, g: string)
    requires Run(Init(), es).Some? && forall i :: 0 <= i < |es| ==> Configured(es[i], limit)
    ensures |MembersOf(Run(Init(), es).value.db, g)| <= limit
  {
    assert SysOk(Init()) by { InitOk(); }
    assert Fits(Init().db, limit) by {
      forall h ensures |MembersOf(Init().db, h)| <= limit { assert MembersOf(Init().db, h) == {}; }
    }
    RunFits(Init(), es, limit);
  }
}
