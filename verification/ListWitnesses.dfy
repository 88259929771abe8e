/**
 Two runs of the services that show where conversation lists stop short: a conversation listed twice, and one missed.
 */
module ListWitnesses {
  import opened Common
  import opened ConvIds
  import opened ChatModel
  import opened ChatInvariants
  import opened ChatRuns
  import opened ListCursors
  import opened Base64
  import opened Paging
  import opened ListRuns
  import Identity
  import Services = ChatServices

  // ---------------------------------------------------------------- runs the services let through

  /** The service that starts e has no reason to refuse it; users are the ids the store has a user for. */
  ghost predicate LetThrough(s: Sys, e: Event, users: set<string>) {
    match e
    case Create(_, owner, ids, _) =>
      NoRepeat(ids) && exists text, max :: Services.CreateRefused(text, Services.People(owner, ids), max, users).None?
    case Join(g, u, _, _) => u in users && g in s.db.groups && !s.db.groups[g].dismissed
    case Remove(g, _, _, _) => g in s.db.groups && !s.db.groups[g].dismissed
    case SendBegin(_, inp, _, _) => exists form, max :: Services.SendRefused(s.db, users, inp, form, max).None?
    case _ => true
  }

  ghost predicate AllLetThrough(s: Sys, es: seq<Event>, users: set<string>)
    decreases |es|
  {
    es == [] || (Allowed(s, es[0]) && LetThrough(s, es[0], users) && AllLetThrough(Next(s, es[0]), es[1..], users))
  }

  /** Some run of requests the services let through leads from s to s'. */
  ghost predicate Serves(s: Sys, s': Sys, users: set<string>) {
    exists es :: Run(s, es) == Some(s') && AllLetThrough(s, es, users)
  }

  lemma {:induction false} OneMore(s: Sys, es: seq<Event>, e: Event, users: set<string>)
    requires Run(s, es).Some? && AllLetThrough(s, es, users)
    requires Allowed(Run(s, es).value, e) && LetThrough(Run(s, es).value, e, users)
    ensures Run(s, es + [e]) == Some(Next(Run(s, es).value, e)) && AllLetThrough(s, es + [e], users)
    decreases |es|
  {
    if es == [] {
      assert [e][1..] == [];
    } else {
      assert (es + [e])[1..] == es[1..] + [e];
      OneMore(Next(s, es[0]), es[1..], e, users);
    }
  }

  lemma ServesOn(s: Sys, m: Sys, e: Event, users: set<string>)
    requires Serves(s, m, users) && Allowed(m, e) && LetThrough(m, e, users)
    ensures Serves(s, Next(m, e), users)
  {
    var es :| Run(s, es) == Some(m) && AllLetThrough(s, es, users);
    OneMore(s, es, e, users);
  }

  lemma ServesNothing(s: Sys, users: set<string>)
    ensures Serves(s, s, users)
  {
    assert Run(s, []) == Some(s) && AllLetThrough(s, [], users);
  }

  // ---------------------------------------------------------------- the people, the group and the requests

  const OWNER: string := "u___1"
  const MEMBER: string := "u___2"
  const PEER: string := "u___3"
  const USERS: set<string> := {OWNER, MEMBER, PEER}
  const FOUNDERS: seq<string> := [OWNER, MEMBER]
  /** A group id as shortId makes them: ten bytes in lower-case base32. */
  const TEAM: string := "abcdefghijklmnop"
  const A := Group(TEAM)
  const S := Single(PEER, MEMBER)
  const M1: string := "0190c0de-0000-7000-8000-000000000001"
  const M2: string := "0190c0de-0000-7000-8000-000000000002"
  const HELLO := SendInput(PEER, "c1", false, MEMBER, "", "\"hello\"", false)
  const AGAIN := SendInput(PEER, "c2", false, MEMBER, "", "\"again\"", false)

  lemma UsersAreValid()
    ensures Identity.Valid(OWNER) && Identity.Valid(MEMBER) && Identity.Valid(PEER)
    ensures OWNER != MEMBER && MEMBER != PEER && OWNER != PEER
  {
    Identity.NumberedIsValid(1, OWNER);
    Identity.NumberedIsValid(2, MEMBER);
    Identity.NumberedIsValid(3, PEER);
  }

  lemma FoundersAre()
    ensures NoRepeat(FOUNDERS) && Services.People(OWNER, FOUNDERS) == {OWNER, MEMBER}
    ensures |Services.People(OWNER, FOUNDERS)| == 2
  {
    UsersAreValid();
    assert Services.People(OWNER, FOUNDERS) == {OWNER, MEMBER};
  }

  lemma CreationIsLetThrough()
    ensures NoRepeat(FOUNDERS)
    ensures exists text, max :: Services.CreateRefused(text, Services.People(OWNER, FOUNDERS), max, USERS).None?
  {
    var text, people := Services.GroupText("team", "", "", ""), Services.People(OWNER, FOUNDERS);
    FoundersAre();
    UsersAreValid();
    assert Services.CreateRefused(text, people, 500, USERS).None?;
  }

  lemma MessagesAreLetThrough(db: Db)
    ensures exists form, max :: Services.SendRefused(db, USERS, HELLO, form, max).None?
    ensures exists form, max :: Services.SendRefused(db, USERS, AGAIN, form, max).None?
  {
    UsersAreValid();
    var form := Services.Form(false, true, true);
    assert Services.SendRefused(db, USERS, HELLO, form, 1000).None?;
    assert Services.SendRefused(db, USERS, AGAIN, form, 1000).None?;
  }

  // ---------------------------------------------------------------- one group and one single chat

  const MS := MILLISECOND

  const FOUND := Create(TEAM, OWNER, FOUNDERS, 9 * MS)

  /** The owner founds the group with the member at 9 ms by one clock. */
  function Founded(): Sys { Next(ChatRuns.Init(), FOUND) }

  lemma FoundedIs()
    ensures TEAM in Founded().db.groups && Founded().db.groups[TEAM] == ChatGroup(OWNER, false)
    ensures (TEAM, MEMBER) in Founded().db.members
    ensures Founded().db.messages == [] && Founded().attempts == map[] && Founded().minted == {}
    ensures forall c :: (MEMBER, c) in Founded().db.rows <==> c == A
    ensures Founded().db.rows[(MEMBER, A)].updatedAt == 9 * MS && forall c :: c in Founded().db.convs ==> c == A
  {
    assert MEMBER in FOUNDERS;
    assert (MEMBER, A) in FirstRows(TEAM, FOUNDERS, 9 * MS);
    assert (TEAM, MEMBER) in FirstMembers(TEAM, OWNER, FOUNDERS, 9 * MS);
  }

  lemma FoundingIsServed()
    ensures Serves(ChatRuns.Init(), Founded(), USERS)
  {
    ServesNothing(ChatRuns.Init(), USERS);
    CreationIsLetThrough();
    ServesOn(ChatRuns.Init(), ChatRuns.Init(), FOUND, USERS);
  }

  /** The member's rows are the group's at 9 ms and the single chat's at t. */
  ghost predicate TwoRows(db: Db, t: Time) {
    && (forall c :: (MEMBER, c) in db.rows <==> c == A || c == S)
    && db.rows[(MEMBER, A)].updatedAt == 9 * MS && db.rows[(MEMBER, S)].updatedAt == t
  }

  ghost predicate Standing(s: Sys) {
    TEAM in s.db.groups && s.db.groups[TEAM] == ChatGroup(OWNER, false) && (TEAM, MEMBER) in s.db.members
  }

  lemma HelloTx(db: Db)
    requires db.messages == [] && (forall c :: (MEMBER, c) in db.rows <==> c == A)
             && (forall c :: c in db.convs ==> c == A)
    requires db.rows[(MEMBER, A)].updatedAt == 9 * MS
    ensures var (d, r) := SendTx(db, HELLO, M1, 8 * MS);
            && r.Committed? && TwoRows(d, 8 * MS) && d.members == db.members && d.groups == db.groups
            && d.messages == [NewMessage(HELLO, M1, 1, 8 * MS)] && S in d.convs
               && d.convs[S] == Conversation("", 1, 8 * MS)
            && Covers(d.rows[(MEMBER, S)], 1)
  {
    SingleIsNotGroup(PEER, MEMBER, TEAM);
    var m := NewMessage(HELLO, M1, 1, 8 * MS);
    assert Locked(db, S, "", 8 * MS) == Conversation("", 0, 8 * MS);
    assert !Conflict(db.messages, m);
    TouchKeepsLog(Appended(db, HELLO, m, 8 * MS), HELLO, 1, 8 * MS);
  }

  /**
   The peer's first message arrives at 8 ms by another clock: the member lists the group first, then the single chat.
   */
  lemma Greeted() returns (s: Sys)
    ensures Serves(ChatRuns.Init(), s, USERS) && Standing(s) && TwoRows(s.db, 8 * MS)
    ensures s.db.messages == [NewMessage(HELLO, M1, 1, 8 * MS)] && S in s.db.convs
    ensures s.db.convs[S] == Conversation("", 1, 8 * MS) && 1 !in s.attempts && s.minted == {M1}
    ensures Covers(s.db.rows[(MEMBER, S)], 1)
  {
    FoundedIs();
    FoundingIsServed();
    var f, e := Founded(), SendBegin(0, HELLO, M1, 8 * MS);
    MessagesAreLetThrough(f.db);
    ServesOn(ChatRuns.Init(), f, e, USERS);
    var b := Next(f, e);
    assert b.db == f.db && b.attempts[0] == Pending(HELLO, M1, 8 * MS);
    HelloTx(f.db);
    ServesOn(ChatRuns.Init(), b, SendCommit(0), USERS);
    s := Next(b, SendCommit(0));
  }

  // ---------------------------------------------------------------- a conversation listed twice

  function First(): seq<ListCursor> { [ListCursor(9 * MS, A)] }

  function Second(): seq<ListCursor> { [ListCursor(8 * MS, S), ListCursor(3 * MS, A)] }

  lemma AIsBytes()
    ensures IsBytes(A) && A != ""
  {}

  /** A page of one from the two rows: the group, and more to come. */
  lemma FirstPage(db: Db, limit: int, pageMax: int)
    requires TwoRows(db, 8 * MS) && PageSize(limit, pageMax) == 1
    ensures IsBytes(A)
    ensures Answers(TableOf(db, MEMBER), "", limit, pageMax, Page(First(), EncodeCursor(First()[0]), true))
  {
    AIsBytes();
    assert InTable(TableOf(db, MEMBER), First()[0]) by { assert (MEMBER, A) in db.rows; }
  }

  /** After the rejoin at 3 ms, the rest of the list is the single chat and the group again. */
  lemma SecondPage(db: Db, db': Db)
    requires TwoRows(db, 8 * MS) && MovedKey(db, db', MEMBER, TEAM, 3 * MS) && IsBytes(A)
    ensures Answers(TableOf(db', MEMBER), EncodeCursor(First()[0]), 100, 100, Page(Second(), "", false))
  {
    SingleIsNotGroup(PEER, MEMBER, TEAM);
    assert DecodeCursor(EncodeCursor(First()[0])) == Some(First()[0]) by { CursorRoundTrip(First()[0]); }
    var t := TableOf(db', MEMBER);
    assert InTable(t, Second()[0]) && InTable(t, Second()[1]) by {
      assert (MEMBER, A) in db'.rows && (MEMBER, S) in db'.rows;
    }
    forall k | InTable(t, k) ensures k in Second() { assert (MEMBER, k.conversationId) in db'.rows; }
  }

  lemma Rejoins(s: Sys) returns (s': Sys)
    requires Standing(s)
    ensures Serves(s, s', USERS) && MovedKey(s.db, s'.db, MEMBER, TEAM, 3 * MS)
  {
    var max := |MembersOf(s.db, TEAM)|;
    var leave, join := Remove(TEAM, MEMBER, MEMBER, 10 * MS), Join(TEAM, MEMBER, max, 3 * MS);
    RejoinMovesKey(s, TEAM, MEMBER, 10 * MS, max, 3 * MS);
    ServesNothing(s, USERS);
    ServesOn(s, s, leave, USERS);
    ServesOn(s, Next(s, leave), join, USERS);
    s' := Next(Next(s, leave), join);
  }

  /** Requests the services let through, and two pages of the member along them, that list the group twice. */
  lemma BackdatedRejoinListsTwice() returns (s: Sys, s': Sys, calls: seq<Call>)
    ensures Serves(ChatRuns.Init(), s, USERS) && Serves(s, s', USERS) && MovedKey(s.db, s'.db, MEMBER, TEAM, 3 * MS)
    ensures |calls| == 2 && calls[0].table == TableOf(s.db, MEMBER) && calls[1].table == TableOf(s'.db, MEMBER)
    ensures Calls(calls, "") && calls[0].answer == Page(First(), calls[0].answer.next, true)
    ensures calls[1].answer == Page(Second(), "", false)
  {
    s := Greeted();
    s' := Rejoins(s);
    FirstPage(s.db, 1, 100);
    SecondPage(s.db, s'.db);
    calls := [Call(TableOf(s.db, MEMBER), 1, 100, Page(First(), EncodeCursor(First()[0]), true)),
              Call(TableOf(s'.db, MEMBER), 100, 100, Page(Second(), "", false))];
    assert Calls(calls[1..], calls[0].answer.next);
  }

  // ---------------------------------------------------------------- a conversation missed

  /** The page size web/src/client/client.ts asks for. */
  const LIMIT := 200

  lemma AgainTx(db: Db)
    requires TwoRows(db, 8 * MS) && db.messages == [NewMessage(HELLO, M1, 1, 8 * MS)]
    requires S in db.convs && db.convs[S] == Conversation("", 1, 8 * MS)
    ensures var (d, r) := SendTx(db, AGAIN, M2, 12 * MS); r.Committed? && TwoRows(d, 12 * MS)
  {
    SingleIsNotGroup(PEER, MEMBER, TEAM);
    var m := NewMessage(AGAIN, M2, 2, 12 * MS);
    assert M1[35] != M2[35] && AGAIN.clientId[1] != HELLO.clientId[1];
    assert !Collides(db.messages[0], m);
    assert !Conflict(db.messages, m);
  }

  lemma WritesAgain(s: Sys) returns (s': Sys)
    requires TwoRows(s.db, 8 * MS) && s.db.messages == [NewMessage(HELLO, M1, 1, 8 * MS)] && S in s.db.convs
    requires s.db.convs[S] == Conversation("", 1, 8 * MS) && 1 !in s.attempts && s.minted == {M1}
    ensures Serves(s, s', USERS) && TwoRows(s'.db, 12 * MS)
  {
    var e := SendBegin(1, AGAIN, M2, 12 * MS);
    assert M1[35] != M2[35];
    ServesNothing(s, USERS);
    MessagesAreLetThrough(s.db);
    ServesOn(s, s, e, USERS);
    var b := Next(s, e);
    assert FindByClient(s.db.messages, S, PEER, "c2").None? by { assert s.db.messages[1..] == []; }
    assert b.db == s.db && b.attempts[1] == Pending(AGAIN, M2, 12 * MS);
    AgainTx(s.db);
    ServesOn(s, b, SendCommit(1), USERS);
    s' := Next(b, SendCommit(1));
  }

  /** With the single chat at 12 ms nothing is left after the group. */
  lemma NothingLeft(db: Db)
    requires TwoRows(db, 12 * MS) && IsBytes(A)
    ensures Answers(TableOf(db, MEMBER), EncodeCursor(First()[0]), LIMIT, 1, Page([], "", false))
  {
    AIsBytes();
    assert DecodeCursor(EncodeCursor(First()[0])) == Some(First()[0]) by { CursorRoundTrip(First()[0]); }
    var t := TableOf(db, MEMBER);
    forall k | InTable(t, k) ensures !After(k, First()[0]) {
      assert (MEMBER, k.conversationId) in db.rows;
      NotAfterItself(First()[0]);
    }
  }

  /**
   Requests the services let through, and the member's pages along them, asked as the web client asks from a server with
   pages of one row, that never list the single chat.
   */
  lemma TouchedIsMissed() returns (s: Sys, s': Sys, calls: seq<Call>)
    ensures Serves(ChatRuns.Init(), s, USERS) && Serves(s, s', USERS)
    ensures TwoRows(s.db, 8 * MS) && s.db.messages == [NewMessage(HELLO, M1, 1, 8 * MS)] && TwoRows(s'.db, 12 * MS)
    ensures Covers(s.db.rows[(MEMBER, S)], 1)
    ensures |calls| == 2 && calls[0].table == TableOf(s.db, MEMBER) && calls[1].table == TableOf(s'.db, MEMBER)
    ensures S in calls[0].table && S in calls[1].table && Calls(calls, "")
    ensures calls[0].answer == Page(First(), calls[0].answer.next, true) && calls[1].answer == Page([], "", false)
  {
    s := Greeted();
    s' := WritesAgain(s);
    assert S in TableOf(s.db, MEMBER) by { assert (MEMBER, S) in s.db.rows; }
    assert S in TableOf(s'.db, MEMBER) by { assert (MEMBER, S) in s'.db.rows; }
    FirstPage(s.db, LIMIT, 1);
    NothingLeft(s'.db);
    calls := [Call(TableOf(s.db, MEMBER), LIMIT, 1, Page(First(), EncodeCursor(First()[0]), true)),
              Call(TableOf(s'.db, MEMBER), LIMIT, 1, Page([], "", false))];
    assert Calls(calls[1..], calls[0].answer.next);
  }
}
