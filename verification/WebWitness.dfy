/** A refresh that ends normally without a message that was there before it began. */
module WebWitness {
  import opened Common
  import opened ChatModel
  import opened ChatInvariants
  import opened ConvIds
  import opened ListWitnesses
  import opened WebWorld
  import Client = WebClient
  import Theorems = ChatTheorems

  // ---------------------------------------------------------------- runs of the world, step by step

  lemma {:induction false} RunOn(w: World, ts: seq<Step>, t: Step)
    requires Run(w, ts).Some? && Possible(Run(w, ts).value, t)
    ensures Run(w, ts + [t]) == Some(After(Run(w, ts).value, t))
    decreases |ts|
  {
    if ts == [] {
      assert [t][1..] == [];
    } else {
      assert (ts + [t])[1..] == ts[1..] + [t];
      RunOn(After(w, ts[0]), ts[1..], t);
    }
  }

  lemma ReachOn(w: World, t: Step)
    requires Reachable(w) && Possible(w, t)
    ensures Reachable(After(w, t))
  {
    var w0, ts :| Fresh(w0) && Run(w0, ts) == Some(w);
    RunOn(w0, ts, t);
  }

  /** The services go on while the client waits. */
  lemma {:induction false} ServeOn(w: World, es: seq<Chat.Event>) returns (w': World)
    requires Reachable(w) && w.past != [] && Chat.Run(Present(w), es).Some?
    ensures Reachable(w') && w'.past != [] && Present(w') == Chat.Run(Present(w), es).value
    ensures w.past <= w'.past && w' == w.(past := w'.past)
    decreases |es|
  {
    if es == [] { return w; }
    ReachOn(w, Serve(es[0]));
    w' := ServeOn(After(w, Serve(es[0])), es[1..]);
  }

  // ---------------------------------------------------------------- a round that lists one conversation of two

  /** The client of u is asking for the first time, since moment 0. */
  ghost predicate Asking(w: World, u: string) {
    && w.u == u && w.past != [] && w.since == 0
    && w.client == Client.State(Client.Client(map[], map[], false, Client.Listing), Client.Account({}, map[], map[]))
  }

  lemma OpenedIsReachable(s: Chat.Sys, u: string) returns (w: World)
    requires Chat.Reachable(s)
    ensures Reachable(w) && Asking(w, u) && w.past == [s]
  {
    var closed := Client.State(Client.Client(map[], map[], false, Client.Idle), Client.Account({}, map[], map[]));
    var w0 := World(u, [s], 0, closed, map[], [], []);
    assert Run(w0, []) == Some(w0);
    ReachOn(w0, Turn(Client.Refresh));
    w := After(w0, Turn(Client.Refresh));
  }

  /** Two pages, the first with one conversation and the second with none. */
  ghost predicate OneThenNone(calls: seq<Pages.Call>, a: string) {
    && |calls| == 2 && calls[0].answer.Page? && calls[1].answer.Page? && calls[1].answer.rows == []
    && |calls[0].answer.rows| == 1 && calls[0].answer.rows[0].conversationId == a
  }

  lemma PagesBound(calls: seq<Pages.Call>, a: string, r: Client.Range, n: nat)
    requires OneThenNone(calls, a)
    ensures BoundsOfPages(map[a := r], map[a := 0], calls, [0, n])
  {
    var steps := Pages.StepsOf(calls);
    assert Pages.Listed(steps) == calls[0].answer.rows by {
      assert steps[1..][1..] == [];
      assert Pages.Listed(steps[1..]) == [];
    }
    forall id ensures id in map[a := r] <==> Pages.Lists(steps, id) {
      if id == a { assert Pages.Listed(steps)[0].conversationId == a; }
    }
    assert Names(calls[0], a);
  }

  /** The list is read at moment 0, and so are the bounds of a; those of b are on neither page. */
  function Got(a: string, b: string, ra: Client.Range, rb: Client.Range, calls: seq<Pages.Call>, n: nat): Step {
    Step.Lists(map[a := ra, b := rb], map[a := ra], map[a := 0, b := 0], map[a := 0], calls, [0, n])
  }

  lemma GotIsReported(w: World, a: string, b: string, ra: Client.Range, rb: Client.Range)
    requires a != b && ReportedAt(w, a, ra, 0) && ReportedAt(w, b, rb, 0)
    ensures AllReported(w, map[a := ra, b := rb], map[a := ra], map[a := 0, b := 0], map[a := 0])
  {}

  lemma GotIsPossible(
    w: World, a: string, b: string, ra: Client.Range, rb: Client.Range, calls: seq<Pages.Call>, n: nat)
    requires w.past != [] && w.client.c.phase.Listing? && a != b
    requires ReportedAt(w, a, ra, 0) && ReportedAt(w, b, rb, 0) && Paged(w, calls, [0, n])
    requires BoundsOfPages(map[a := ra], map[a := 0], calls, [0, n])
    ensures Possible(w, Got(a, b, ra, rb, calls, n))
  {
    GotIsReported(w, a, b, ra, rb);
  }

  /** The client has its lists, and only a to work on. */
  ghost predicate Listed(w: World, a: string, r: Client.Range) {
    && w.past != [] && w.client.c.cursors == map[] && !w.client.c.dirty && w.client.a.received == {}
    && w.client.c.phase == Client.Ranging(map[a := r], {a}, None) && r.maxSeq <= 0
  }

  lemma GotIsCurrent(s: Client.State, a: string, b: string, ra: Client.Range, rb: Client.Range)
    requires s.c.phase.Listing? && s.a.mins == map[] && 1 <= ra.minSeq && 1 <= rb.minSeq && a != b
    ensures Client.Allowed(s, Client.GotLists(map[a := ra, b := rb], map[a := ra]))
  {}

  lemma ListedThen(w: World, a: string, b: string, ra: Client.Range, rb: Client.Range)
    requires Asking(w, w.u) && 1 <= ra.minSeq && 1 <= rb.minSeq && ra.maxSeq <= 0 && a != b
    ensures var e := Client.GotLists(map[a := ra, b := rb], map[a := ra]);
            Client.Allowed(w.client, e) && Listed(Turned(w, e), a, ra)
              && Turned(w, e) == w.(client := Turned(w, e).client)
  {
    assert map[a := ra].Keys == {a};
    GotIsCurrent(w.client, a, b, ra, rb);
  }

  lemma GotIsTaken(w: World, a: string, b: string, ra: Client.Range, rb: Client.Range, calls: seq<Pages.Call>, n: nat)
    requires Asking(w, w.u) && Possible(w, Got(a, b, ra, rb, calls, n))
    requires 1 <= ra.minSeq && 1 <= rb.minSeq && ra.maxSeq <= 0 && a != b
    ensures var w' := After(w, Got(a, b, ra, rb, calls, n));
            Listed(w', a, ra) && w' == w.(client := w'.client, calls := calls, cuts := [0, n])
  {
    ListedThen(w.(calls := calls, cuts := [0, n]), a, b, ra, rb);
  }

  /** A round with nothing to pull ends normally. */
  lemma RoundEndsNormally(w: World, a: string, r: Client.Range) returns (w': World)
    requires Reachable(w) && Listed(w, a, r)
    ensures Reachable(w') && w' == w.(client := w'.client) && w'.client.a.received == {} && EndsNormally(w')
  {
    var start, done := Turn(Client.StartRange(a)), Turn(Client.RangesDone);
    ReachOn(w, start);
    var m := After(w, start);
    assert m.client.c.phase == Client.Ranging(map[a := r], {}, None);
    ReachOn(m, done);
    w' := After(m, done);
  }

  /** The refresh in progress ends normally. */
  ghost predicate EndsNormally(w: World) {
    w.client.c.phase.Finishing? && Client.Next(w.client, Client.RoundEnds).c.phase == Client.Idle
  }

  /** At moment 0 the services say that a has no message yet, and something of b. */
  ghost predicate Reports(w: World, a: string, b: string, ra: Client.Range, rb: Client.Range) {
    && ReportedAt(w, a, ra, 0) && ReportedAt(w, b, rb, 0)
    && 1 <= ra.minSeq && 1 <= rb.minSeq && ra.maxSeq <= 0
  }

  /** The client of w is about to get pages that name a and never b. */
  ghost predicate Ready(
    w: World, a: string, b: string, ra: Client.Range, rb: Client.Range, calls: seq<Pages.Call>, n: nat)
  {
    a != b && OneThenNone(calls, a) && Paged(w, calls, [0, n]) && Reports(w, a, b, ra, rb)
  }

  lemma RefreshOver(w: World, a: string, b: string, ra: Client.Range, rb: Client.Range, calls: seq<Pages.Call>, n: nat)
    returns (w': World)
    requires Reachable(w) && Asking(w, w.u) && Ready(w, a, b, ra, rb, calls, n)
    ensures Reachable(w') && w'.u == w.u && w'.past == w.past && w'.cuts == [0, n]
    ensures EndsNormally(w') && w'.client.a.received == {}
  {
    PagesBound(calls, a, ra, n);
    GotIsPossible(w, a, b, ra, rb, calls, n);
    GotIsTaken(w, a, b, ra, rb, calls, n);
    ReachOn(w, Got(a, b, ra, rb, calls, n));
    w' := RoundEndsNormally(After(w, Got(a, b, ra, rb, calls, n)), a, ra);
  }

  // ---------------------------------------------------------------- the single chat that was touched

  function RangeAt(s: Chat.Sys, u: string, id: string): Client.Range
    requires (u, id) in s.db.rows
  {
    Client.Range(s.db.rows[(u, id)].minSeq, VisibleMax(s.db.rows[(u, id)], MaxSeqOf(s.db, id)))
  }

  /** What MaxSeqs says of a conversation that has no message yet. */
  lemma EmptyRange(s: Chat.Sys, u: string, id: string)
    requires Chat.Reachable(s) && (u, id) in s.db.rows && !Stored(s.db.messages, id, 1)
    ensures RangeAt(s, u, id).maxSeq <= 0
  {
    Theorems.GaplessLog(s, id, 1);
    assert RowsOk(s.db) by { Chat.ReachableOk(s); }
    assert RowOk(s.db.rows[(u, id)], s.db.convs[id].maxSeq);
  }

  /** u could see message n of the conversation at moment i. */
  ghost predicate CouldSee(w: World, i: nat, id: string, n: int) {
    && i < |w.past| && Stored(w.past[i].db.messages, id, n)
    && (w.u, id) in w.past[i].db.rows && Covers(w.past[i].db.rows[(w.u, id)], n)
  }

  lemma AskedAlong(s: Chat.Sys, s': Chat.Sys, u: string) returns (w: World)
    requires Chat.Reachable(s) && Chat.Leads(s, s')
    ensures Reachable(w) && Asking(w, u) && w.past[0] == s && Present(w) == s'
  {
    var es :| Chat.Run(s, es) == Some(s');
    var asking := OpenedIsReachable(s, u);
    w := ServeOn(asking, es);
  }

  /** u has the empty conversation a and message 1 of b. */
  ghost predicate HasMessage(s: Chat.Sys, u: string, a: string, b: string) {
    && (u, a) in s.db.rows && (u, b) in s.db.rows && a != b
    && !Stored(s.db.messages, a, 1) && Stored(s.db.messages, b, 1) && Covers(s.db.rows[(u, b)], 1)
  }

  lemma ReportsThen(w: World, a: string, b: string)
    requires w.past != [] && w.since == 0 && Chat.Reachable(w.past[0]) && HasMessage(w.past[0], w.u, a, b)
    ensures Reports(w, a, b, RangeAt(w.past[0], w.u, a), RangeAt(w.past[0], w.u, b))
  {
    EmptyRange(w.past[0], w.u, a);
    FirstSeq(w.past[0], w.u, a);
    FirstSeq(w.past[0], w.u, b);
  }

  lemma TakenThen(w: World, calls: seq<Pages.Call>)
    requires w.past != [] && w.since == 0 && |calls| == 2
    requires calls[0].table == Tables.TableOf(w.past[0].db, w.u)
    requires calls[1].table == Tables.TableOf(Present(w).db, w.u)
    ensures TakenAt(w, calls, [0, |w.past| - 1])
  {}

  /** The refresh of w ends normally without message 1 of b, which u could see before it began. */
  ghost predicate Misses(w: World, b: string) {
    && Reachable(w) && EndsNormally(w) && CouldSee(w, 0, b, 1) && (b, 1) !in w.client.a.received
    && forall p :: 0 <= p < |w.cuts| ==> w.cuts[p] < |w.past| && (w.u, b) in w.past[w.cuts[p]].db.rows
  }

  /** Pages before and after s' took over from s name a and never b. */
  ghost predicate Overtaken(s: Chat.Sys, s': Chat.Sys, u: string, a: string, b: string, calls: seq<Pages.Call>) {
    && HasMessage(s, u, a, b) && (u, b) in s'.db.rows && OneThenNone(calls, a) && Pages.Calls(calls, "")
    && calls[0].table == Tables.TableOf(s.db, u) && calls[1].table == Tables.TableOf(s'.db, u)
  }

  lemma ReadyThen(w: World, a: string, b: string, calls: seq<Pages.Call>) returns (ra: Client.Range, rb: Client.Range)
    requires w.past != [] && w.since == 0 && Chat.Reachable(w.past[0])
    requires Overtaken(w.past[0], Present(w), w.u, a, b, calls)
    ensures Ready(w, a, b, ra, rb, calls, |w.past| - 1)
  {
    ra, rb := RangeAt(w.past[0], w.u, a), RangeAt(w.past[0], w.u, b);
    assert TakenAt(w, calls, [0, |w.past| - 1]) by { TakenThen(w, calls); }
    ReportsThen(w, a, b);
  }

  lemma MissesSo(w: World, a: string, b: string, calls: seq<Pages.Call>)
    requires Reachable(w) && EndsNormally(w) && w.client.a.received == {} && w.past != []
    requires w.cuts == [0, |w.past| - 1] && Overtaken(w.past[0], Present(w), w.u, a, b, calls)
    ensures Misses(w, b)
  {}

  lemma MissesThen(w: World, w': World, a: string, b: string, calls: seq<Pages.Call>)
    requires Reachable(w') && EndsNormally(w') && w'.client.a.received == {} && w.past != []
    requires w'.u == w.u && w'.past == w.past && w'.cuts == [0, |w.past| - 1]
    requires Overtaken(w.past[0], Present(w), w.u, a, b, calls)
    ensures Misses(w', b)
  {
    MissesSo(w', a, b, calls);
  }

  lemma RefreshFrom(w: World, a: string, b: string, calls: seq<Pages.Call>) returns (w': World)
    requires Reachable(w) && Asking(w, w.u) && Chat.Reachable(w.past[0])
    requires Overtaken(w.past[0], Present(w), w.u, a, b, calls)
    ensures Reachable(w') && EndsNormally(w') && w'.client.a.received == {}
    ensures w'.u == w.u && w'.past == w.past && w'.cuts == [0, |w.past| - 1]
  {
    var ra, rb := ReadyThen(w, a, b, calls);
    w' := RefreshOver(w, a, b, ra, rb, calls, |w.past| - 1);
  }

  lemma MissedFrom(w: World, a: string, b: string, calls: seq<Pages.Call>) returns (w': World)
    requires Reachable(w) && Asking(w, w.u) && Chat.Reachable(w.past[0])
    requires Overtaken(w.past[0], Present(w), w.u, a, b, calls)
    ensures Misses(w', b) && w'.past == w.past
  {
    w' := RefreshFrom(w, a, b, calls);
    MissesThen(w, w', a, b, calls);
  }

  lemma MissedAlong(s: Chat.Sys, s': Chat.Sys, u: string, a: string, b: string, calls: seq<Pages.Call>)
    returns (w: World)
    requires Chat.Reachable(s) && Chat.Leads(s, s') && Overtaken(s, s', u, a, b, calls)
    ensures Misses(w, b) && w.past != [] && w.past[0] == s && Present(w) == s'
  {
    var asked := AskedAlong(s, s', u);
    w := MissedFrom(asked, a, b, calls);
  }

  lemma ServesIsRun(s: Chat.Sys, s': Chat.Sys, users: set<string>)
    requires Serves(s, s', users)
    ensures Chat.Leads(s, s')
  {
    var es :| Chat.Run(s, es) == Some(s') && AllLetThrough(s, es, users);
  }

  lemma MemberIsOvertaken() returns (s: Chat.Sys, s': Chat.Sys, calls: seq<Pages.Call>)
    ensures Serves(Chat.Init(), s, USERS) && Serves(s, s', USERS) && Overtaken(s, s', MEMBER, A, S, calls)
  {
    s, s', calls := TouchedIsMissed();
    SingleIsNotGroup(PEER, MEMBER, TEAM);
    assert s.db.messages[0].conv == S;
  }

  /**
   A touch between two pages is enough: a refresh ends normally, the user could see a message before its round began and
   had the conversation whenever a page was answered, and yet has not received it.
   */
  lemma TouchedIsNotCaughtUp() returns (w: World)
    ensures w.past != [] && Serves(Chat.Init(), w.past[0], USERS) && Serves(w.past[0], Present(w), USERS)
    ensures Misses(w, S)
  {
    var s, s', calls := MemberIsOvertaken();
    ServesIsRun(Chat.Init(), s, USERS);
    ServesIsRun(s, s', USERS);
    w := MissedAlong(s, s', MEMBER, A, S, calls);
  }
}
