/** Conversation lists taken page by page while the chat services run. Times are nanoseconds here. */
module ListRuns {
  import opened Common
  import opened ConvIds
  import opened ChatModel
  import opened ChatRuns
  import opened ChatStamps
  import opened ChatClocks
  import opened ListCursors
  import opened Paging

  /** The table a page of u's list is taken from. */
  function TableOf(db: Db, u: string): Table {
    map k | k in db.rows && k.0 == u :: k.1 := db.rows[k].updatedAt
  }

  /** Rows stamped by whole-millisecond clocks are rows a cursor can name. */
  lemma ClockedTables(db: Db, u: string)
    requires WholeRows(db)
    ensures Nameable(TableOf(db, u))
  {
    forall id | id in TableOf(db, u) ensures id != "" && Whole(TableOf(db, u)[id]) { assert (u, id) in db.rows; }
  }

  // ---------------------------------------------------------------- a traversal along a run

  /** The state after the first n events. */
  ghost function At(s: Sys, es: seq<Event>, n: nat): Sys
    requires Run(s, es).Some? && n <= |es|
    decreases n
  {
    if n == 0 then s else At(Next(s, es[0]), es[1..], n - 1)
  }

  lemma {:induction false} WholeAt(s: Sys, es: seq<Event>, n: nat)
    requires WholeSys(s) && Run(s, es).Some? && n <= |es| && forall i :: 0 <= i < |es| ==> WholeClock(es[i])
    ensures WholeSys(At(s, es, n))
    decreases n
  {
    if n > 0 {
      assert WholeSys(Next(s, es[0])) by {
        StepWhole(s, es[0]);
        AttemptsWhole(s, es[0]);
      }
      WholeAt(Next(s, es[0]), es[1..], n - 1);
    }
  }

  lemma {:induction false} RisesFrom(s: Sys, es: seq<Event>, k: (string, string), high: Option<Time>, n: nat)
    requires Run(s, es).Some? && Rising(s, es, k, high) && n <= |es|
    requires k in s.db.rows ==> Tops(s.db.rows[k].updatedAt, high)
    ensures k in At(s, es, n).db.rows ==> Tops(At(s, es, n).db.rows[k].updatedAt, high)
    decreases n
  {
    if n > 0 { RisesFrom(Next(s, es[0]), es[1..], k, HighOf(Next(s, es[0]).db, k, high), n - 1); }
  }

  lemma {:induction false} RisesBetween(s: Sys, es: seq<Event>, k: (string, string), high: Option<Time>, m: nat, n: nat)
    requires Run(s, es).Some? && Rising(s, es, k, high) && m <= n <= |es|
    requires k in s.db.rows ==> high == Some(s.db.rows[k].updatedAt)
    requires k in At(s, es, m).db.rows && k in At(s, es, n).db.rows
    ensures At(s, es, m).db.rows[k].updatedAt <= At(s, es, n).db.rows[k].updatedAt
    decreases m
  {
    if m == 0 {
      RisesFrom(s, es, k, high, n);
    } else {
      var s' := Next(s, es[0]);
      RisesBetween(s', es[1..], k, HighOf(s'.db, k, high), m - 1, n - 1);
    }
  }

  /** Call p is answered from u's rows at moment cuts[p] of the run, and the moments go forward. */
  ghost predicate TakenAlong(s: Sys, es: seq<Event>, u: string, calls: seq<Call>, cuts: seq<nat>) {
    && Run(s, es).Some? && |cuts| == |calls|
    && (forall p :: 0 <= p < |cuts| ==> cuts[p] <= |es| && calls[p].table == TableOf(At(s, es, cuts[p]).db, u))
    && (forall p, q :: 0 <= p < q < |cuts| ==> cuts[p] <= cuts[q])
  }

  lemma TablesAlong(s: Sys, es: seq<Event>, u: string, calls: seq<Call>, cuts: seq<nat>)
    requires Clocked(s) && (forall i :: 0 <= i < |es| ==> WholeClock(es[i])) && TakenAlong(s, es, u, calls, cuts)
    ensures forall p :: 0 <= p < |calls| ==> Nameable(calls[p].table)
  {
    assert WholeSys(s) by { ClockedIs(s); }
    forall p | 0 <= p < |calls| ensures Nameable(calls[p].table) {
      WholeAt(s, es, cuts[p]);
      ClockedTables(At(s, es, cuts[p]).db, u);
    }
  }

  lemma ForwardAlong(s: Sys, es: seq<Event>, u: string, calls: seq<Call>, cuts: seq<nat>, id: string)
    requires Reachable(s) && TakenAlong(s, es, u, calls, cuts)
    requires forall p :: 0 <= p < |calls| ==> calls[p].answer.Page?
    requires NeverBackdated(s, es, (u, id), HighOf(s.db, (u, id), None))
    ensures Forward(StepsOf(calls), id)
  {
    var k, steps := (u, id), StepsOf(calls);
    var high := HighOf(s.db, k, None);
    assert Rising(s, es, k, high) by { StampsRiseExactly(s, es, k); }
    forall p, q | 0 <= p < q < |steps| && id in steps[p].table && id in steps[q].table
      ensures steps[p].table[id] <= steps[q].table[id]
    {
      RisesBetween(s, es, k, high, cuts[p], cuts[q]);
    }
  }

  /** Positions i and j of the list do not both name id. */
  ghost predicate OnceAt(steps: seq<Step>, id: string, i: nat, j: nat) {
    i < j < |Listed(steps)| ==> !(Listed(steps)[i].conversationId == id && Listed(steps)[j].conversationId == id)
  }

  /**
   A user pages through their list while anyone sends, reads, creates, joins and leaves: no conversation, whether they
   have it at the start or only later, is listed twice, unless a rejoin of theirs in between was stamped by a clock
   behind what the row showed before.
   */
  lemma ListedOnceAlongRuns(
    s: Sys, es: seq<Event>, u: string, calls: seq<Call>, cuts: seq<nat>, cursor: string, id: string, i: nat, j: nat)
    requires Clocked(s) && (forall n :: 0 <= n < |es| ==> WholeClock(es[n]))
    requires TakenAlong(s, es, u, calls, cuts) && Calls(calls, cursor)
    requires NeverBackdated(s, es, (u, id), HighOf(s.db, (u, id), None))
    ensures forall p :: 0 <= p < |calls| ==> calls[p].answer.Page?
    ensures OnceAt(StepsOf(calls), id, i, j)
  {
    TablesAlong(s, es, u, calls, cuts);
    CallsTraverse(calls, cursor);
    var steps := StepsOf(calls);
    assert Forward(steps, id) by {
      ClockedIs(s);
      ForwardAlong(s, es, u, calls, cuts, id);
    }
    if i < j < |Listed(steps)| { NothingListedTwice(steps, DecodeCursor(cursor).value, id, i, j); }
  }

  // ---------------------------------------------------------------- a rejoin behind the clock

  /** Everything about u's list but the conversation of g is as it was, and that one carries the stamp now. */
  ghost predicate MovedKey(db: Db, db': Db, u: string, g: string, now: Time) {
    && (u, Group(g)) in db'.rows && db'.rows[(u, Group(g))].updatedAt == now
    && forall c :: c != Group(g) ==>
         ((u, c) in db'.rows <==> (u, c) in db.rows) && ((u, c) in db.rows ==> db'.rows[(u, c)] == db.rows[(u, c)])
  }

  lemma RejoinTx(db: Db, g: string, owner: string, u: string, left: Time, maxMembers: int, now: Time)
    requires (g, u) in db.members && |MembersOf(db, g)| <= maxMembers
    ensures var (d, e) := RemoveTx(db, g, owner, u, u, left);
            && e.None? && JoinTx(d, g, u, maxMembers, now).1.None?
            && MovedKey(db, JoinTx(d, g, u, maxMembers, now).0, u, g, now)
  {
    var d := RemoveTx(db, g, owner, u, u, left).0;
    assert MembersOf(d, g) == MembersOf(db, g) - {(g, u)};
  }

  /** Leaving a group and coming back moves its key to the clock of the rejoin, forward or back, and no other key. */
  lemma RejoinMovesKey(s: Sys, g: string, u: string, left: Time, maxMembers: int, now: Time)
    requires (g, u) in s.db.members && g in s.db.groups && u != s.db.groups[g].ownerId
    requires |MembersOf(s.db, g)| <= maxMembers
    ensures var m := Next(s, Remove(g, u, u, left)); var e := Join(g, u, maxMembers, now);
            Allowed(m, e) && Leads(s, Next(m, e)) && MovedKey(s.db, Next(m, e).db, u, g, now)
  {
    var r, e := Remove(g, u, u, left), Join(g, u, maxMembers, now);
    var m := Next(s, r);
    RejoinTx(s.db, g, s.db.groups[g].ownerId, u, left, maxMembers, now);
    assert Run(m, [e]) == Some(Next(m, e)) by { assert [e][1..] == []; }
    assert Run(s, [r, e]) == Some(Next(m, e)) by { assert [r, e][1..] == [e]; }
  }

  /**
   Paging across such a rejoin lists the conversation again exactly when its stamp lies after the first page's last row.
   */
  lemma RejoinRelists(db: Db, db': Db, u: string, g: string, now: Time, steps: seq<Step>, cur: ListCursor)
    requires MovedKey(db, db', u, g, now) && Traversal(steps, cur) && |steps| > 1 && steps[0].table == TableOf(db, u)
    requires forall i :: 0 < i < |steps| ==> steps[i].table == TableOf(db', u)
    ensures steps[0].rows != []
    ensures Lists(steps[1..], Group(g)) <==> After(ListCursor(now, Group(g)), LastOf(steps[0].rows))
  {
    forall i | 0 < i < |steps| ensures InTable(steps[i].table, ListCursor(now, Group(g))) {
      assert (u, Group(g)) in db'.rows;
    }
    RelistedExactly(steps, cur, 0, ListCursor(now, Group(g)));
  }
}
