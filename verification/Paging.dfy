/**
 Conversation list paging (internal/service/conv/page.go over ListUserConversations) while the table changes between
 pages. A table maps the conversations of one user to their updated_at.
 */
module Paging {
  import opened Common
  import opened ConvIds
  import opened Decimal
  import opened Base64
  import opened ListCursors

  type Table = map<string, int>

  function RowKey(t: Table, id: string): ListCursor
    requires id in t
  {
    ListCursor(t[id], id)
  }

  /** a comes after b in the list: newest first, then by id downwards. */
  predicate After(a: ListCursor, b: ListCursor) {
    a.updatedAt < b.updatedAt || (a.updatedAt == b.updatedAt && LexLess(a.conversationId, b.conversationId))
  }

  lemma AfterTransitive(a: ListCursor, b: ListCursor, c: ListCursor)
    requires After(a, b) && After(b, c)
    ensures After(a, c)
  {
    if a.updatedAt == b.updatedAt == c.updatedAt {
      LexTransitive(a.conversationId, b.conversationId, c.conversationId);
    }
  }

  lemma AfterTotal(a: ListCursor, b: ListCursor)
    ensures After(a, b) || a == b || After(b, a)
  {
    LexTotal(a.conversationId, b.conversationId);
  }

  lemma AfterAsymmetric(a: ListCursor, b: ListCursor)
    requires After(a, b)
    ensures !After(b, a) && a != b
  {
    if a.updatedAt == b.updatedAt { LexAsymmetric(a.conversationId, b.conversationId); }
  }

  // ---------------------------------------------------------------- one page

  ghost predicate Descending(rows: seq<ListCursor>) { forall i, j :: 0 <= i < j < |rows| ==> After(rows[j], rows[i]) }

  ghost predicate InTable(t: Table, k: ListCursor) { k.conversationId in t && t[k.conversationId] == k.updatedAt }

  /** rows are t's rows after cur, in order. */
  ghost predicate IsListing(t: Table, cur: ListCursor, rows: seq<ListCursor>) {
    Descending(rows) && forall k :: k in rows <==> InTable(t, k) && After(k, cur)
  }

  /**
   rows is a page of t after cur: in order, and nothing is skipped before its last row, or at all when no more is left.
   */
  ghost predicate IsPage(t: Table, cur: ListCursor, rows: seq<ListCursor>, more: bool) {
    && Descending(rows) && (more ==> rows != [])
    && (forall i :: 0 <= i < |rows| ==> InTable(t, rows[i]) && After(rows[i], cur))
    && (forall k :: InTable(t, k) && After(k, cur) ==> k in rows || (more && After(k, rows[|rows|-1])))
  }

  lemma PrefixIsPage(t: Table, cur: ListCursor, all: seq<ListCursor>, n: nat)
    requires IsListing(t, cur, all) && 0 < n < |all|
    ensures IsPage(t, cur, all[..n], true)
  {}

  /** Put k in its place. */
  method Place(rows: seq<ListCursor>, k: ListCursor) returns (out: seq<ListCursor>)
    requires Descending(rows) && k !in rows
    ensures Descending(out) && forall x :: x in out <==> x in rows || x == k
  {
    var i := |rows|;
    while i > 0 && After(rows[i - 1], k)
      invariant 0 <= i <= |rows| && forall j :: i <= j < |rows| ==> After(rows[j], k)
    {
      i := i - 1;
    }
    out := rows[..i] + [k] + rows[i..];
    if i > 0 {
      AfterTotal(rows[i - 1], k);
      forall j | 0 <= j < i ensures After(k, rows[j]) {
        if j < i - 1 { AfterTransitive(k, rows[i - 1], rows[j]); }
      }
    }
    assert forall x :: x in rows <==> x in rows[..i] || x in rows[i..];
  }

  /** ListUserConversations without its limit: filter, then sort. */
  method ListRows(t: Table, cur: ListCursor) returns (rows: seq<ListCursor>)
    ensures IsListing(t, cur, rows)
  {
    rows := [];
    var rest := t.Keys;
    while rest != {}
      invariant rest <= t.Keys && Descending(rows)
      invariant forall k :: k in rows <==> InTable(t, k) && After(k, cur) && k.conversationId !in rest
    {
      var id :| id in rest;
      rest := rest - {id};
      if After(RowKey(t, id), cur) { rows := Place(rows, RowKey(t, id)); }
    }
  }

  datatype PageResult = BadCursor | Page(rows: seq<ListCursor>, next: string, more: bool)

  function PageSize(limit: int, pageMax: int): nat {
    var p := if pageMax >= 1 then pageMax else 1;
    if limit <= 0 || limit > p then p else limit
  }

  /**
   A page has as many rows as asked for, or the server's maximum when that is out of range; the maximum is at least one.
   */
  lemma PageSizeIs(limit: int, pageMax: int)
    ensures 1 <= limit <= pageMax ==> PageSize(limit, pageMax) == limit
    ensures pageMax >= 1 && !(1 <= limit <= pageMax) ==> PageSize(limit, pageMax) == pageMax
    ensures pageMax < 1 ==> PageSize(limit, pageMax) == 1
  {}

  /** Rows a cursor can name: whole milliseconds of an int64, and a non-empty id. */
  ghost predicate Nameable(t: Table) {
    forall id :: id in t ==>
      id != "" && t[id] % MILLISECOND == 0 && MIN_INT64 <= UnixMilli(t[id]) <= MAX_INT64
  }

  /** What ListPage answers: the page after the cursor, and the cursor of its last row when more is left. */
  ghost predicate Answers(t: Table, cursor: string, limit: int, pageMax: int, r: PageResult) {
    && (r.BadCursor? <==> DecodeCursor(cursor).None?)
    && (r.Page? ==> IsPage(t, DecodeCursor(cursor).value, r.rows, r.more) && |r.rows| <= PageSize(limit, pageMax))
    && (r.Page? && !r.more ==> r.next == "")
    && (r.Page? && r.more ==> |r.rows| == PageSize(limit, pageMax) && IsBytes(r.rows[|r.rows|-1].conversationId)
                              && r.next == EncodeCursor(r.rows[|r.rows|-1]))
  }

  /** The cursor leads to exactly where the page ended. */
  lemma NextLeadsOn(t: Table, cursor: string, limit: int, pageMax: int, r: PageResult)
    requires Answers(t, cursor, limit, pageMax, r) && r.Page? && r.more && Nameable(t)
    ensures DecodeCursor(r.next) == Some(r.rows[|r.rows|-1])
  {
    var last := r.rows[|r.rows|-1];
    assert InTable(t, last);
    CursorRoundTrip(last);
  }

  lemma WholeListAnswers(t: Table, cursor: string, limit: int, pageMax: int, all: seq<ListCursor>)
    requires DecodeCursor(cursor).Some? && IsListing(t, DecodeCursor(cursor).value, all)
    requires |all| <= PageSize(limit, pageMax)
    ensures Answers(t, cursor, limit, pageMax, Page(all, "", false))
  {}

  lemma PrefixAnswers(t: Table, cursor: string, limit: int, pageMax: int, all: seq<ListCursor>, n: nat)
    requires DecodeCursor(cursor).Some? && IsListing(t, DecodeCursor(cursor).value, all)
    requires n == PageSize(limit, pageMax) && 0 < n < |all| && IsBytes(all[n - 1].conversationId)
    ensures Answers(t, cursor, limit, pageMax, Page(all[..n], EncodeCursor(all[n - 1]), true))
  {
    assert IsPage(t, DecodeCursor(cursor).value, all[..n], true) by {
      PrefixIsPage(t, DecodeCursor(cursor).value, all, n);
    }
  }

  method ListPage(t: Table, cursor: string, limit: int, pageMax: int) returns (r: PageResult)
    requires forall id :: id in t ==> IsBytes(id)
    ensures Answers(t, cursor, limit, pageMax, r)
  {
    var cur := DecodeCursor(cursor);
    if cur.None? { return BadCursor; }
    var n := PageSize(limit, pageMax);
    var all := ListRows(t, cur.value);
    var rows := all[..if |all| < n + 1 then |all| else n + 1];
    if |rows| <= n {
      assert rows == all;
      WholeListAnswers(t, cursor, limit, pageMax, all);
      return Page(rows, "", false);
    }
    rows := rows[..n];
    assert rows == all[..n];
    var last := rows[n - 1];
    assert last in all;
    PrefixAnswers(t, cursor, limit, pageMax, all, n);
    r := Page(rows, EncodeCursor(last), true);
  }

  // ---------------------------------------------------------------- a whole traversal

  datatype Step = Step(table: Table, rows: seq<ListCursor>)

  /**
   Each page is taken from the table of its moment, after the last row of the page before; the last one has no more.
   */
  ghost predicate Traversal(steps: seq<Step>, cur: ListCursor)
    decreases |steps|
  {
    && steps != []
    && IsPage(steps[0].table, cur, steps[0].rows, |steps| > 1)
    && (|steps| > 1 ==> Traversal(steps[1..], steps[0].rows[|steps[0].rows|-1]))
  }

  /** updated_at of this conversation, where it exists at two moments, never went back. */
  ghost predicate Forward(steps: seq<Step>, id: string) {
    forall i, j :: 0 <= i < j < |steps| && id in steps[i].table && id in steps[j].table ==>
      steps[i].table[id] <= steps[j].table[id]
  }

  function Listed(steps: seq<Step>): seq<ListCursor> {
    if steps == [] then [] else steps[0].rows + Listed(steps[1..])
  }

  ghost predicate Lists(steps: seq<Step>, id: string) {
    exists j :: 0 <= j < |Listed(steps)| && Listed(steps)[j].conversationId == id
  }

  lemma {:induction false} ListedIsDescending(steps: seq<Step>, cur: ListCursor)
    requires Traversal(steps, cur)
    ensures Descending(Listed(steps)) && forall i :: 0 <= i < |Listed(steps)| ==> After(Listed(steps)[i], cur)
    decreases |steps|
  {
    var rows := steps[0].rows;
    if |steps| > 1 {
      var last, rest := rows[|rows|-1], Listed(steps[1..]);
      ListedIsDescending(steps[1..], last);
      forall i, j | 0 <= i < |rows| && 0 <= j < |rest| ensures After(rest[j], rows[i]) && After(rest[j], cur) {
        if i < |rows| - 1 { AfterTransitive(rest[j], last, rows[i]); }
        AfterTransitive(rest[j], rows[i], cur);
      }
    } else {
      assert Listed(steps[1..]) == [];
      assert rows + [] == rows;
    }
  }

  /** A listed row comes from some page's table. */
  lemma {:induction false} ListedFrom(steps: seq<Step>, cur: ListCursor, i: nat) returns (p: nat)
    requires Traversal(steps, cur) && i < |Listed(steps)|
    ensures p < |steps| && InTable(steps[p].table, Listed(steps)[i]) && (i >= |steps[0].rows| ==> p > 0)
    decreases |steps|
  {
    if i < |steps[0].rows| {
      p := 0;
    } else {
      var q := ListedFrom(steps[1..], steps[0].rows[|steps[0].rows|-1], i - |steps[0].rows|);
      p := q + 1;
    }
  }

  /** A conversation whose updated_at never went back is not listed twice, whatever was touched between the pages. */
  lemma {:induction false} NothingListedTwice(steps: seq<Step>, cur: ListCursor, id: string, i: nat, j: nat)
    requires Traversal(steps, cur) && Forward(steps, id) && i < j < |Listed(steps)|
    ensures !(Listed(steps)[i].conversationId == id && Listed(steps)[j].conversationId == id)
    decreases |steps|
  {
    var all, n := Listed(steps), |steps[0].rows|;
    ListedIsDescending(steps, cur);
    AfterAsymmetric(all[j], all[i]);
    if i >= n {
      NothingListedTwice(steps[1..], steps[0].rows[n - 1], id, i - n, j - n);
    } else if j >= n {
      var p := ListedFrom(steps, cur, j);
      assert InTable(steps[0].table, all[i]) && InTable(steps[p].table, all[j]);
    }
  }

  /** A conversation that exists throughout and is not touched is listed. */
  lemma {:induction false} UntouchedIsListed(steps: seq<Step>, cur: ListCursor, k: ListCursor)
    requires Traversal(steps, cur) && After(k, cur) && forall i :: 0 <= i < |steps| ==> InTable(steps[i].table, k)
    ensures k in Listed(steps)
    decreases |steps|
  {
    var rows := steps[0].rows;
    assert InTable(steps[0].table, k);
    if k !in rows {
      UntouchedIsListed(steps[1..], rows[|rows|-1], k);
    }
  }

  function LastOf(rows: seq<ListCursor>): ListCursor
    requires rows != []
  {
    rows[|rows|-1]
  }

  lemma {:induction false} RestIsTraversal(steps: seq<Step>, cur: ListCursor, p: nat)
    requires Traversal(steps, cur) && p < |steps| - 1
    ensures steps[p].rows != [] && Traversal(steps[p + 1..], LastOf(steps[p].rows))
    decreases p
  {
    if p > 0 {
      RestIsTraversal(steps[1..], LastOf(steps[0].rows), p - 1);
      assert steps[1..][p..] == steps[p + 1..];
    }
  }

  /**
   A conversation whose row stays put from the page after p on is listed from there on exactly when its key lies after
   page p's last.
   */
  lemma RelistedExactly(steps: seq<Step>, cur: ListCursor, p: nat, k: ListCursor)
    requires Traversal(steps, cur) && p < |steps| - 1 && forall i :: p < i < |steps| ==> InTable(steps[i].table, k)
    ensures steps[p].rows != []
    ensures Lists(steps[p + 1..], k.conversationId) <==> After(k, LastOf(steps[p].rows))
  {
    RestIsTraversal(steps, cur, p);
    var rest, last := steps[p + 1..], LastOf(steps[p].rows);
    if After(k, last) {
      UntouchedIsListed(rest, last, k);
      var j :| 0 <= j < |Listed(rest)| && Listed(rest)[j] == k;
      assert Lists(rest, k.conversationId);
    }
    if Lists(rest, k.conversationId) {
      var j :| 0 <= j < |Listed(rest)| && Listed(rest)[j].conversationId == k.conversationId;
      ListedIsDescending(rest, last);
      var q := ListedFrom(rest, last, j);
      assert InTable(steps[p + 1 + q].table, k) && Listed(rest)[j] == k;
    }
  }

  /** A client that gives up on a next cursor that is empty or the one it sent never has to. */
  lemma NextMovesOn(t: Table, cursor: string, limit: int, pageMax: int, r: PageResult)
    requires Answers(t, cursor, limit, pageMax, r) && r.Page? && r.more && Nameable(t)
    ensures r.next != "" && r.next != cursor
  {
    NextLeadsOn(t, cursor, limit, pageMax, r);
    assert InTable(t, LastOf(r.rows));
    NotAfterItself(LastOf(r.rows));
  }

  /** The cursor page p is taken after. */
  function CursorOf(steps: seq<Step>, cur: ListCursor, p: nat): ListCursor
    requires p < |steps| && (p > 0 ==> steps[p - 1].rows != [])
  {
    if p == 0 then cur else LastOf(steps[p - 1].rows)
  }

  /**
   At the moment of page p the conversation exists and its key lies after the page's cursor and not past its last row.
   */
  ghost predicate InWindow(steps: seq<Step>, cur: ListCursor, p: nat, id: string) {
    && p < |steps| && id in steps[p].table && (p > 0 ==> steps[p - 1].rows != [])
    && After(RowKey(steps[p].table, id), CursorOf(steps, cur, p))
    && (p < |steps| - 1 ==> steps[p].rows != [] && !After(RowKey(steps[p].table, id), LastOf(steps[p].rows)))
  }

  lemma NotAfterItself(a: ListCursor)
    ensures !After(a, a)
  {
    if LexLess(a.conversationId, a.conversationId) { LexAsymmetric(a.conversationId, a.conversationId); }
  }

  /** A page names exactly the conversations in its window. */
  lemma PageNamesWindow(t: Table, cur: ListCursor, rows: seq<ListCursor>, more: bool, id: string)
    requires IsPage(t, cur, rows, more)
    ensures (exists j :: 0 <= j < |rows| && rows[j].conversationId == id)
            <==> id in t && After(RowKey(t, id), cur) && (more ==> !After(RowKey(t, id), LastOf(rows)))
  {
    forall j | 0 <= j < |rows| && rows[j].conversationId == id
      ensures id in t && After(RowKey(t, id), cur) && (more ==> !After(RowKey(t, id), LastOf(rows)))
    {
      assert InTable(t, rows[j]) && rows[j] == RowKey(t, id);
      if j < |rows| - 1 { AfterAsymmetric(LastOf(rows), rows[j]); } else { NotAfterItself(rows[j]); }
    }
    if id in t && After(RowKey(t, id), cur) && (more ==> !After(RowKey(t, id), LastOf(rows))) {
      assert InTable(t, RowKey(t, id));
      var j :| 0 <= j < |rows| && rows[j] == RowKey(t, id);
    }
  }

  lemma WindowTail(steps: seq<Step>, cur: ListCursor, p: nat, id: string)
    requires |steps| > 1 && steps[0].rows != []
    ensures InWindow(steps, cur, p + 1, id) <==> InWindow(steps[1..], LastOf(steps[0].rows), p, id)
  {}

  lemma ListsSplit(steps: seq<Step>, id: string)
    requires steps != []
    ensures Lists(steps, id) <==>
            || (exists j :: 0 <= j < |steps[0].rows| && steps[0].rows[j].conversationId == id)
            || Lists(steps[1..], id)
  {
    var rows, rest := steps[0].rows, Listed(steps[1..]);
    if Lists(steps, id) {
      var j :| 0 <= j < |Listed(steps)| && Listed(steps)[j].conversationId == id;
      if j < |rows| { assert rows[j].conversationId == id; } else { assert rest[j - |rows|].conversationId == id; }
    }
    if j :| 0 <= j < |rows| && rows[j].conversationId == id { assert Listed(steps)[j].conversationId == id; }
    if j :| 0 <= j < |rest| && rest[j].conversationId == id { assert Listed(steps)[|rows| + j].conversationId == id; }
  }

  /**
   What a traversal lists, whatever changes between its pages: a conversation is listed exactly when at the moment of
   some page its key lies in that page's window, so it is missed exactly when it slips from one side to the other.
   */
  lemma {:induction false} ListedExactly(steps: seq<Step>, cur: ListCursor, id: string)
    requires Traversal(steps, cur)
    ensures Lists(steps, id) <==> exists p :: InWindow(steps, cur, p, id)
    decreases |steps|
  {
    PageNamesWindow(steps[0].table, cur, steps[0].rows, |steps| > 1, id);
    ListsSplit(steps, id);
    assert InWindow(steps, cur, 0, id) <==>
      exists j :: 0 <= j < |steps[0].rows| && steps[0].rows[j].conversationId == id;
    if |steps| > 1 {
      var last := LastOf(steps[0].rows);
      ListedExactly(steps[1..], last, id);
      if p: nat :| InWindow(steps, cur, p, id) {
        if p > 0 { WindowTail(steps, cur, p - 1, id); }
      }
      if p: nat :| InWindow(steps[1..], last, p, id) { WindowTail(steps, cur, p, id); }
    }
  }

  // ---------------------------------------------------------------- a traversal as the client makes it

  datatype Call = Call(table: Table, limit: int, pageMax: int, answer: PageResult)

  /** A client calls with a cursor, hands each next string back as it came, and stops when there is no more. */
  ghost predicate Calls(calls: seq<Call>, cursor: string)
    decreases |calls|
  {
    && calls != [] && calls[0].answer.Page?
    && Answers(calls[0].table, cursor, calls[0].limit, calls[0].pageMax, calls[0].answer)
    && (calls[0].answer.more <==> |calls| > 1)
    && (|calls| > 1 ==> Calls(calls[1..], calls[0].answer.next))
  }

  ghost function StepsOf(calls: seq<Call>): seq<Step>
    requires forall i :: 0 <= i < |calls| ==> calls[i].answer.Page?
  {
    seq(|calls|, i requires 0 <= i < |calls| => Step(calls[i].table, calls[i].answer.rows))
  }

  lemma {:induction false} CallsArePages(calls: seq<Call>, cursor: string)
    requires Calls(calls, cursor)
    ensures forall i :: 0 <= i < |calls| ==> calls[i].answer.Page?
    decreases |calls|
  {
    if |calls| > 1 { CallsArePages(calls[1..], calls[0].answer.next); }
    forall i | 0 <= i < |calls| ensures calls[i].answer.Page? { if i > 0 { assert calls[i] == calls[1..][i - 1]; } }
  }

  lemma StepsOfRest(calls: seq<Call>)
    requires calls != [] && forall i :: 0 <= i < |calls| ==> calls[i].answer.Page?
    ensures StepsOf(calls)[1..] == StepsOf(calls[1..])
  {}

  lemma RestIsNameable(calls: seq<Call>)
    requires calls != [] && forall i :: 0 <= i < |calls| ==> Nameable(calls[i].table)
    ensures forall i :: 0 <= i < |calls[1..]| ==> Nameable(calls[1..][i].table)
  {}

  /** Handing the cursor strings back is a traversal. */
  lemma {:induction false} CallsTraverse(calls: seq<Call>, cursor: string)
    requires Calls(calls, cursor) && forall i :: 0 <= i < |calls| ==> Nameable(calls[i].table)
    ensures (forall i :: 0 <= i < |calls| ==> calls[i].answer.Page?) && DecodeCursor(cursor).Some?
    ensures Traversal(StepsOf(calls), DecodeCursor(cursor).value)
    decreases |calls|
  {
    CallsArePages(calls, cursor);
    if |calls| > 1 {
      var c := calls[0];
      assert DecodeCursor(c.answer.next) == Some(LastOf(c.answer.rows)) by {
        NextLeadsOn(c.table, cursor, c.limit, c.pageMax, c.answer);
      }
      assert Traversal(StepsOf(calls)[1..], LastOf(c.answer.rows)) by {
        RestIsNameable(calls);
        CallsTraverse(calls[1..], c.answer.next);
        StepsOfRest(calls);
      }
    }
  }
}
