/**
 The web client against the chat services: the services run, and every list, page and push the client gets was answered
 by them at some moment since it asked. Sessions of one user follow each other through the cursors kept in local
 storage.
 */
module WebWorld {
  import opened Common
  import opened ChatModel
  import opened ChatInvariants
  import opened ChatPull
  import opened WebSync
  import opened WebClient
  import opened ListCursors
  import Chat = ChatRuns
  import Clocks = ChatClocks
  import Pages = Paging
  import Tables = ListRuns

  /**
   past: every state of the services so far, the present last; since: the moment the current round began to ask;
   calls and cuts: the pages the round's bounds came in, and the moments they were answered.
   */
  datatype World = World(
    u: string, past: seq<Chat.Sys>, since: nat, client: WebClient.State, saved: map<string, int>,
    calls: seq<Pages.Call>, cuts: seq<nat>)

  datatype Step =
    | Serve(e: Chat.Event)
    | Pushed(id: string, n: int)
    | Lists(list: map<string, Range>, bounds: map<string, Range>, listAt: map<string, nat>, boundsAt: map<string, nat>,
            calls: seq<Pages.Call>, cuts: seq<nat>)
    | Page(at: nat, pageMax: int)
    | Turn(turn: WebClient.Event)
    | Save
    | Restart

  function Present(w: World): Chat.Sys
    requires w.past != []
  {
    w.past[|w.past|-1]
  }

  /** What the list and MaxSeqs report about a conversation at moment i. */
  ghost predicate ReportedAt(w: World, id: string, r: Range, i: nat) {
    && w.since <= i < |w.past| && (w.u, id) in w.past[i].db.rows
    && r == Range(w.past[i].db.rows[(w.u, id)].minSeq,
                  VisibleMax(w.past[i].db.rows[(w.u, id)], MaxSeqOf(w.past[i].db, id)))
  }

  /** Lists and bounds were reported at these moments, the bounds after the list. */
  ghost predicate AllReported(
    w: World, list: map<string, Range>, bounds: map<string, Range>, listAt: map<string, nat>,
    boundsAt: map<string, nat>)
  {
    && list.Keys == listAt.Keys && bounds.Keys == boundsAt.Keys
    && (forall id :: id in list ==> ReportedAt(w, id, list[id], listAt[id]))
    && (forall id :: id in bounds ==>
          ReportedAt(w, id, bounds[id], boundsAt[id]) && (id in list ==> listAt[id] <= boundsAt[id]))
  }

  /** Call p is answered from u's rows at moment cuts[p] since the round began, and the moments go forward. */
  ghost predicate TakenAt(w: World, calls: seq<Pages.Call>, cuts: seq<nat>) {
    && |calls| == |cuts|
    && (forall p :: 0 <= p < |cuts| ==>
          w.since <= cuts[p] < |w.past| && calls[p].table == Tables.TableOf(w.past[cuts[p]].db, w.u))
    && (forall p, q :: 0 <= p < q < |cuts| ==> cuts[p] <= cuts[q])
  }

  /** MaxSeqs is called with an empty cursor and then with each next cursor, until there is no more. */
  ghost predicate Paged(w: World, calls: seq<Pages.Call>, cuts: seq<nat>) {
    TakenAt(w, calls, cuts) && (forall p :: 0 <= p < |calls| ==> calls[p].answer.Page?) && Pages.Calls(calls, "")
  }

  /** The bounds are those of the conversations the pages list, each read with a page that lists it. */
  ghost predicate BoundsOfPages(
    bounds: map<string, Range>, boundsAt: map<string, nat>, calls: seq<Pages.Call>, cuts: seq<nat>)
  {
    && |calls| == |cuts| && (forall p :: 0 <= p < |calls| ==> calls[p].answer.Page?) && bounds.Keys == boundsAt.Keys
    && (forall id :: id in bounds <==> Pages.Lists(Pages.StepsOf(calls), id))
    && (forall id :: id in bounds ==> exists p :: 0 <= p < |cuts| && Names(calls[p], id) && cuts[p] == boundsAt[id])
  }

  ghost predicate Names(call: Pages.Call, id: string) {
    call.answer.Page? && exists j :: 0 <= j < |call.answer.rows| && call.answer.rows[j].conversationId == id
  }

  /** The answer to the page request in progress, from the services at moment i. */
  function Answer(w: World, i: nat, pageMax: int): PullResult
    requires i < |w.past| && w.client.c.phase.Ranging? && w.client.c.phase.pulling.Some?
    requires w.client.c.phase.pulling.value.id in w.client.c.phase.bounds
  {
    var p := w.client.c.phase.pulling.value;
    Pull(w.past[i].db, w.u, p.id, p.local + 1, w.client.c.phase.bounds[p.id].maxSeq, PULL_LIMIT, pageMax)
  }

  /** The turns the client takes without an answer from the services. */
  predicate IsOwn(e: WebClient.Event) { e.Refresh? || e.StartRange? || e.RangesDone? || e.RoundEnds? || e.Fails? }

  ghost predicate Possible(w: World, t: Step) {
    w.past != [] &&
    match t
    case Serve(e) => Chat.Allowed(Present(w), e)
    case Pushed(id, n) => Stored(Present(w).db.messages, id, n)
    case Lists(list, bounds, listAt, boundsAt, calls, cuts) =>
      && w.client.c.phase.Listing? && AllReported(w, list, bounds, listAt, boundsAt)
      && Paged(w, calls, cuts) && BoundsOfPages(bounds, boundsAt, calls, cuts)
    case Page(at, _) => w.since <= at < |w.past| && Allowed(w.client, GotPage([]))
    case Turn(e) => IsOwn(e) && Allowed(w.client, e)
    case Save => true
    case Restart => true
  }

  /** One turn of the client; a round that begins to ask does so now. */
  function Turned(w: World, e: WebClient.Event): World
    requires w.past != [] && Allowed(w.client, e)
  {
    var s := Next(w.client, e);
    w.(client := s, since := if s.c.phase.Listing? && !w.client.c.phase.Listing? then |w.past| - 1 else w.since)
  }

  ghost function After(w: World, t: Step): World
    requires Possible(w, t)
  {
    match t
    case Serve(e) => w.(past := w.past + [Chat.Next(Present(w), e)])
    case Pushed(id, n) => Turned(w, Push(id, n))
    case Lists(list, bounds, _, _, calls, cuts) =>
      var w' := w.(calls := calls, cuts := cuts);
      if Allowed(w.client, GotLists(list, bounds)) then Turned(w', GotLists(list, bounds)) else w'
    case Page(at, pageMax) =>
      var r := Answer(w, at, pageMax);
      Turned(w, if r.Pulled? then GotPage(r.messages) else Fails)
    case Turn(e) => Turned(w, e)
    case Save => w.(saved := w.client.c.cursors)
    case Restart => w.(client := w.client.(c := Client(w.saved, map[], false, Idle)))
  }

  // ---------------------------------------------------------------- the services move forward

  /** What the client relies on between two moments: the log grows, and u's min_seqs do not fall. */
  ghost predicate Later(db: Db, db': Db, u: string) {
    db.messages <= db'.messages && forall id :: Chat.MinOf(db, (u, id)) <= Chat.MinOf(db', (u, id))
  }

  ghost predicate History(past: seq<Chat.Sys>, u: string) {
    && past != [] && (forall i :: 0 <= i < |past| ==> Chat.Reachable(past[i]))
    && (forall i, j :: 0 <= i <= j < |past| ==> Later(past[i].db, past[j].db, u))
  }

  lemma ServesLater(s: Chat.Sys, e: Chat.Event, u: string)
    requires Chat.Reachable(s) && Chat.Allowed(s, e)
    ensures Later(s.db, Chat.Next(s, e).db, u)
  {
    assert Chat.Progress(s.db, Chat.Next(s, e).db) by { Chat.ReachableOk(s); Chat.StepProgress(s, e); }
    forall id ensures Chat.MinOf(s.db, (u, id)) <= Chat.MinOf(Chat.Next(s, e).db, (u, id)) {
      assert Chat.RowMoves(s.db, Chat.Next(s, e).db, (u, id));
    }
  }

  lemma LaterTransitive(a: Db, b: Db, c: Db, u: string)
    requires Later(a, b, u) && Later(b, c, u)
    ensures Later(a, c, u)
  {
    forall id ensures Chat.MinOf(a, (u, id)) <= Chat.MinOf(c, (u, id)) {
      assert Chat.MinOf(a, (u, id)) <= Chat.MinOf(b, (u, id));
    }
  }

  lemma HistoryGrows(past: seq<Chat.Sys>, u: string, next: Chat.Sys)
    requires History(past, u) && Chat.Reachable(next) && Later(past[|past|-1].db, next.db, u)
    ensures History(past + [next], u)
  {
    var all := past + [next];
    forall i, j | 0 <= i <= j < |all| ensures Later(all[i].db, all[j].db, u) {
      if j == |past| && i < j { LaterTransitive(past[i].db, past[|past|-1].db, next.db, u); }
    }
  }

  // ---------------------------------------------------------------- what every step keeps

  function SavedCursor(w: World, id: string): int { if id in w.saved then w.saved[id] else 0 }

  /** Every min_seq the client knows was the services' own, and was so before the round in progress began to ask. */
  ghost predicate Informed(w: World)
    requires w.past != []
  {
    && KnownBy(w.client.a, Present(w).db, w.u) && w.since < |w.past|
    && (w.client.c.phase.Listing? ==> KnownBy(w.client.a, w.past[w.since].db, w.u))
  }

  ghost predicate KnownBy(a: Account, db: Db, u: string) { forall id :: MinSeen(a, id) <= Chat.MinOf(db, (u, id)) }

  /** Whatever was received is in the log. */
  ghost predicate Genuine(w: World)
    requires w.past != []
  {
    forall id, n :: (id, n) in w.client.a.received ==> Stored(Present(w).db.messages, id, n)
  }

  ghost predicate SavedHasNoGap(w: World) {
    forall id, n :: Floor(w.client.a, id) <= n <= SavedCursor(w, id) ==> (id, n) in w.client.a.received
  }

  /** The bounds of a round are what the services reported since it began. */
  ghost predicate Bounded(w: World) {
    (w.client.c.phase.Ranging? || w.client.c.phase.Finishing?) ==>
      forall id :: id in w.client.c.phase.bounds ==> exists i :: ReportedAt(w, id, w.client.c.phase.bounds[id], i)
  }

  ghost predicate FromPages(w: World, bounds: map<string, Range>) {
    Paged(w, w.calls, w.cuts) && forall id :: id in bounds <==> Pages.Lists(Pages.StepsOf(w.calls), id)
  }

  /** A round works on exactly the conversations its pages listed. */
  ghost predicate Complete(w: World) {
    w.client.c.phase.Ranging? || w.client.c.phase.Finishing? ==> FromPages(w, w.client.c.phase.bounds)
  }

  ghost predicate Sound(w: World) {
    && History(w.past, w.u) && Informed(w) && Genuine(w) && SavedHasNoGap(w) && Bounded(w) && Complete(w)
    && Good(w.client)
  }

  /** The assumption the client's own machine makes about lists is a fact about the services. */
  lemma ListsAreCurrent(
    w: World, list: map<string, Range>, bounds: map<string, Range>, listAt: map<string, nat>,
    boundsAt: map<string, nat>, calls: seq<Pages.Call>, cuts: seq<nat>)
    requires History(w.past, w.u) && Informed(w) && Possible(w, Lists(list, bounds, listAt, boundsAt, calls, cuts))
    ensures Allowed(w.client, GotLists(list, bounds))
  {
    forall id | id in list ensures MinSeen(w.client.a, id) <= list[id].minSeq { MinRises(w, w.since, listAt[id], id); }
    forall id | id in bounds
      ensures MinSeen(w.client.a, id) <= bounds[id].minSeq && (id in list ==> list[id].minSeq <= bounds[id].minSeq)
    {
      MinRises(w, w.since, boundsAt[id], id);
      if id in list { MinRises(w, listAt[id], boundsAt[id], id); }
    }
  }

  lemma MinRises(w: World, i: nat, j: nat, id: string)
    requires History(w.past, w.u) && i <= j < |w.past|
    ensures Chat.MinOf(w.past[i].db, (w.u, id)) <= Chat.MinOf(w.past[j].db, (w.u, id))
  {
    assert Later(w.past[i].db, w.past[j].db, w.u);
  }

  lemma StoredLater(w: World, i: nat, id: string, n: int)
    requires History(w.past, w.u) && i < |w.past| && Stored(w.past[i].db.messages, id, n)
    ensures Stored(Present(w).db.messages, id, n)
  {
    assert Later(w.past[i].db, Present(w).db, w.u);
    var k :| 0 <= k < |w.past[i].db.messages| && w.past[i].db.messages[k].conv == id
      && w.past[i].db.messages[k].seqNo == n;
    assert Present(w).db.messages[k] == w.past[i].db.messages[k];
  }

  /** A page holds stored messages. */
  lemma PagesAreStored(w: World, i: nat, pageMax: int, k: nat)
    requires History(w.past, w.u) && i < |w.past| && Allowed(w.client, GotPage([]))
    requires Answer(w, i, pageMax).Pulled? && k < |Answer(w, i, pageMax).messages|
    ensures var m := Answer(w, i, pageMax).messages[k]; Stored(Present(w).db.messages, m.conv, m.seqNo)
  {
    var p, m := w.client.c.phase.pulling.value, Answer(w, i, pageMax).messages[k];
    assert LogOk(w.past[i].db) && RowsOk(w.past[i].db) by { Chat.ReachableOk(w.past[i]); }
    PulledIsStored(w.past[i].db, w.u, p.id, p.local + 1, w.client.c.phase.bounds[p.id].maxSeq, PULL_LIMIT, pageMax, k);
    StoredLater(w, i, m.conv, m.seqNo);
  }

  // ---------------------------------------------------------------- the services step

  lemma ServeInformed(w: World, next: Chat.Sys)
    requires w.past != [] && Informed(w) && Later(Present(w).db, next.db, w.u)
    ensures Informed(w.(past := w.past + [next]))
  {
    forall id ensures MinSeen(w.client.a, id) <= Chat.MinOf(next.db, (w.u, id)) {
      assert MinSeen(w.client.a, id) <= Chat.MinOf(Present(w).db, (w.u, id)) <= Chat.MinOf(next.db, (w.u, id));
    }
  }

  lemma ServeGenuine(w: World, next: Chat.Sys)
    requires w.past != [] && Genuine(w) && Later(Present(w).db, next.db, w.u)
    ensures Genuine(w.(past := w.past + [next]))
  {
    forall id, n | (id, n) in w.client.a.received ensures Stored(next.db.messages, id, n) {
      var ms := Present(w).db.messages;
      var k :| 0 <= k < |ms| && ms[k].conv == id && ms[k].seqNo == n;
      assert next.db.messages[k] == ms[k];
    }
  }

  lemma ServeBounded(w: World, e: Chat.Event)
    requires Bounded(w) && Possible(w, Serve(e))
    ensures Bounded(After(w, Serve(e)))
  {
    var w', phase := After(w, Serve(e)), w.client.c.phase;
    if phase.Ranging? || phase.Finishing? {
      forall id | id in phase.bounds ensures exists i :: ReportedAt(w', id, phase.bounds[id], i) {
        var i :| ReportedAt(w, id, phase.bounds[id], i);
        assert ReportedAt(w', id, phase.bounds[id], i);
      }
    }
  }

  lemma ServeSound(w: World, e: Chat.Event)
    requires Sound(w) && Possible(w, Serve(e))
    ensures Sound(After(w, Serve(e)))
  {
    var next := Chat.Next(Present(w), e);
    var w' := w.(past := w.past + [next]);
    assert Chat.Reachable(next) by { Chat.ReachableStep(Present(w), e); }
    assert Later(Present(w).db, next.db, w.u) by { ServesLater(Present(w), e, w.u); }
    assert History(w'.past, w.u) by { HistoryGrows(w.past, w.u, next); }
    assert Informed(w') by { ServeInformed(w, next); }
    assert Genuine(w') by { ServeGenuine(w, next); }
    assert Bounded(w') by { ServeBounded(w, e); }
    assert Complete(w') by { CompleteStays(w, w'); }
    assert SavedHasNoGap(w') by { SavedStays(w, w'); }
  }

  /** As long as the round goes on with its bounds, later states of the services change nothing about its pages. */
  lemma CompleteStays(w: World, w': World)
    requires Complete(w) && w'.u == w.u && w.past <= w'.past && w'.calls == w.calls && w'.cuts == w.cuts
    requires w'.client.c.phase.Ranging? || w'.client.c.phase.Finishing? ==>
      && (w.client.c.phase.Ranging? || w.client.c.phase.Finishing?) && w'.since == w.since
      && w'.client.c.phase.bounds == w.client.c.phase.bounds
    ensures Complete(w')
  {}

  lemma SavedStays(w: World, w': World)
    requires SavedHasNoGap(w) && w'.client.a == w.client.a && w'.saved == w.saved
    ensures SavedHasNoGap(w')
  {}

  // ---------------------------------------------------------------- the client steps

  /** What a turn brings in came from the services. */
  ghost predicate Answered(w: World, e: WebClient.Event)
    requires w.past != []
  {
    && (e.Push? ==> Stored(Present(w).db.messages, e.id, e.n))
    && (e.GotPage? ==> forall k :: 0 <= k < |e.page| ==>
         Stored(Present(w).db.messages, e.page[k].conv, e.page[k].seqNo))
    && (e.GotLists? ==>
          && (forall id :: id in e.list ==> exists i :: ReportedAt(w, id, e.list[id], i))
          && (forall id :: id in e.bounds ==> exists i :: ReportedAt(w, id, e.bounds[id], i))
          && FromPages(w, e.bounds))
  }

  lemma ReportedMin(w: World, id: string, r: Range)
    requires History(w.past, w.u) && (exists i :: ReportedAt(w, id, r, i))
    ensures r.minSeq <= Chat.MinOf(Present(w).db, (w.u, id))
  {
    var i :| ReportedAt(w, id, r, i);
    MinRises(w, i, |w.past| - 1, id);
  }

  lemma TurnInformed(w: World, e: WebClient.Event)
    requires History(w.past, w.u) && Informed(w) && Allowed(w.client, e) && Answered(w, e)
    ensures Informed(Turned(w, e))
  {
    if e.GotLists? { ListsInform(w, e.list, e.bounds); }
  }

  lemma ListsInform(w: World, list: map<string, Range>, bounds: map<string, Range>)
    requires History(w.past, w.u) && KnownBy(w.client.a, Present(w).db, w.u)
    requires forall id :: id in list ==> exists i :: ReportedAt(w, id, list[id], i)
    requires forall id :: id in bounds ==> exists i :: ReportedAt(w, id, bounds[id], i)
    ensures KnownBy(w.client.a.(mins := Reported(w.client.a, list, bounds)), Present(w).db, w.u)
  {
    forall id
      ensures MinSeen(w.client.a.(mins := Reported(w.client.a, list, bounds)), id)
              <= Chat.MinOf(Present(w).db, (w.u, id))
    {
      assert MinSeen(w.client.a, id) <= Chat.MinOf(Present(w).db, (w.u, id));
      if id in bounds { ReportedMin(w, id, bounds[id]); } else if id in list { ReportedMin(w, id, list[id]); }
    }
  }

  lemma TurnGenuine(w: World, e: WebClient.Event)
    requires History(w.past, w.u) && Genuine(w) && Allowed(w.client, e) && Answered(w, e)
    ensures Genuine(Turned(w, e))
  {}

  lemma TurnSaved(w: World, e: WebClient.Event)
    requires SavedHasNoGap(w) && Good(w.client) && w.past != [] && Allowed(w.client, e)
    ensures SavedHasNoGap(Turned(w, e))
  {}

  lemma TurnBounded(w: World, e: WebClient.Event)
    requires Bounded(w) && w.past != [] && Allowed(w.client, e) && Answered(w, e)
    ensures Bounded(Turned(w, e))
  {
    var w' := Turned(w, e);
    var phase := w'.client.c.phase;
    if phase.Ranging? || phase.Finishing? {
      assert w'.since == w.since;
      forall id | id in phase.bounds ensures exists i :: ReportedAt(w', id, phase.bounds[id], i) {
        var i :| ReportedAt(w, id, phase.bounds[id], i);
        assert ReportedAt(w', id, phase.bounds[id], i);
      }
    }
  }

  lemma TurnSound(w: World, e: WebClient.Event)
    requires Sound(w) && Allowed(w.client, e) && Answered(w, e)
    ensures Sound(Turned(w, e))
  {
    var w' := Turned(w, e);
    assert Good(w'.client) by { StepGood(w.client, e); }
    assert Informed(w') by { TurnInformed(w, e); }
    assert Genuine(w') by { TurnGenuine(w, e); }
    assert SavedHasNoGap(w') by { TurnSaved(w, e); }
    assert Bounded(w') by { TurnBounded(w, e); }
    assert Complete(w') by { TurnComplete(w, e); }
  }

  lemma TurnComplete(w: World, e: WebClient.Event)
    requires w.past != [] && Complete(w) && Allowed(w.client, e) && Answered(w, e)
    ensures Complete(Turned(w, e))
  {
    if !e.GotLists? { CompleteStays(w, Turned(w, e)); }
  }

  lemma RestartSound(w: World)
    requires Sound(w)
    ensures Sound(w.(client := w.client.(c := Client(w.saved, map[], false, Idle))))
            && Sound(w.(saved := w.client.c.cursors))
  {
    var a, b := w.(client := w.client.(c := Client(w.saved, map[], false, Idle))), w.(saved := w.client.c.cursors);
    assert Good(a.client) && SavedHasNoGap(a) by { RestartGood(w.client, w.saved); SavedStays(w, a); }
    assert Genuine(a) && Genuine(b) by { GenuineStays(w, a); GenuineStays(w, b); }
    assert Bounded(b) by { BoundedStays(w, b); }
    assert SavedHasNoGap(b) by { SaveHasNoGap(w); }
  }

  lemma GenuineStays(w: World, w': World)
    requires w.past != [] && Genuine(w) && w'.past == w.past && w'.client.a == w.client.a
    ensures Genuine(w')
  {}

  lemma BoundedStays(w: World, w': World)
    requires Bounded(w) && w'.(saved := w.saved) == w
    ensures Bounded(w')
  {
    var phase := w.client.c.phase;
    if phase.Ranging? || phase.Finishing? {
      forall id | id in phase.bounds ensures exists i :: ReportedAt(w', id, phase.bounds[id], i) {
        var i :| ReportedAt(w, id, phase.bounds[id], i);
        assert ReportedAt(w', id, phase.bounds[id], i);
      }
    }
  }

  lemma SaveHasNoGap(w: World)
    requires WebClient.NoGap(w.client.c, w.client.a)
    ensures SavedHasNoGap(w.(saved := w.client.c.cursors))
  {}

  /** A session that starts from saved cursors is as good as the one that left them. */
  lemma RestartGood(s: WebClient.State, saved: map<string, int>)
    requires Good(s) && forall id, n :: Floor(s.a, id) <= n <= (if id in saved then saved[id] else 0) ==>
             (id, n) in s.a.received
    ensures Good(s.(c := Client(saved, map[], false, Idle)))
  {}

  lemma ListsAreAnswered(w: World, t: Step)
    requires t.Lists? && Possible(w, t)
    ensures Answered(w.(calls := t.calls, cuts := t.cuts), GotLists(t.list, t.bounds))
  {
    var w' := w.(calls := t.calls, cuts := t.cuts);
    forall id | id in t.list ensures exists i :: ReportedAt(w', id, t.list[id], i) {
      assert ReportedAt(w', id, t.list[id], t.listAt[id]);
    }
    forall id | id in t.bounds ensures exists i :: ReportedAt(w', id, t.bounds[id], i) {
      assert ReportedAt(w', id, t.bounds[id], t.boundsAt[id]);
    }
  }

  lemma ListsSound(w: World, t: Step)
    requires Sound(w) && t.Lists? && Possible(w, t)
    ensures Sound(After(w, t))
  {
    ListsAreCurrent(w, t.list, t.bounds, t.listAt, t.boundsAt, t.calls, t.cuts);
    var w' := w.(calls := t.calls, cuts := t.cuts);
    assert Sound(w') by { GenuineStays(w, w'); }
    assert Answered(w', GotLists(t.list, t.bounds)) by { ListsAreAnswered(w, t); }
    TurnSound(w', GotLists(t.list, t.bounds));
  }

  lemma StepSound(w: World, t: Step)
    requires Sound(w) && Possible(w, t)
    ensures Sound(After(w, t))
  {
    match t
    case Serve(e) => ServeSound(w, e);
    case Pushed(id, n) => TurnSound(w, Push(id, n));
    case Lists(list, bounds, listAt, boundsAt, calls, cuts) => ListsSound(w, t);
    case Page(at, pageMax) =>
      var r := Answer(w, at, pageMax);
      if r.Pulled? {
        forall k | 0 <= k < |r.messages|
          ensures Stored(Present(w).db.messages, r.messages[k].conv, r.messages[k].seqNo)
        {
          PagesAreStored(w, at, pageMax, k);
        }
        TurnSound(w, GotPage(r.messages));
      } else {
        TurnSound(w, Fails);
      }
    case Turn(e) => TurnSound(w, e);
    case Save => RestartSound(w);
    case Restart => RestartSound(w);
  }

  // ---------------------------------------------------------------- every history of client and services

  ghost function Run(w: World, ts: seq<Step>): Option<World>
    decreases |ts|
  {
    if ts == [] then Some(w) else if Possible(w, ts[0]) then Run(After(w, ts[0]), ts[1..]) else None
  }

  /** A user who has never opened the client, while the services are in some reachable state. */
  ghost predicate Fresh(w: World) {
    && |w.past| == 1 && w.since == 0 && Chat.Reachable(w.past[0]) && w.saved == map[]
    && w.client == WebClient.State(Client(map[], map[], false, Idle), Account({}, map[], map[]))
  }

  ghost predicate Reachable(w: World) { exists w0, ts :: Fresh(w0) && Run(w0, ts) == Some(w) }

  lemma FirstSeq(s: Chat.Sys, u: string, id: string)
    requires Chat.Reachable(s)
    ensures 1 <= Chat.MinOf(s.db, (u, id))
  {
    assert RowsOk(s.db) by { Chat.ReachableOk(s); }
    if (u, id) in s.db.rows { assert RowOk(s.db.rows[(u, id)], s.db.convs[id].maxSeq); }
  }

  lemma FreshSound(w: World)
    requires Fresh(w)
    ensures Sound(w)
  {
    forall id ensures 1 <= Chat.MinOf(w.past[0].db, (w.u, id)) { FirstSeq(w.past[0], w.u, id); }
    assert Later(w.past[0].db, w.past[0].db, w.u);
    assert Informed(w);
    assert Good(w.client);
  }

  lemma {:induction false} RunSound(w: World, ts: seq<Step>)
    requires Sound(w) && Run(w, ts).Some?
    ensures Sound(Run(w, ts).value)
    decreases |ts|
  {
    if ts != [] {
      assert Sound(After(w, ts[0])) by { StepSound(w, ts[0]); }
      RunSound(After(w, ts[0]), ts[1..]);
    }
  }

  lemma ReachableSound(w: World)
    requires Reachable(w)
    ensures Sound(w)
  {
    var w0, ts :| Fresh(w0) && Run(w0, ts) == Some(w);
    FreshSound(w0);
    RunSound(w0, ts);
  }

  /**
   Through any number of sessions, refreshes, pushes, joins and leaves: what lies between a tracked min_seq and the
   cursor has been received, and what was received is in the services' log.
   */
  lemma CursorHasNoGapEndToEnd(w: World, id: string, n: int)
    requires Reachable(w) && id in w.client.c.tracked && w.client.c.tracked[id].minSeq <= n <= Cursor(w.client.c, id)
    ensures w.past != [] && (id, n) in w.client.a.received && Stored(Present(w).db.messages, id, n)
  {
    ReachableSound(w);
    assert Floor(w.client.a, id) <= n;
  }

  /**
   Everything of the conversation that u could see at moment i, which is not before the round began, has been received.
   */
  ghost predicate CaughtUpWith(w: World, i: nat, id: string) {
    && w.since <= i < |w.past| && (w.u, id) in w.past[i].db.rows
    && forall n :: Stored(w.past[i].db.messages, id, n) && Covers(w.past[i].db.rows[(w.u, id)], n) ==>
       (id, n) in w.client.a.received
  }

  lemma ReportCovers(db: Db, k: (string, string), n: int)
    requires InBounds(db) && RowsOk(db) && k in db.rows && Stored(db.messages, k.1, n) && Covers(db.rows[k], n)
    ensures db.rows[k].minSeq <= n <= VisibleMax(db.rows[k], MaxSeqOf(db, k.1))
  {
    var q :| 0 <= q < |db.messages| && db.messages[q].conv == k.1 && db.messages[q].seqNo == n;
    assert db.messages[q].conv in db.convs;
  }

  ghost predicate HasAll(a: Account, id: string, r: Range) {
    forall n :: r.minSeq <= n <= r.maxSeq ==> (id, n) in a.received
  }

  lemma ReceivedUpTo(w: World, id: string)
    requires Reachable(w) && w.client.c.phase.Finishing? && !w.client.c.dirty && id in w.client.c.phase.bounds
    ensures HasAll(w.client.a, id, w.client.c.phase.bounds[id])
  {
    ReachableSound(w);
    var r := w.client.c.phase.bounds[id];
    assert Floor(w.client.a, id) <= r.minSeq && Cursor(w.client.c, id) == r.maxSeq;
  }

  lemma BoundsWereReported(w: World, id: string) returns (i: nat)
    requires Reachable(w) && w.client.c.phase.Finishing? && id in w.client.c.phase.bounds
    ensures ReportedAt(w, id, w.client.c.phase.bounds[id], i) && Chat.Reachable(w.past[i])
  {
    ReachableSound(w);
    i :| ReportedAt(w, id, w.client.c.phase.bounds[id], i);
  }

  lemma CatchesUp(w: World, id: string, r: Range, i: nat)
    requires ReportedAt(w, id, r, i) && Chat.Reachable(w.past[i]) && HasAll(w.client.a, id, r)
    ensures CaughtUpWith(w, i, id)
  {
    var db := w.past[i].db;
    assert InBounds(db) && RowsOk(db) by { Chat.ReachableOk(w.past[i]); }
    forall n | Stored(db.messages, id, n) && Covers(db.rows[(w.u, id)], n) ensures (id, n) in w.client.a.received {
      ReportCovers(db, (w.u, id), n);
    }
  }

  /**
   A refresh that ends normally has caught up with the services: for every conversation of its last round there is a
   moment since that round began such that everything visible at that moment has been received.
   */
  lemma RefreshCatchesUpEndToEnd(w: World, id: string)
    requires Reachable(w) && w.client.c.phase.Finishing? && Next(w.client, RoundEnds).c.phase == Idle
             && id in w.client.c.phase.bounds
    ensures exists i :: CaughtUpWith(w, i, id)
  {
    assert !w.client.c.dirty;
    var r := w.client.c.phase.bounds[id];
    assert HasAll(w.client.a, id, r) by { ReceivedUpTo(w, id); }
    var i := BoundsWereReported(w, id);
    CatchesUp(w, id, r, i);
  }

  // ---------------------------------------------------------------- which conversations a round works on

  /** Every clock of the services so far read whole milliseconds. */
  ghost predicate OnClock(w: World) { forall i :: 0 <= i < |w.past| ==> Clocks.Clocked(w.past[i]) }

  /** The round is past its lists. */
  predicate HasBounds(w: World) { w.client.c.phase.Ranging? || w.client.c.phase.Finishing? }

  lemma RoundTraverses(w: World)
    requires Reachable(w) && OnClock(w) && HasBounds(w)
    ensures FromPages(w, w.client.c.phase.bounds) && Pages.Traversal(Pages.StepsOf(w.calls), FIRST_PAGE)
  {
    assert FromPages(w, w.client.c.phase.bounds) by { ReachableSound(w); }
    forall p | 0 <= p < |w.calls| ensures Pages.Nameable(w.calls[p].table) {
      Clocks.ClockedIs(w.past[w.cuts[p]]);
      Tables.ClockedTables(w.past[w.cuts[p]].db, w.u);
    }
    Pages.CallsTraverse(w.calls, "");
  }

  /**
   A round works on a conversation exactly when, at the moment one of its pages was answered, the conversation's key lay
   in that page's window: after the page's cursor and not past its last row.
   */
  lemma RoundCoversExactly(w: World, id: string)
    requires Reachable(w) && OnClock(w) && HasBounds(w)
    ensures forall p :: 0 <= p < |w.calls| ==> w.calls[p].answer.Page?
    ensures id in w.client.c.phase.bounds <==> exists p :: Pages.InWindow(Pages.StepsOf(w.calls), FIRST_PAGE, p, id)
  {
    RoundTraverses(w);
    Pages.ListedExactly(Pages.StepsOf(w.calls), FIRST_PAGE, id);
  }

  /** At every moment a page of the round was answered, u has the conversation with sort key t. */
  ghost predicate Untouched(w: World, id: string, t: Time) {
    forall p :: 0 <= p < |w.cuts| ==>
      w.cuts[p] < |w.past| && (w.u, id) in w.past[w.cuts[p]].db.rows
      && w.past[w.cuts[p]].db.rows[(w.u, id)].updatedAt == t
  }

  lemma UntouchedIsCovered(w: World, id: string, t: Time)
    requires Reachable(w) && OnClock(w) && HasBounds(w) && Untouched(w, id, t) && t < FIRST_PAGE.updatedAt
    ensures id in w.client.c.phase.bounds
  {
    RoundTraverses(w);
    var steps, k := Pages.StepsOf(w.calls), ListCursor(t, id);
    forall p | 0 <= p < |steps| ensures Pages.InTable(steps[p].table, k) {
      assert (w.u, id) in w.past[w.cuts[p]].db.rows;
    }
    Pages.UntouchedIsListed(steps, FIRST_PAGE, k);
    var j :| 0 <= j < |Pages.Listed(steps)| && Pages.Listed(steps)[j] == k;
    assert Pages.Lists(steps, id);
  }

  /**
   A refresh that ends normally misses no conversation that stood still while its last round asked: everything of it
   that was visible at some moment of the round has been received.
   */
  lemma RefreshMissesNothingStill(w: World, id: string, t: Time)
    requires Reachable(w) && OnClock(w) && Untouched(w, id, t) && t < FIRST_PAGE.updatedAt
    requires w.client.c.phase.Finishing? && Next(w.client, RoundEnds).c.phase == Idle
    ensures exists i :: CaughtUpWith(w, i, id)
  {
    UntouchedIsCovered(w, id, t);
    RefreshCatchesUpEndToEnd(w, id);
  }
}
