/**
 Connection admission (internal/gateway/usermap.go, upgrade.go, client.go): the counters under the registry's lock, the
 claim-or-release race on every reservation, and the close of every client, interleaved step by step.
 */
module SlotModel {
  import opened Common

  type Id = nat

  datatype Slot = Slot(userId: string, tokenId: string, ip: string)

  /** A limit of 0 or less is no limit. */
  datatype Limits = Limits(total: int, perUser: int, perToken: int, perIp: int)

  datatype Counters = Counters(byUserN: map<string, int>, byToken: map<string, int>, byIp: map<string, int>, total: int)

  datatype Error = NodeDraining | ConnOverLimit | ConnClosed

  function Count(m: map<string, int>, k: string): int { if k in m then m[k] else 0 }

  predicate Over(n: int, limit: int) { limit > 0 && n >= limit }

  function Incr(m: map<string, int>, k: string): map<string, int> { if k == "" then m else m[k := Count(m, k) + 1] }

  function Decr(m: map<string, int>, k: string): map<string, int> {
    if k == "" then m else if Count(m, k) <= 1 then m - {k} else m[k := m[k] - 1]
  }

  /** reserve's checks, in its order. */
  function Refusal(c: Counters, limits: Limits, closing: bool, s: Slot): Option<Error> {
    if closing then Some(NodeDraining)
    else if Over(c.total, limits.total) then Some(ConnOverLimit)
    else if Over(Count(c.byUserN, s.userId), limits.perUser) then Some(ConnOverLimit)
    else if s.tokenId != "" && Over(Count(c.byToken, s.tokenId), limits.perToken) then Some(ConnOverLimit)
    else if s.ip != "" && Over(Count(c.byIp, s.ip), limits.perIp) then Some(ConnOverLimit)
    else None
  }

  function Taken(c: Counters, s: Slot): Counters {
    Counters(c.byUserN[s.userId := Count(c.byUserN, s.userId) + 1], Incr(c.byToken, s.tokenId), Incr(c.byIp, s.ip),
      c.total + 1)
  }

  function Returned(c: Counters, s: Slot): Counters {
    Counters(Decr(c.byUserN, s.userId), Decr(c.byToken, s.tokenId), Decr(c.byIp, s.ip), c.total - 1)
  }

  // ---------------------------------------------------------------- tickets

  /**
   Where a granted slot is: with the HTTP request, won by a release, won by the upgrade, with a client, given back.
   */
  datatype Stage = Reserved | Releasing | Claimed | Adopted | Gone

  /**
   closed: the client's closed channel is closed; finished: its close has run Unregister; givenBack counts releases.
   */
  datatype Ticket = Ticket(slot: Slot, stage: Stage, closed: bool, finished: bool, givenBack: nat)

  datatype State = State(
    limits: Limits, counters: Counters, closing: bool, byUser: map<string, seq<Id>>, tickets: map<Id, Ticket>)

  datatype Event =
    | Reserve(id: Id, slot: Slot)
    | TryRelease(id: Id)
    | Release(id: Id)
    | Claim(id: Id)
    | Adopt(id: Id)
    | CloseChannel(id: Id)
    | Unregister(id: Id)
    | CloseNode

  function Clients(byUser: map<string, seq<Id>>, u: string): seq<Id> { if u in byUser then byUser[u] else [] }

  function Without(ids: seq<Id>, x: Id): seq<Id> {
    if ids == [] then [] else if ids[0] == x then ids[1..] else [ids[0]] + Without(ids[1..], x)
  }

  function Unlisted(byUser: map<string, seq<Id>>, u: string, id: Id): map<string, seq<Id>> {
    var left := Without(Clients(byUser, u), id);
    if left == [] then byUser - {u} else byUser[u := left]
  }

  function GaveBack(s: State, id: Id): State
    requires id in s.tickets
  {
    var t := s.tickets[id];
    s.(counters := Returned(s.counters, t.slot),
      tickets := s.tickets[id := t.(stage := Gone, givenBack := t.givenBack + 1)])
  }

  /** Every identity here is one admission; user ids are never empty, and a client exists once its slot was claimed. */
  predicate Allowed(s: State, e: Event) {
    match e
    case Reserve(id, slot) => id !in s.tickets && slot.userId != ""
    case TryRelease(id) => id in s.tickets
    case Release(id) => id in s.tickets && s.tickets[id].stage == Releasing
    case Claim(id) => id in s.tickets
    case Adopt(id) => id in s.tickets && s.tickets[id].stage == Claimed
    case CloseChannel(id) => id in s.tickets && s.tickets[id].stage in {Claimed, Adopted, Gone} && !s.tickets[id].closed
    case Unregister(id) => id in s.tickets && s.tickets[id].closed && !s.tickets[id].finished
    case CloseNode => true
  }

  function Next(s: State, e: Event): State
    requires Allowed(s, e)
  {
    match e
    case Reserve(id, slot) =>
      if Refusal(s.counters, s.limits, s.closing, slot).Some? then s
      else s.(counters := Taken(s.counters, slot), tickets := s.tickets[id := Ticket(slot, Reserved, false, false, 0)])
    case TryRelease(id) =>
      // The compare-and-swap has one winner.
      if s.tickets[id].stage != Reserved then s else s.(tickets := s.tickets[id := s.tickets[id].(stage := Releasing)])
    case Release(id) => GaveBack(s, id)
    case Claim(id) =>
      if s.tickets[id].stage != Reserved then s else s.(tickets := s.tickets[id := s.tickets[id].(stage := Claimed)])
    case Adopt(id) =>
      var t := s.tickets[id];
      if t.closed || s.closing then GaveBack(s, id)
      else s.(byUser := s.byUser[t.slot.userId := Clients(s.byUser, t.slot.userId) + [id]],
        tickets := s.tickets[id := t.(stage := Adopted)])
    case CloseChannel(id) => s.(tickets := s.tickets[id := s.tickets[id].(closed := true)])
    case Unregister(id) =>
      var t := s.tickets[id];
      var s' := s.(tickets := s.tickets[id := t.(finished := true)]);
      if id !in Clients(s.byUser, t.slot.userId) then s'
      else GaveBack(s'.(byUser := Unlisted(s.byUser, t.slot.userId, id)), id)
    case CloseNode => s.(closing := true)
  }

  /** Whoever comes first to a reserved slot has it: the upgrade, or a release; whoever comes later changes nothing. */
  lemma FirstSettles(s: State, id: Id)
    requires id in s.tickets
    ensures var t, c, r := s.tickets[id], Next(s, Claim(id)), Next(s, TryRelease(id));
            && c == s.(tickets := s.tickets[id := t.(stage := if t.stage == Reserved then Claimed else t.stage)])
            && r == s.(tickets := s.tickets[id := t.(stage := if t.stage == Reserved then Releasing else t.stage)])
  {
    assert s.tickets[id := s.tickets[id]] == s.tickets;
  }

  /** A claimed client is listed last among its user's, unless it closed or the node drains: then its slot goes back. */
  lemma AdoptExactly(s: State, id: Id)
    requires Allowed(s, Adopt(id))
    ensures var t, s' := s.tickets[id], Next(s, Adopt(id)); var u := t.slot.userId;
            if !t.closed && !s.closing then
              && s'.tickets == s.tickets[id := t.(stage := Adopted)] && s'.counters == s.counters
              && s'.byUser == s.byUser[u := (if u in s.byUser then s.byUser[u] else []) + [id]]
            else s'.tickets[id].stage == Gone && s'.byUser == s.byUser && s'.counters.total == s.counters.total - 1
  {}

  // ---------------------------------------------------------------- counting

  /** The four kinds of counter. */
  datatype Key = Total | User(name: string) | Token(name: string) | Address(name: string)

  predicate Proper(k: Key) { k.Total? || k.name != "" }

  predicate Matches(s: Slot, k: Key) {
    match k
    case Total => true
    case User(u) => s.userId == u
    case Token(t) => s.tokenId == t
    case Address(ip) => s.ip == ip
  }

  function Counter(c: Counters, k: Key): int {
    match k
    case Total => c.total
    case User(u) => Count(c.byUserN, u)
    case Token(t) => Count(c.byToken, t)
    case Address(ip) => Count(c.byIp, ip)
  }

  function Limit(l: Limits, k: Key): int {
    match k
    case Total => l.total
    case User(_) => l.perUser
    case Token(_) => l.perToken
    case Address(_) => l.perIp
  }

  /** The outstanding reservations and adopted clients a counter counts. */
  ghost function Holders(tickets: map<Id, Ticket>, k: Key): set<Id> {
    set id | id in tickets && tickets[id].stage != Gone && Matches(tickets[id].slot, k)
  }

  lemma TakenCounts(c: Counters, s: Slot, k: Key)
    requires Proper(k)
    ensures Counter(Taken(c, s), k) == Counter(c, k) + if Matches(s, k) then 1 else 0
  {}

  lemma ReturnedCounts(c: Counters, s: Slot, k: Key)
    requires Proper(k) && (Matches(s, k) ==> Counter(c, k) >= 1) && s.userId != ""
    ensures Counter(Returned(c, s), k) == Counter(c, k) - if Matches(s, k) then 1 else 0
  {}

  /** No counter keeps an entry that counts nobody, and nobody is counted under an empty token or address. */
  predicate Clean(c: Counters) {
    && (forall k :: k in c.byUserN ==> c.byUserN[k] >= 1)
    && (forall k :: k in c.byToken ==> c.byToken[k] >= 1 && k != "")
    && (forall k :: k in c.byIp ==> c.byIp[k] >= 1 && k != "")
  }

  lemma IncrDecr(m: map<string, int>, k: string)
    requires forall j :: j in m ==> m[j] >= 1
    ensures Decr(Incr(m, k), k) == m
  {}

  lemma CleanMoves(c: Counters, s: Slot)
    requires Clean(c)
    ensures Clean(Taken(c, s)) && Clean(Returned(c, s))
  {}

  lemma ReturnedAfterTaken(c: Counters, s: Slot)
    requires Clean(c)
    ensures Returned(Taken(c, s), s) == c <==> s.userId != ""
  {
    IncrDecr(c.byToken, s.tokenId);
    IncrDecr(c.byIp, s.ip);
    if s.userId != "" {
      IncrDecr(c.byUserN, s.userId);
    } else {
      assert Returned(Taken(c, s), s).byUserN[""] == Count(c.byUserN, "") + 1;
    }
  }

  ghost predicate Tally(s: State, k: Key) { Counter(s.counters, k) == |Holders(s.tickets, k)| }

  ghost predicate Tallies(s: State) { forall k :: Proper(k) ==> Tally(s, k) }

  ghost predicate Named(s: State) { forall id :: id in s.tickets ==> s.tickets[id].slot.userId != "" }

  lemma HoldersAfter(tickets: map<Id, Ticket>, id: Id, t: Ticket, k: Key)
    ensures Holders(tickets[id := t], k)
         == if t.stage != Gone && Matches(t.slot, k) then Holders(tickets, k) + {id} else Holders(tickets, k) - {id}
  {}

  lemma HoldersPut(tickets: map<Id, Ticket>, id: Id, t: Ticket, k: Key)
    requires id in tickets ==> t.slot == tickets[id].slot
    ensures var before := id in tickets && tickets[id].stage != Gone && Matches(t.slot, k);
            var after := t.stage != Gone && Matches(t.slot, k);
            |Holders(tickets[id := t], k)|
              == |Holders(tickets, k)| - (if before then 1 else 0) + (if after then 1 else 0)
  {
    HoldersAfter(tickets, id, t, k);
    assert id in Holders(tickets, k) <==> id in tickets && tickets[id].stage != Gone && Matches(t.slot, k);
  }

  /** A step that gives no slot back and takes none. */
  lemma SameTallies(s: State, s': State, id: Id, t: Ticket)
    requires Tallies(s) && id in s.tickets && t.slot == s.tickets[id].slot
             && (t.stage == Gone <==> s.tickets[id].stage == Gone)
    requires s'.counters == s.counters && s'.tickets == s.tickets[id := t]
    ensures Tallies(s')
  {
    forall k | Proper(k) ensures Tally(s', k) { assert Tally(s, k); HoldersPut(s.tickets, id, t, k); }
  }

  lemma GaveBackTallies(s: State, id: Id)
    requires Tallies(s) && Named(s) && id in s.tickets && s.tickets[id].stage != Gone
    ensures Tallies(GaveBack(s, id))
  {
    var t := s.tickets[id];
    forall k | Proper(k) ensures Tally(GaveBack(s, id), k) {
      assert Tally(s, k);
      HoldersPut(s.tickets, id, t.(stage := Gone, givenBack := t.givenBack + 1), k);
      if Matches(t.slot, k) { assert id in Holders(s.tickets, k); }
      ReturnedCounts(s.counters, t.slot, k);
    }
  }

  lemma ReserveTallies(s: State, id: Id, slot: Slot)
    requires Tallies(s) && Allowed(s, Reserve(id, slot))
    ensures Tallies(Next(s, Reserve(id, slot)))
  {
    var s' := Next(s, Reserve(id, slot));
    if Refusal(s.counters, s.limits, s.closing, slot).None? {
      forall k | Proper(k) ensures Tally(s', k) {
        assert Tally(s, k);
        HoldersPut(s.tickets, id, Ticket(slot, Reserved, false, false, 0), k);
        TakenCounts(s.counters, slot, k);
      }
    }
  }

  // ---------------------------------------------------------------- the registry lists exactly the adopted clients

  ghost predicate Listed(s: State) {
    && (forall u :: u in s.byUser ==> s.byUser[u] != [] && NoRepeat(s.byUser[u]))
    && (forall u, id :: id in Clients(s.byUser, u) <==>
         id in s.tickets && s.tickets[id].stage == Adopted && s.tickets[id].slot.userId == u)
  }

  lemma {:induction false} WithoutIs(ids: seq<Id>, x: Id, y: Id)
    requires NoRepeat(ids)
    ensures NoRepeat(Without(ids, x)) && (y in Without(ids, x) <==> y in ids && y != x)
  {
    if ids != [] {
      WithoutIs(ids[1..], x, y);
      forall i | 0 <= i < |Without(ids[1..], x)| ensures Without(ids[1..], x)[i] != ids[0] {
        WithoutIs(ids[1..], x, ids[0]);
      }
    }
  }

  // ---------------------------------------------------------------- stages

  /** Each slot is given back once, and a client whose close has finished holds none it could keep. */
  ghost predicate TicketOk(t: Ticket) {
    && t.givenBack == (if t.stage == Gone then 1 else 0)
    && (t.closed ==> t.stage in {Claimed, Adopted, Gone})
    && (t.finished ==> t.closed && t.stage != Adopted)
  }

  ghost predicate TicketsOk(s: State) { forall id :: id in s.tickets ==> TicketOk(s.tickets[id]) }

  ghost predicate Within(s: State) {
    forall k :: Proper(k) && Limit(s.limits, k) > 0 ==> Counter(s.counters, k) <= Limit(s.limits, k)
  }

  // ---------------------------------------------------------------- what every step keeps

  lemma StepTallies(s: State, e: Event)
    requires Tallies(s) && Named(s) && Listed(s) && Allowed(s, e)
    ensures Tallies(Next(s, e))
  {
    var s' := Next(s, e);
    match e
    case Reserve(id, slot) => ReserveTallies(s, id, slot);
    case Release(id) => GaveBackTallies(s, id);
    case Adopt(id) =>
      var t := s.tickets[id];
      if t.closed || s.closing { GaveBackTallies(s, id); } else { SameTallies(s, s', id, t.(stage := Adopted)); }
    case Unregister(id) => UnregisterTallies(s, id);
    case CloseNode => SameTalliesClosing(s);
    case _ => if s' != s { SameTallies(s, s', e.id, s'.tickets[e.id]); }
  }

  lemma SameTalliesClosing(s: State)
    requires Tallies(s)
    ensures Tallies(s.(closing := true))
  {}

  lemma UnregisterTallies(s: State, id: Id)
    requires Tallies(s) && Named(s) && Listed(s) && Allowed(s, Unregister(id))
    ensures Tallies(Next(s, Unregister(id)))
  {
    var t := s.tickets[id];
    var done := s.(tickets := s.tickets[id := t.(finished := true)]);
    SameTallies(s, done, id, t.(finished := true));
    if id in Clients(s.byUser, t.slot.userId) {
      var cut := done.(byUser := Unlisted(s.byUser, t.slot.userId, id));
      assert Tallies(cut) by { forall k | Proper(k) ensures Tally(cut, k) { assert Tally(done, k); } }
      GaveBackTallies(cut, id);
    }
  }

  lemma StepNamed(s: State, e: Event)
    requires Named(s) && Allowed(s, e)
    ensures Named(Next(s, e))
  {}

  lemma UnlistedIs(byUser: map<string, seq<Id>>, u: string, id: Id, v: string, y: Id)
    requires forall w :: w in byUser ==> NoRepeat(byUser[w])
    ensures y in Clients(Unlisted(byUser, u, id), v) <==> y in Clients(byUser, v) && !(v == u && y == id)
  {
    WithoutIs(Clients(byUser, u), id, y);
  }

  lemma UnregisterListed(s: State, id: Id)
    requires Listed(s) && Allowed(s, Unregister(id))
    ensures Listed(Next(s, Unregister(id)))
  {
    var t := s.tickets[id];
    if id in Clients(s.byUser, t.slot.userId) {
      var s' := Next(s, Unregister(id));
      forall u, y
        ensures y in Clients(s'.byUser, u) <==>
                y in s'.tickets && s'.tickets[y].stage == Adopted && s'.tickets[y].slot.userId == u
      {
        UnlistedIs(s.byUser, t.slot.userId, id, u, y);
      }
      WithoutIs(Clients(s.byUser, t.slot.userId), id, id);
    }
  }

  lemma AdoptListed(s: State, id: Id)
    requires Listed(s) && Allowed(s, Adopt(id)) && !s.tickets[id].closed && !s.closing
    ensures Listed(Next(s, Adopt(id)))
  {
    var s', owner := Next(s, Adopt(id)), s.tickets[id].slot.userId;
    var ids := Clients(s.byUser, owner);
    assert id !in ids;
    forall u, y
      ensures y in Clients(s'.byUser, u) <==>
              y in s'.tickets && s'.tickets[y].stage == Adopted && s'.tickets[y].slot.userId == u
    {
      assert y in Clients(s.byUser, u) <==>
        y in s.tickets && s.tickets[y].stage == Adopted && s.tickets[y].slot.userId == u;
      if u == owner { assert Clients(s'.byUser, u) == ids + [id]; }
    }
  }

  /** A step that neither lists anyone nor moves a listed client. */
  lemma SameListed(s: State, s': State)
    requires Listed(s) && s'.byUser == s.byUser
    requires forall y :: y in s'.tickets && s'.tickets[y].stage == Adopted ==>
             y in s.tickets && s.tickets[y].stage == Adopted
    requires forall y :: y in s.tickets && s.tickets[y].stage == Adopted ==>
      y in s'.tickets && s'.tickets[y].stage == Adopted && s'.tickets[y].slot == s.tickets[y].slot
    ensures Listed(s')
  {}

  lemma StepListed(s: State, e: Event)
    requires Listed(s) && Allowed(s, e)
    ensures Listed(Next(s, e))
  {
    if e.Unregister? { UnregisterListed(s, e.id); }
    else if e.Adopt? && !s.tickets[e.id].closed && !s.closing { AdoptListed(s, e.id); }
    else { SameListed(s, Next(s, e)); }
  }

  lemma StepClean(s: State, e: Event)
    requires Clean(s.counters) && Allowed(s, e)
    ensures Clean(Next(s, e).counters)
  {
    if e.Reserve? { CleanMoves(s.counters, e.slot); }
    else if !e.CloseNode? { CleanMoves(s.counters, s.tickets[e.id].slot); }
  }

  lemma StepTickets(s: State, e: Event)
    requires TicketsOk(s) && Listed(s) && Allowed(s, e)
    ensures TicketsOk(Next(s, e))
  {}

  lemma StepWithin(s: State, e: Event)
    requires Within(s) && Tallies(s) && Named(s) && Listed(s) && Allowed(s, e)
    ensures Within(Next(s, e))
  {
    var s' := Next(s, e);
    forall k | Proper(k) && Limit(s.limits, k) > 0 ensures Counter(s'.counters, k) <= Limit(s.limits, k) {
      assert Tally(s, k);
      if e.Reserve? {
        TakenCounts(s.counters, e.slot, k);
      } else if s'.counters != s.counters {
        var slot := s.tickets[e.id].slot;
        assert e.id in Holders(s.tickets, k) <==> Matches(slot, k);
        ReturnedCounts(s.counters, slot, k);
      }
    }
  }

  // ---------------------------------------------------------------- every run

  function Init(limits: Limits): State { State(limits, Counters(map[], map[], map[], 0), false, map[], map[]) }

  ghost function Run(s: State, es: seq<Event>): Option<State>
    decreases |es|
  {
    if es == [] then Some(s) else if Allowed(s, es[0]) then Run(Next(s, es[0]), es[1..]) else None
  }

  ghost predicate Reachable(s: State) { exists es :: Run(Init(s.limits), es) == Some(s) }

  ghost predicate Good(s: State) {
    Tallies(s) && Named(s) && Listed(s) && TicketsOk(s) && Within(s) && Clean(s.counters)
  }

  lemma InitGood(limits: Limits)
    ensures Good(Init(limits))
  {}

  lemma StepGood(s: State, e: Event)
    requires Good(s) && Allowed(s, e)
    ensures Good(Next(s, e))
  {
    var s' := Next(s, e);
    assert Tallies(s') by { StepTallies(s, e); }
    assert Named(s') by { StepNamed(s, e); }
    assert Listed(s') by { StepListed(s, e); }
    assert TicketsOk(s') by { StepTickets(s, e); }
    assert Within(s') by { StepWithin(s, e); }
    assert Clean(s'.counters) by { StepClean(s, e); }
  }

  lemma {:induction false} RunGood(s: State, es: seq<Event>)
    requires Good(s) && Run(s, es).Some?
    ensures Good(Run(s, es).value)
    decreases |es|
  {
    if es != [] {
      assert Good(Next(s, es[0])) by { StepGood(s, es[0]); }
      RunGood(Next(s, es[0]), es[1..]);
    }
  }

  lemma ReachableGood(s: State)
    requires Reachable(s)
    ensures Good(s)
  {
    var es :| Run(Init(s.limits), es) == Some(s);
    InitGood(s.limits);
    RunGood(Init(s.limits), es);
  }

  // ---------------------------------------------------------------- the promises

  /**
   Every counter is the number of outstanding reservations and adopted clients it stands for, and respects its limit.
   */
  lemma CountersAreHolders(s: State, k: Key)
    requires Reachable(s) && Proper(k)
    ensures Counter(s.counters, k) == |Holders(s.tickets, k)|
    ensures Limit(s.limits, k) > 0 ==> |Holders(s.tickets, k)| <= Limit(s.limits, k)
  {
    ReachableGood(s);
    assert Tally(s, k);
  }

  /** A limit on something this slot counts for is used up. */
  ghost predicate Full(s: State, slot: Slot) {
    exists k :: Proper(k) && Matches(slot, k) && 0 < Limit(s.limits, k) <= |Holders(s.tickets, k)|
  }

  lemma FullIsRefused(s: State, slot: Slot, k: Key)
    requires Tally(s, k) && !s.closing && slot.userId != "" && Proper(k) && Matches(slot, k)
    requires 0 < Limit(s.limits, k) <= |Holders(s.tickets, k)|
    ensures Refusal(s.counters, s.limits, s.closing, slot) == Some(ConnOverLimit)
  {}

  lemma RefusedIsFull(s: State, slot: Slot) returns (k: Key)
    requires Tallies(s) && slot.userId != "" && Refusal(s.counters, s.limits, s.closing, slot) == Some(ConnOverLimit)
    ensures Proper(k) && Matches(slot, k) && 0 < Limit(s.limits, k) <= |Holders(s.tickets, k)|
  {
    var c, l := s.counters, s.limits;
    k := if 0 < l.total <= c.total then Total
         else if 0 < l.perUser <= Count(c.byUserN, slot.userId) then User(slot.userId)
         else if slot.tokenId != "" && 0 < l.perToken <= Count(c.byToken, slot.tokenId) then Token(slot.tokenId)
         else Address(slot.ip);
    assert Tally(s, k);
  }

  /**
   Who gets a slot, in every reachable state: everyone, unless the node is draining or as many reservations and adopted
   clients as some positive limit allows already count for the same node, user, token or address.
   */
  lemma GrantedExactly(s: State, id: Id, slot: Slot)
    requires Reachable(s) && Allowed(s, Reserve(id, slot))
    ensures var e := Refusal(s.counters, s.limits, s.closing, slot); var s' := Next(s, Reserve(id, slot));
            && (e == Some(NodeDraining) <==> s.closing) && (e == Some(ConnOverLimit) <==> !s.closing && Full(s, slot))
            && (id in s'.tickets <==> !s.closing && !Full(s, slot)) && (e.Some? ==> s' == s)
            && (id in s'.tickets ==> s'.tickets == s.tickets[id := Ticket(slot, Reserved, false, false, 0)])
  {
    assert Tallies(s) by { ReachableGood(s); }
    var e := Refusal(s.counters, s.limits, s.closing, slot);
    if e == Some(ConnOverLimit) { var k := RefusedIsFull(s, slot); }
    if !s.closing && Full(s, slot) {
      var k :| Proper(k) && Matches(slot, k) && 0 < Limit(s.limits, k) <= |Holders(s.tickets, k)|;
      FullIsRefused(s, slot, k);
    }
  }

  /**
   Whichever of claim, request end, timeout, drain, failed adopt or close wins, the slot goes back once and for all.
   */
  lemma SlotReturnsOnce(s: State, id: Id)
    requires Reachable(s) && id in s.tickets
    ensures s.tickets[id].givenBack == if s.tickets[id].stage == Gone then 1 else 0
  {
    ReachableGood(s);
    assert TicketOk(s.tickets[id]);
  }

  lemma GoneStep(s: State, e: Event, id: Id)
    requires Allowed(s, e) && Listed(s) && id in s.tickets && s.tickets[id].stage == Gone
    ensures var s' := Next(s, e);
            && id in s'.tickets && s'.tickets[id].stage == Gone
            && s'.tickets[id].givenBack == s.tickets[id].givenBack
  {}

  lemma {:induction false} RunGone(s: State, es: seq<Event>, id: Id)
    requires Good(s) && Run(s, es).Some? && id in s.tickets && s.tickets[id].stage == Gone
    ensures var s' := Run(s, es).value;
            && id in s'.tickets && s'.tickets[id].stage == Gone
            && s'.tickets[id].givenBack == s.tickets[id].givenBack
    decreases |es|
  {
    if es != [] {
      assert Good(Next(s, es[0])) by { StepGood(s, es[0]); }
      GoneStep(s, es[0], id);
      RunGone(Next(s, es[0]), es[1..], id);
    }
  }

  /** Whatever happens after a slot went back, it is never given back again. */
  lemma GoneStaysGone(s: State, es: seq<Event>, id: Id)
    requires Reachable(s) && Run(s, es).Some? && id in s.tickets && s.tickets[id].stage == Gone
    ensures var s' := Run(s, es).value;
            && id in s'.tickets && s'.tickets[id].stage == Gone
            && s'.tickets[id].givenBack == 1
  {
    assert Good(s) && TicketOk(s.tickets[id]) by { ReachableGood(s); }
    RunGone(s, es, id);
  }

  /**
   Releasing a slot undoes reserving it in every reachable state, except that an empty user id is counted and never
   taken off again.
   */
  lemma ReleaseUndoesReserve(s: State, slot: Slot)
    requires Reachable(s)
    ensures Returned(Taken(s.counters, slot), slot) == s.counters <==> slot.userId != ""
  {
    assert Clean(s.counters) by { ReachableGood(s); }
    ReturnedAfterTaken(s.counters, slot);
  }

  /** Exactly the adopted clients are registered, under their own user, and none whose close has finished. */
  lemma RegisteredAreOpen(s: State, u: string, id: Id)
    requires Reachable(s)
    ensures id in Clients(s.byUser, u) <==>
            id in s.tickets && s.tickets[id].stage == Adopted && s.tickets[id].slot.userId == u
    ensures id in Clients(s.byUser, u) ==> !s.tickets[id].finished
  {
    ReachableGood(s);
    if id in Clients(s.byUser, u) { assert TicketOk(s.tickets[id]); }
  }

  /** Nothing was registered or reserved on the way from s to s'. */
  ghost predicate Shrinks(s: State, s': State) {
    && s'.closing && s'.counters.total <= s.counters.total
    && forall u, id :: id in Clients(s'.byUser, u) ==> id in Clients(s.byUser, u)
  }

  lemma ClosedStep(s: State, e: Event)
    requires Listed(s) && s.closing && Allowed(s, e)
    ensures Shrinks(s, Next(s, e))
  {
    if e.Unregister? && e.id in Clients(s.byUser, s.tickets[e.id].slot.userId) {
      forall u, id | id in Clients(Next(s, e).byUser, u) ensures id in Clients(s.byUser, u) {
        UnlistedIs(s.byUser, s.tickets[e.id].slot.userId, e.id, u, id);
      }
    }
  }

  lemma {:induction false} RunShrinks(s: State, es: seq<Event>)
    requires Good(s) && s.closing && Run(s, es).Some?
    ensures Shrinks(s, Run(s, es).value)
    decreases |es|
  {
    if es != [] {
      var m := Next(s, es[0]);
      assert Good(m) by { StepGood(s, es[0]); }
      assert Shrinks(s, m) by { ClosedStep(s, es[0]); }
      RunShrinks(m, es[1..]);
    }
  }

  /** After Close no run raises the total or registers anyone. */
  lemma ClosedNodeOnlyShrinks(s: State, es: seq<Event>)
    requires Reachable(s) && s.closing && Run(s, es).Some?
    ensures Shrinks(s, Run(s, es).value)
  {
    assert Good(s) by { ReachableGood(s); }
    RunShrinks(s, es);
  }
}
