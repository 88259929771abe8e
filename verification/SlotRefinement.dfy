/**
 The registry and the reservations as they run are the machine of SlotModel: whatever calls are made, in whatever order,
 what the objects show is a reachable state, so every theorem about runs is about them.
 */
module SlotRefinement {
  import opened Common
  import opened SlotModel
  import opened UserMaps

  ghost predicate Leads(s: State, s': State) { exists es :: Run(s, es) == Some(s') }

  lemma {:induction false} RunThen(s: State, es: seq<Event>, fs: seq<Event>)
    requires Run(s, es).Some?
    ensures Run(s, es + fs) == Run(Run(s, es).value, fs)
    decreases |es|
  {
    if es == [] {
      assert [] + fs == fs;
    } else {
      assert (es + fs)[1..] == es[1..] + fs;
      RunThen(Next(s, es[0]), es[1..], fs);
    }
  }

  lemma LeadsThen(s: State, m: State, t: State)
    requires Leads(s, m) && Leads(m, t)
    ensures Leads(s, t)
  {
    var es :| Run(s, es) == Some(m);
    var fs :| Run(m, fs) == Some(t);
    RunThen(s, es, fs);
  }

  /** s' is where some run from s leads, and so reachable as s is. */
  ghost predicate Goes(s: State, s': State) { Leads(s, s') && Reachable(s') }

  lemma StepGoes(s: State, e: Event)
    requires Reachable(s) && Allowed(s, e)
    ensures Goes(s, Next(s, e))
  {
    assert [e][1..] == [];
    assert Run(s, [e]) == Some(Next(s, e));
    assert Leads(Init(s.limits), s);
    LeadsThen(Init(s.limits), s, Next(s, e));
  }

  lemma GoesOn(s: State, m: State, e: Event)
    requires Goes(s, m) && Allowed(m, e)
    ensures Goes(s, Next(m, e))
  {
    StepGoes(m, e);
    LeadsThen(s, m, Next(m, e));
  }

  lemma StaysPut(s: State)
    requires Reachable(s)
    ensures Goes(s, s)
  {
    assert Run(s, []) == Some(s);
  }

  // ---------------------------------------------------------------- one call, said of the machine's state

  /** release: whoever settles the reservation first decides; only then does the slot go back. */
  function Released(s: State, id: Id): State
    requires id in s.tickets
  {
    if s.tickets[id].stage != Reserved then s else GaveBack(s, id)
  }

  lemma ReleaseGoes(s: State, id: Id)
    requires Reachable(s) && id in s.tickets
    ensures Goes(s, Released(s, id))
  {
    StepGoes(s, Event.TryRelease(id));
    if s.tickets[id].stage == Reserved {
      var m := Next(s, Event.TryRelease(id));
      GoesOn(s, m, Event.Release(id));
      assert m.tickets[id := GaveBack(s, id).tickets[id]] == s.tickets[id := GaveBack(s, id).tickets[id]];
      assert Next(m, Event.Release(id)) == GaveBack(s, id);
    }
  }

  /** Register lists a connection that comes without a reservation; one it turns away leaves no trace. */
  function Registered(s: State, id: Id, slot: Slot, closed: bool): State {
    if Refusal(s.counters, s.limits, s.closing, slot).Some? || closed then s
    else s.(counters := Taken(s.counters, slot),
            byUser := s.byUser[slot.userId := Clients(s.byUser, slot.userId) + [id]],
            tickets := s.tickets[id := Ticket(slot, Adopted, false, false, 0)])
  }

  lemma RegisterGoes(s: State, id: Id, slot: Slot, closed: bool)
    requires Reachable(s) && id !in s.tickets && slot.userId != ""
    ensures Goes(s, Registered(s, id, slot, closed))
  {
    if Refusal(s.counters, s.limits, s.closing, slot).Some? || closed {
      StaysPut(s);
    } else {
      StepGoes(s, Event.Reserve(id, slot));
      var r := Next(s, Event.Reserve(id, slot));
      GoesOn(s, r, Event.Claim(id));
      var c := Next(r, Event.Claim(id));
      GoesOn(s, c, Event.Adopt(id));
      assert Next(c, Event.Adopt(id)).tickets == Registered(s, id, slot, closed).tickets;
    }
  }

  // ---------------------------------------------------------------- the objects

  /** What a client knows of its own admission. */
  datatype Client = Client(slot: Slot, closed: bool, finished: bool)

  function Carried(t: Ticket): Client { Client(t.slot, t.closed, t.finished) }

  /** What the tickets say is what the clients carry; held are the reservations nobody has settled. */
  ghost predicate TicketsShow(tickets: map<Id, Ticket>, clients: map<Id, Client>, held: set<Id>) {
    && tickets.Keys == clients.Keys && held <= clients.Keys
    && forall id :: id in clients ==>
       clients[id] == Carried(tickets[id]) && (id in held <==> tickets[id].stage == Reserved)
  }

  /** s' is s after the ticket of id became t. */
  ghost predicate Moves(s: State, s': State, id: Id, t: Ticket) { s'.tickets == s.tickets[id := t] }

  lemma MoveShows(s: State, s': State, id: Id, t: Ticket, clients: map<Id, Client>, held: set<Id>)
    requires TicketsShow(s.tickets, clients, held) && Moves(s, s', id, t) && t.stage != Reserved
    ensures TicketsShow(s'.tickets, clients[id := Carried(t)], held - {id})
  {}

  lemma ReserveShows(s: State, id: Id, slot: Slot, clients: map<Id, Client>, held: set<Id>)
    requires TicketsShow(s.tickets, clients, held) && Allowed(s, Event.Reserve(id, slot))
    requires Refusal(s.counters, s.limits, s.closing, slot).None?
    ensures var s' := Next(s, Event.Reserve(id, slot));
            TicketsShow(s'.tickets, clients[id := Client(slot, false, false)], held + {id})
  {}

  lemma SettledShows(s: State, s': State, id: Id, clients: map<Id, Client>, held: set<Id>)
    requires TicketsShow(s.tickets, clients, held) && id in s.tickets && id in s'.tickets
    requires Moves(s, s', id, s'.tickets[id]) && s'.tickets[id].stage != Reserved
    requires Carried(s'.tickets[id]) == Carried(s.tickets[id])
    ensures TicketsShow(s'.tickets, clients, held - {id})
  {}

  /** The whole effect of one event on the ticket it names. */
  lemma ClaimMoves(s: State, id: Id)
    requires Allowed(s, Event.Claim(id))
    ensures var (s', t) := (Next(s, Event.Claim(id)), s.tickets[id]);
            Moves(s, s', id, if t.stage == Reserved then t.(stage := Claimed) else t)
  {}

  lemma ReleaseMoves(s: State, id: Id)
    requires id in s.tickets
    ensures var t := s.tickets[id];
            Moves(s, Released(s, id), id,
                  if t.stage == Reserved then t.(stage := Gone, givenBack := t.givenBack + 1) else t)
  {}

  lemma AdoptMoves(s: State, id: Id)
    requires Allowed(s, Event.Adopt(id))
    ensures var (s', t) := (Next(s, Event.Adopt(id)), s.tickets[id]);
            Moves(s, s', id,
                  if t.closed || s.closing then t.(stage := Gone, givenBack := t.givenBack + 1)
                  else t.(stage := Adopted))
  {}

  lemma CloseMoves(s: State, id: Id)
    requires Allowed(s, Event.CloseChannel(id))
    ensures Moves(s, Next(s, Event.CloseChannel(id)), id, s.tickets[id].(closed := true))
  {}

  lemma UnregisterMoves(s: State, id: Id)
    requires Allowed(s, Event.Unregister(id)) && s.tickets[id].stage != Reserved
    ensures var s' := Next(s, Event.Unregister(id)); id in s'.tickets && Moves(s, s', id, s'.tickets[id])
    ensures var t := Next(s, Event.Unregister(id)).tickets[id];
            Carried(t) == Carried(s.tickets[id]).(finished := true) && t.stage != Reserved
  {}

  lemma ClosedIsClaimed(s: State, id: Id)
    requires Reachable(s) && id in s.tickets && s.tickets[id].closed
    ensures s.tickets[id].stage != Reserved
  {
    ReachableGood(s);
    assert TicketOk(s.tickets[id]);
  }

  lemma AdoptedAreListed(s: State, id: Id)
    requires Reachable(s)
    ensures (exists u :: id in Clients(s.byUser, u)) <==> id in s.tickets && s.tickets[id].stage == Adopted
  {
    assert Listed(s) by { ReachableGood(s); }
    if id in s.tickets && s.tickets[id].stage == Adopted {
      assert id in Clients(s.byUser, s.tickets[id].slot.userId);
    }
  }

  /** The clients carry what some reachable state says of them. */
  ghost predicate Shown(s: State, clients: map<Id, Client>, held: set<Id>) {
    TicketsShow(s.tickets, clients, held) && Reachable(s)
  }

  lemma ReserveShown(s: State, id: Id, slot: Slot, clients: map<Id, Client>, held: set<Id>)
    requires Shown(s, clients, held) && id !in clients && slot.userId != ""
    requires Refusal(s.counters, s.limits, s.closing, slot).None?
    ensures Shown(Next(s, Event.Reserve(id, slot)), clients[id := Client(slot, false, false)], held + {id})
  {
    StepGoes(s, Event.Reserve(id, slot));
    ReserveShows(s, id, slot, clients, held);
  }

  lemma ReleaseShown(s: State, id: Id, clients: map<Id, Client>, held: set<Id>)
    requires Shown(s, clients, held) && id in clients
    ensures Shown(Released(s, id), clients, held - {id}) && Goes(s, Released(s, id))
  {
    ReleaseGoes(s, id);
    ReleaseMoves(s, id);
    SettledShows(s, Released(s, id), id, clients, held);
  }

  lemma ClaimShown(s: State, id: Id, clients: map<Id, Client>, held: set<Id>)
    requires Shown(s, clients, held) && id in clients
    ensures Shown(Next(s, Event.Claim(id)), clients, held - {id})
  {
    StepGoes(s, Event.Claim(id));
    ClaimMoves(s, id);
    SettledShows(s, Next(s, Event.Claim(id)), id, clients, held);
  }

  lemma AdoptShown(s: State, id: Id, clients: map<Id, Client>, held: set<Id>)
    requires Shown(s, clients, held) && id in clients && s.tickets[id].stage == Claimed
    ensures Shown(Next(s, Event.Adopt(id)), clients, held)
  {
    StepGoes(s, Event.Adopt(id));
    AdoptMoves(s, id);
    SettledShows(s, Next(s, Event.Adopt(id)), id, clients, held);
    assert held - {id} == held;
  }

  lemma RegisterShown(s: State, id: Id, slot: Slot, clients: map<Id, Client>, held: set<Id>)
    requires Shown(s, clients, held) && id !in clients && slot.userId != ""
    requires Refusal(s.counters, s.limits, s.closing, slot).None?
    ensures Shown(Registered(s, id, slot, false), clients[id := Client(slot, false, false)], held)
  {
    RegisterGoes(s, id, slot, false);
    MoveShows(s, Registered(s, id, slot, false), id, Ticket(slot, Adopted, false, false, 0), clients, held);
    assert held - {id} == held;
  }

  lemma CloseShown(s: State, id: Id, clients: map<Id, Client>, held: set<Id>)
    requires Shown(s, clients, held) && id in clients && Allowed(s, Event.CloseChannel(id))
    ensures Shown(Next(s, Event.CloseChannel(id)), clients[id := clients[id].(closed := true)], held)
  {
    StepGoes(s, Event.CloseChannel(id));
    CloseMoves(s, id);
    MoveShows(s, Next(s, Event.CloseChannel(id)), id, s.tickets[id].(closed := true), clients, held);
    assert held - {id} == held;
  }

  lemma UnregisterShown(s: State, id: Id, clients: map<Id, Client>, held: set<Id>)
    requires Shown(s, clients, held) && id in clients && clients[id].closed && !clients[id].finished
    ensures Shown(Next(s, Event.Unregister(id)), clients[id := clients[id].(finished := true)], held)
  {
    StepGoes(s, Event.Unregister(id));
    ClosedIsClaimed(s, id);
    UnregisterMoves(s, id);
    MoveShows(s, Next(s, Event.Unregister(id)), id, Next(s, Event.Unregister(id)).tickets[id], clients, held);
    assert held - {id} == held;
  }

  /** A node's registry, the reservations of its handshakes, and its clients. */
  class Admission {
    const users: UserMap
    var reservations: map<Id, Reservation>
    var clients: map<Id, Client>
    ghost var held: set<Id>
    ghost var s: State

    /** Every reservation is on this registry, for the slot of its client. */
    ghost predicate Owned()
      reads this`reservations, this`clients
    {
      && reservations.Keys <= clients.Keys
      && forall id :: id in reservations ==>
           reservations[id].id == id && reservations[id].users == users && reservations[id].slot == clients[id].slot
    }

    ghost predicate ShowsHeld()
      reads this`reservations, this`held, reservations.Values
    {
      held <= reservations.Keys && forall id :: id in reservations ==> (id in held <==> !reservations[id].settled)
    }

    ghost predicate ShowsRegistry()
      reads this`s, users
    {
      s.limits == users.limits && s.counters == users.Tallied() && s.closing == users.closing
        && s.byUser == users.byUser
    }

    /** The objects show s, and some run of the machine is in s. */
    ghost predicate Follows()
      reads this, users, reservations.Values
    {
      Owned() && ShowsRegistry() && ShowsHeld() && Shown(s, clients, held)
    }

    constructor (limits: Limits)
      ensures Follows() && fresh(users) && s == Init(limits)
    {
      users := new UserMap(limits);
      reservations, clients, held, s := map[], map[], {}, Init(limits);
      new;
      assert Run(Init(limits), []) == Some(Init(limits));
    }

    /** A granted slot goes with a new reservation. */
    method Hold(id: Id, slot: Slot)
      requires Owned() && ShowsHeld() && id !in clients
      modifies this`reservations, this`clients, this`held
      ensures Owned() && ShowsHeld() && held == old(held) + {id}
      ensures clients == old(clients)[id := Client(slot, false, false)]
    {
      var r := new Reservation(users, slot, id);
      reservations, clients, held := reservations[id := r], clients[id := Client(slot, false, false)], held + {id};
    }

    method LetGo(id: Id)
      requires Owned() && ShowsHeld() && id in reservations
      modifies this`held, users`byUserN, users`byToken, users`byIp, users`total, reservations[id]
      ensures Owned() && ShowsHeld() && held == old(held) - {id}
      ensures var was := old(users.Tallied());
              users.Tallied() == if id in old(held) then Returned(was, clients[id].slot) else was
    {
      reservations[id].Release();
      held := held - {id};
    }

    method TakeOver(id: Id) returns (won: bool)
      requires Owned() && ShowsHeld() && id in reservations
      modifies this`held, reservations[id]
      ensures Owned() && ShowsHeld() && held == old(held) - {id} && won == (id in old(held))
    {
      won := reservations[id].Claim();
      held := held - {id};
    }

    /** A handshake asks for a slot. */
    method Reserve(id: Id, slot: Slot) returns (e: Option<Error>)
      requires Follows() && id !in clients && slot.userId != ""
      modifies this, users`byUserN, users`byToken, users`byIp, users`total
      ensures Follows() && e == Refusal(old(s).counters, users.limits, old(s).closing, slot)
      ensures id !in old(s).tickets && s == Next(old(s), Event.Reserve(id, slot))
    {
      e := users.Reserve(slot);
      if e.Some? { return; }
      ReserveShown(s, id, slot, clients, held);
      Hold(id, slot);
      s := Next(s, Event.Reserve(id, slot));
    }

    /** The request ends, times out or is drained. */
    method Release(id: Id)
      requires Follows() && id in reservations
      modifies this`held, this`s, users`byUserN, users`byToken, users`byIp, users`total, reservations[id]
      ensures Follows() && id in old(s).tickets && Goes(old(s), s) && s == Released(old(s), id)
    {
      ReleaseShown(s, id, clients, held);
      LetGo(id);
      s := Released(s, id);
    }

    /** The upgrade takes the slot over, if nobody gave it back before. */
    method Claim(id: Id) returns (won: bool)
      requires Follows() && id in reservations
      modifies this`held, this`s, reservations[id]
      ensures Follows() && id in old(s).tickets && s == Next(old(s), Event.Claim(id))
      ensures won == (old(s).tickets[id].stage == Reserved)
    {
      ClaimShown(s, id, clients, held);
      won := TakeOver(id);
      s := Next(s, Event.Claim(id));
    }

    /** The claimed client joins the registry, or its slot goes back. */
    method Adopt(id: Id) returns (e: Option<Error>)
      requires Follows() && id in clients && s.tickets[id].stage == Claimed
      modifies this`s, users
      ensures Follows() && Allowed(old(s), Event.Adopt(id)) && s == Next(old(s), Event.Adopt(id))
      ensures e.None? <==> s.tickets[id].stage == Adopted
    {
      AdoptShown(s, id, clients, held);
      e := users.Adopt(id, clients[id].slot, clients[id].closed);
      s := Next(s, Event.Adopt(id));
    }

    /** Reserve and adopt in one call, for a connection without a reservation. */
    method Register(id: Id, slot: Slot, isClosed: bool) returns (e: Option<Error>)
      requires Follows() && id !in clients && slot.userId != ""
      modifies this, users
      ensures Follows() && Goes(old(s), s) && s == Registered(old(s), id, slot, isClosed)
      ensures e.None? <==> id in s.tickets
    {
      RegisterGoes(s, id, slot, isClosed);
      assert Clean(s.counters) by { ReachableGood(s); }
      e := users.Register(id, slot, isClosed);
      if e.None? {
        RegisterShown(s, id, slot, clients, held);
        clients := clients[id := Client(slot, false, false)];
        s := Registered(s, id, slot, isClosed);
      }
    }

    method CloseChannel(id: Id)
      requires Follows() && id in clients && s.tickets[id].stage in {Claimed, Adopted, Gone} && !clients[id].closed
      modifies this`s, this`clients
      ensures Follows() && Allowed(old(s), Event.CloseChannel(id)) && s == Next(old(s), Event.CloseChannel(id))
    {
      CloseShown(s, id, clients, held);
      clients := clients[id := clients[id].(closed := true)];
      s := Next(s, Event.CloseChannel(id));
    }

    /** The rest of the client's close. */
    method Unregister(id: Id)
      requires Follows() && id in clients && clients[id].closed && !clients[id].finished
      modifies this`s, this`clients, users
      ensures Follows() && Allowed(old(s), Event.Unregister(id)) && s == Next(old(s), Event.Unregister(id))
    {
      UnregisterShown(s, id, clients, held);
      users.Unregister(id, clients[id].slot);
      clients := clients[id := clients[id].(finished := true)];
      s := Next(s, Event.Unregister(id));
    }

    method Close() returns (listed: set<Id>)
      requires Follows()
      modifies this`s, users`closing
      ensures Follows() && s == Next(old(s), CloseNode)
      ensures forall id :: id in listed <==> id in s.tickets && s.tickets[id].stage == Adopted
    {
      StepGoes(s, CloseNode);
      listed := users.Close();
      forall id ensures id in listed <==> id in s.tickets && s.tickets[id].stage == Adopted { AdoptedAreListed(s, id); }
      s := Next(s, CloseNode);
    }
  }
}
