/**
 usermap.go and upgrade.go as they run: counter maps and client lists changed in place, one reservation per handshake.
 */
module UserMaps {
  import opened Common
  import opened SlotModel

  lemma {:induction false} WithoutAt(ids: seq<Id>, x: Id, i: nat)
    requires i < |ids| && ids[i] == x && x !in ids[..i]
    ensures Without(ids, x) == ids[..i] + ids[i + 1..]
  {
    if i > 0 {
      assert x !in ids[1..][..i - 1];
      WithoutAt(ids[1..], x, i - 1);
    }
  }

  class UserMap {
    const limits: Limits
    var byUser: map<string, seq<Id>>
    var byUserN: map<string, int>
    var byToken: map<string, int>
    var byIp: map<string, int>
    var total: int
    var closing: bool

    ghost function Tallied(): Counters
      reads this`byUserN, this`byToken, this`byIp, this`total
    {
      Counters(byUserN, byToken, byIp, total)
    }

    constructor (limits: Limits)
      ensures this.limits == limits && Tallied() == Counters(map[], map[], map[], 0) && byUser == map[] && !closing
    {
      this.limits, byUser, byUserN, byToken, byIp, total, closing := limits, map[], map[], map[], map[], 0, false;
    }

    /** reserve: counts the slot everywhere, or says why not and counts nothing. */
    method Reserve(s: Slot) returns (e: Option<Error>)
      modifies this`byUserN, this`byToken, this`byIp, this`total
      ensures e == Refusal(old(Tallied()), limits, closing, s)
      ensures Tallied() == if e.Some? then old(Tallied()) else Taken(old(Tallied()), s)
    {
      if closing { return Some(NodeDraining); }
      if Over(total, limits.total) { return Some(ConnOverLimit); }
      if Over(Count(byUserN, s.userId), limits.perUser) { return Some(ConnOverLimit); }
      if s.tokenId != "" && Over(Count(byToken, s.tokenId), limits.perToken) { return Some(ConnOverLimit); }
      if s.ip != "" && Over(Count(byIp, s.ip), limits.perIp) { return Some(ConnOverLimit); }
      byUserN := byUserN[s.userId := Count(byUserN, s.userId) + 1];
      byToken := Incr(byToken, s.tokenId);
      byIp := Incr(byIp, s.ip);
      total := total + 1;
      e := None;
    }

    method Release(s: Slot)
      modifies this`byUserN, this`byToken, this`byIp, this`total
      ensures Tallied() == Returned(old(Tallied()), s)
    {
      byUserN := Decr(byUserN, s.userId);
      byToken := Decr(byToken, s.tokenId);
      byIp := Decr(byIp, s.ip);
      total := total - 1;
    }

    /** Adopt binds a client to its reserved slot; a closed client or a draining node gives the slot back instead. */
    method Adopt(id: Id, s: Slot, closed: bool) returns (e: Option<Error>)
      modifies this
      ensures closing == old(closing)
      ensures e == if closed then Some(ConnClosed) else if closing then Some(NodeDraining) else None
      ensures Tallied() == if e.Some? then Returned(old(Tallied()), s) else old(Tallied())
      ensures byUser == if e.Some? then old(byUser) else old(byUser)[s.userId := Clients(old(byUser), s.userId) + [id]]
    {
      e := None;
      if closed { e := Some(ConnClosed); } else if closing { e := Some(NodeDraining); }
      if e.Some? {
        Release(s);
        return;
      }
      byUser := byUser[s.userId := Clients(byUser, s.userId) + [id]];
    }

    /** Register reserves and adopts in one step; a failed adopt returns the slot (ReleaseUndoesReserve). */
    method Register(id: Id, s: Slot, closed: bool) returns (e: Option<Error>)
      modifies this
      ensures closing == old(closing) && var refused := Refusal(old(Tallied()), limits, closing, s);
              e == if refused.Some? then refused else if closed then Some(ConnClosed) else None
      ensures e.Some? ==>
              && byUser == old(byUser)
              && (Tallied() == old(Tallied()) || Tallied() == Returned(Taken(old(Tallied()), s), s))
      ensures Clean(old(Tallied())) && s.userId != "" && e.Some? ==> Tallied() == old(Tallied())
      ensures e.None? ==>
              && Tallied() == Taken(old(Tallied()), s)
              && byUser == old(byUser)[s.userId := Clients(old(byUser), s.userId) + [id]]
    {
      if Clean(Tallied()) { ReturnedAfterTaken(Tallied(), s); }
      e := Reserve(s);
      if e.Some? { return; }
      e := Adopt(id, s, closed);
    }

    /** Unregister removes a registered client and its slot; anyone else it leaves alone. */
    method Unregister(id: Id, s: Slot)
      modifies this
      ensures var known := id in Clients(old(byUser), s.userId);
              && byUser == (if known then Unlisted(old(byUser), s.userId, id) else old(byUser))
              && Tallied() == (if known then Returned(old(Tallied()), s) else old(Tallied())) && closing == old(closing)
    {
      var conns := Clients(byUser, s.userId);
      var i := 0;
      while i < |conns| && conns[i] != id
        invariant 0 <= i <= |conns| && id !in conns[..i]
      {
        i := i + 1;
      }
      if i == |conns| { return; }
      WithoutAt(conns, id, i);
      conns := conns[..i] + conns[i + 1..];
      byUser := if conns == [] then byUser - {s.userId} else byUser[s.userId := conns];
      Release(s);
    }

    /** Close refuses further registrations and returns everyone registered. */
    method Close() returns (clients: set<Id>)
      modifies this`closing
      ensures closing && forall id :: id in clients <==> exists u :: id in Clients(byUser, u)
    {
      closing := true;
      clients := set u, id | u in byUser && id in byUser[u] :: id;
      forall id | id in clients ensures exists u :: id in Clients(byUser, u) {
        var u :| u in byUser && id in byUser[u];
        assert id in Clients(byUser, u);
      }
    }
  }

  /** upgradeReservation: one compare-and-swap decides who owns the slot. */
  class Reservation {
    const users: UserMap
    const slot: Slot
    var settled: bool
    /** Which admission this is. */
    ghost const id: Id

    constructor (users: UserMap, slot: Slot, ghost id: Id)
      ensures this.users == users && this.slot == slot && !settled && this.id == id
    {
      this.users, this.slot, settled, this.id := users, slot, false, id;
    }

    method Claim() returns (won: bool)
      modifies this`settled
      ensures settled && won == !old(settled)
    {
      won := !settled;
      settled := true;
    }

    /** Gives the slot back unless someone settled before. */
    method Release()
      modifies this`settled, users`byUserN, users`byToken, users`byIp, users`total
      ensures settled
      ensures users.Tallied() == if old(settled) then old(users.Tallied()) else Returned(old(users.Tallied()), slot)
    {
      var won := Claim();
      if won { users.Release(slot); }
    }
  }
}
