/**
 Key expiry of the Redis presence driver: every Add and Renew gives the user's key two more ttls, after which Redis
 drops the whole sorted set. Times are whole seconds of clocks that agree, and ttl is positive.
 */
module RedisExpiry {
  import opened Common
  import opened RedisOnline

  /** deadline: when a user's key expires; clock: the latest time anyone has written at. */
  datatype Keys = Keys(z: Zsets, deadline: map<string, int>, clock: int)

  datatype Write =
    | AddRow(node: string, c: ConnRef, now: int)
    | RenewBatch(node: string, refs: seq<ConnRef>, now: int)
    | RemoveRow(node: string, c: ConnRef)
    | Expires(u: string, now: int)

  function Extended(deadline: map<string, int>, refs: seq<ConnRef>, at: int): map<string, int> {
    if refs == [] then deadline else Extended(deadline, refs[..|refs|-1], at)[refs[|refs|-1].userId := at]
  }

  predicate Allowed(k: Keys, w: Write) {
    match w
    case AddRow(_, _, now) => k.clock <= now
    case RenewBatch(_, _, now) => k.clock <= now
    case RemoveRow(_, _) => true
    case Expires(u, now) => k.clock <= now && u in k.deadline && k.deadline[u] <= now
  }

  function Next(k: Keys, w: Write, ttl: int): Keys {
    match w
    case AddRow(node, c, now) =>
      Keys(Put(k.z, c.userId, Member(node, c), now + ttl), k.deadline[c.userId := now + 2 * ttl], now)
    case RenewBatch(node, refs, now) =>
      Keys(RenewAll(k.z, node, refs, now + ttl, now).0, Extended(k.deadline, refs, now + 2 * ttl), now)
    case RemoveRow(node, c) => k.(z := Drop(k.z, c.userId, Member(node, c)))
    case Expires(u, now) => Keys(k.z - {u}, k.deadline - {u}, now)
  }

  /** A connection added or renewed at a moment is shown for a ttl from then on, and one removed is not. */
  lemma WrittenIsShown(k: Keys, node: string, c: ConnRef, now: int, ttl: int, t: int)
    ensures Shown(Next(k, AddRow(node, c, now), ttl).z, c.userId, Member(node, c), t) <==> t <= now + ttl
    ensures Shown(Next(k, RenewBatch(node, [c], now), ttl).z, c.userId, Member(node, c), t) <==> t <= now + ttl
    ensures !Shown(Next(k, RemoveRow(node, c), ttl).z, c.userId, Member(node, c), t)
  {
    assert [c][..0] == [];
  }

  function Init(): Keys { Keys(map[], map[], 0) }

  ghost function Run(k: Keys, ws: seq<Write>, ttl: int): Option<Keys>
    decreases |ws|
  {
    if ws == [] then Some(k) else if Allowed(k, ws[0]) then Run(Next(k, ws[0], ttl), ws[1..], ttl) else None
  }

  // ---------------------------------------------------------------- scores and deadlines

  /** The score lies at most a ttl ahead, and the key outlives it by a ttl. */
  ghost predicate TimelyRow(k: Keys, u: string, m: string, ttl: int) {
    m in Zset(k.z, u) ==> Zset(k.z, u)[m] <= k.clock + ttl && u in k.deadline && Zset(k.z, u)[m] + ttl <= k.deadline[u]
  }

  ghost predicate Timely(k: Keys, ttl: int) { forall u, m :: TimelyRow(k, u, m, ttl) }

  /** One command of a renewal. */
  function Renewed(k: Keys, node: string, c: ConnRef, now: int, ttl: int): Keys {
    var z := Put(Trim(k.z, c.userId, now), c.userId, Member(node, c), now + ttl);
    Keys(z, k.deadline[c.userId := now + 2 * ttl], now)
  }

  lemma PutTimely(k: Keys, node: string, c: ConnRef, now: int, ttl: int)
    requires Timely(k, ttl) && k.clock <= now && ttl > 0
    ensures Timely(Next(k, AddRow(node, c, now), ttl), ttl) && Timely(Renewed(k, node, c, now, ttl), ttl)
  {
    var a, b := Next(k, AddRow(node, c, now), ttl), Renewed(k, node, c, now, ttl);
    forall u, m ensures TimelyRow(a, u, m, ttl) && TimelyRow(b, u, m, ttl) { assert TimelyRow(k, u, m, ttl); }
  }

  lemma {:induction false} RenewTimely(k: Keys, node: string, refs: seq<ConnRef>, now: int, ttl: int)
    requires Timely(k, ttl) && k.clock <= now && ttl > 0
    ensures Timely(Next(k, RenewBatch(node, refs, now), ttl), ttl)
  {
    if refs == [] {
      forall u, m ensures TimelyRow(k.(clock := now), u, m, ttl) { assert TimelyRow(k, u, m, ttl); }
    } else {
      var front := Next(k, RenewBatch(node, refs[..|refs|-1], now), ttl);
      RenewTimely(k, node, refs[..|refs|-1], now, ttl);
      PutTimely(front, node, refs[|refs|-1], now, ttl);
      RenewsOneMore(k, node, refs, now, ttl);
    }
  }

  lemma RenewsOneMore(k: Keys, node: string, refs: seq<ConnRef>, now: int, ttl: int)
    requires refs != []
    ensures Next(k, RenewBatch(node, refs, now), ttl)
            == Renewed(Next(k, RenewBatch(node, refs[..|refs|-1], now), ttl), node, refs[|refs|-1], now, ttl)
  {}

  lemma StepTimely(k: Keys, w: Write, ttl: int)
    requires Timely(k, ttl) && Allowed(k, w) && ttl > 0
    ensures Timely(Next(k, w, ttl), ttl)
  {
    match w
    case AddRow(node, c, now) => PutTimely(k, node, c, now, ttl);
    case RenewBatch(node, refs, now) => RenewTimely(k, node, refs, now, ttl);
    case _ => forall u, m ensures TimelyRow(Next(k, w, ttl), u, m, ttl) { assert TimelyRow(k, u, m, ttl); }
  }

  // ---------------------------------------------------------------- what readers can tell

  ghost predicate AlikeRow(y: Zsets, z: Zsets, u: string, m: string, now: int) {
    (Shown(y, u, m, now) <==> Shown(z, u, m, now)) && (Shown(y, u, m, now) ==> Zset(y, u)[m] == Zset(z, u)[m])
  }

  /** From now on the two show the same rows for the same time. */
  ghost predicate Alike(y: Zsets, z: Zsets, now: int) { forall u, m :: AlikeRow(y, z, u, m, now) }

  lemma AlikeLater(y: Zsets, z: Zsets, now: int, later: int)
    requires Alike(y, z, now) && now <= later
    ensures Alike(y, z, later)
  {
    forall u, m ensures AlikeRow(y, z, u, m, later) { assert AlikeRow(y, z, u, m, now); }
  }

  lemma RenewAlike(y: Zsets, z: Zsets, node: string, refs: seq<ConnRef>, score: int, now: int)
    requires Alike(y, z, now) && score >= now
    ensures Alike(RenewAll(y, node, refs, score, now).0, RenewAll(z, node, refs, score, now).0, now)
  {
    var y', z' := RenewAll(y, node, refs, score, now).0, RenewAll(z, node, refs, score, now).0;
    forall u, m ensures AlikeRow(y', z', u, m, now) {
      RenewShows(y, node, refs, score, now, u, m);
      RenewShows(z, node, refs, score, now, u, m);
      assert AlikeRow(y, z, u, m, now);
    }
  }

  lemma PutAlike(y: Zsets, z: Zsets, u: string, m: string, score: int, now: int)
    requires Alike(y, z, now)
    ensures Alike(Put(y, u, m, score), Put(z, u, m, score), now) && Alike(Drop(y, u, m), Drop(z, u, m), now)
  {
    forall v, n
      ensures AlikeRow(Put(y, u, m, score), Put(z, u, m, score), v, n, now)
      ensures AlikeRow(Drop(y, u, m), Drop(z, u, m), v, n, now)
    {
      assert AlikeRow(y, z, v, n, now);
    }
  }

  /** A key expires only when none of its rows shows any more. */
  lemma ExpiredShowsNothing(k: Keys, u: string, now: int, ttl: int)
    requires Timely(k, ttl) && ttl > 0 && u in k.deadline && k.deadline[u] <= now
    ensures Alike(k.z - {u}, k.z, now)
  {
    forall v, m ensures AlikeRow(k.z - {u}, k.z, v, m, now) { assert TimelyRow(k, v, m, ttl); }
  }

  // ---------------------------------------------------------------- every history

  function WithoutExpiry(ws: seq<Write>): seq<Write> {
    if ws == [] then [] else (if ws[0].Expires? then [] else [ws[0]]) + WithoutExpiry(ws[1..])
  }

  lemma AlikeStep(k: Keys, l: Keys, w: Write, ttl: int)
    requires ttl > 0 && Allowed(k, w) && !w.Expires? && Alike(k.z, l.z, k.clock)
    ensures Alike(Next(k, w, ttl).z, Next(l, w, ttl).z, Next(k, w, ttl).clock)
  {
    match w
    case AddRow(node, c, now) =>
      AlikeLater(k.z, l.z, k.clock, now);
      PutAlike(k.z, l.z, c.userId, Member(node, c), now + ttl, now);
    case RenewBatch(node, refs, now) =>
      AlikeLater(k.z, l.z, k.clock, now);
      RenewAlike(k.z, l.z, node, refs, now + ttl, now);
    case RemoveRow(node, c) => PutAlike(k.z, l.z, c.userId, Member(node, c), 0, k.clock);
  }

  lemma AlikeTransitive(x: Zsets, y: Zsets, z: Zsets, now: int)
    requires Alike(x, y, now) && Alike(y, z, now)
    ensures Alike(x, z, now)
  {
    forall u, m ensures AlikeRow(x, z, u, m, now) { assert AlikeRow(x, y, u, m, now) && AlikeRow(y, z, u, m, now); }
  }

  lemma {:induction false} RunAlike(k: Keys, l: Keys, ws: seq<Write>, ttl: int)
    requires ttl > 0 && Timely(k, ttl) && l.clock <= k.clock && Alike(k.z, l.z, k.clock) && Run(k, ws, ttl).Some?
    ensures Run(l, WithoutExpiry(ws), ttl).Some?
    ensures Alike(Run(k, ws, ttl).value.z, Run(l, WithoutExpiry(ws), ttl).value.z, Run(k, ws, ttl).value.clock)
    decreases |ws|
  {
    if ws != [] {
      var k' := Next(k, ws[0], ttl);
      StepTimely(k, ws[0], ttl);
      if ws[0].Expires? {
        ExpiredShowsNothing(k, ws[0].u, ws[0].now, ttl);
        AlikeLater(k.z, l.z, k.clock, ws[0].now);
        AlikeTransitive(k'.z, k.z, l.z, ws[0].now);
        assert WithoutExpiry(ws) == WithoutExpiry(ws[1..]);
        RunAlike(k', l, ws[1..], ttl);
      } else {
        AlikeStep(k, l, ws[0], ttl);
        assert WithoutExpiry(ws)[1..] == WithoutExpiry(ws[1..]);
        RunAlike(k', Next(l, ws[0], ttl), ws[1..], ttl);
      }
    }
  }

  /**
   Whatever the history of writes, no reader can tell whether keys ever expire: Online shows the same rows without it.
   */
  lemma ExpiryIsInvisible(ws: seq<Write>, ttl: int, u: string, m: string, now: int)
    requires ttl > 0 && Run(Init(), ws, ttl).Some? && Run(Init(), ws, ttl).value.clock <= now
    ensures Run(Init(), WithoutExpiry(ws), ttl).Some?
    ensures Shown(Run(Init(), ws, ttl).value.z, u, m, now) <==>
            Shown(Run(Init(), WithoutExpiry(ws), ttl).value.z, u, m, now)
  {
    RunAlike(Init(), Init(), ws, ttl);
    var y, z := Run(Init(), ws, ttl).value.z, Run(Init(), WithoutExpiry(ws), ttl).value.z;
    AlikeLater(y, z, Run(Init(), ws, ttl).value.clock, now);
    assert AlikeRow(y, z, u, m, now);
  }
}
