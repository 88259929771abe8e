/**
 The Redis presence driver (internal/onlinestore/redis/redis.go): one sorted set per user, a member per connection,
 scored with the second it expires. Times are whole seconds; score is the caller's now + ttl, never before now.
 */
module RedisOnline {
  import opened Common
  import opened Decimal

  datatype ConnRef = ConnRef(userId: string, platformId: int, connId: string)

  /** user to member to score. */
  type Zsets = map<string, map<string, int>>

  function Member(node: string, c: ConnRef): string { FormatInt(c.platformId) + ":" + node + ":" + c.connId }

  function Zset(z: Zsets, u: string): map<string, int> { if u in z then z[u] else map[] }

  /** Online shows the member at time now. */
  predicate Shown(z: Zsets, u: string, m: string, now: int) { m in Zset(z, u) && Zset(z, u)[m] >= now }

  /** ZREMRANGEBYSCORE -inf (now. */
  function Trim(z: Zsets, u: string, now: int): Zsets {
    z[u := map m | m in Zset(z, u) && Zset(z, u)[m] >= now :: Zset(z, u)[m]]
  }

  function Put(z: Zsets, u: string, m: string, score: int): Zsets { z[u := Zset(z, u)[m := score]] }

  function Drop(z: Zsets, u: string, m: string): Zsets { z[u := Zset(z, u) - {m}] }

  /** Every row but the one of u and m is shown when it was before. */
  ghost predicate OthersKept(z: Zsets, z': Zsets, u: string, m: string) {
    forall v, n, now :: !(v == u && n == m) ==> (Shown(z', v, n, now) <==> Shown(z, v, n, now))
  }

  /** Renew's pipeline: trim, then add; the replies say which members ZADD created. */
  function RenewAll(z: Zsets, node: string, refs: seq<ConnRef>, score: int, now: int): (Zsets, seq<bool>) {
    if refs == [] then (z, [])
    else
      var (z', created) := RenewAll(z, node, refs[..|refs|-1], score, now);
      var c := refs[|refs|-1];
      var t := Trim(z', c.userId, now);
      (Put(t, c.userId, Member(node, c), score), created + [Member(node, c) !in Zset(t, c.userId)])
  }

  predicate SameRow(node: string, a: ConnRef, b: ConnRef) { a.userId == b.userId && Member(node, a) == Member(node, b) }

  /** Some ref of the batch writes this row. */
  predicate Touches(node: string, refs: seq<ConnRef>, u: string, m: string) {
    exists i :: 0 <= i < |refs| && refs[i].userId == u && Member(node, refs[i]) == m
  }

  lemma TouchesLast(node: string, refs: seq<ConnRef>, c: ConnRef, u: string, m: string)
    ensures Touches(node, refs + [c], u, m) <==> Touches(node, refs, u, m) || (c.userId == u && Member(node, c) == m)
  {
    if Touches(node, refs, u, m) {
      var i :| 0 <= i < |refs| && refs[i].userId == u && Member(node, refs[i]) == m;
      assert (refs + [c])[i] == refs[i];
    }
    if c.userId == u && Member(node, c) == m { assert (refs + [c])[|refs|] == c; }
  }

  /** What Online shows after a renewal: the rows it wrote, and every other row it showed before. */
  lemma {:induction false} RenewShows(
    z: Zsets, node: string, refs: seq<ConnRef>, score: int, now: int, u: string, m: string)
    requires score >= now
    ensures var z' := RenewAll(z, node, refs, score, now).0;
            && (Shown(z', u, m, now) <==> Touches(node, refs, u, m) || Shown(z, u, m, now))
            && (Shown(z', u, m, now) && !Touches(node, refs, u, m) ==> Zset(z', u)[m] == Zset(z, u)[m])
            && (Touches(node, refs, u, m) ==> Zset(z', u)[m] == score)
  {
    if refs != [] {
      var front, c := refs[..|refs|-1], refs[|refs|-1];
      assert refs == front + [c];
      RenewShows(z, node, front, score, now, u, m);
      TouchesLast(node, front, c, u, m);
    }
  }

  lemma {:induction false} RepliesLength(z: Zsets, node: string, refs: seq<ConnRef>, score: int, now: int)
    ensures |RenewAll(z, node, refs, score, now).1| == |refs|
  {
    if refs != [] { RepliesLength(z, node, refs[..|refs|-1], score, now); }
  }

  /** The refs whose reply was non-zero. */
  function Picked(refs: seq<ConnRef>, created: seq<bool>): seq<ConnRef>
    requires |created| == |refs|
  {
    if refs == [] then []
    else Picked(refs[..|refs|-1], created[..|refs|-1]) + if created[|refs|-1] then [refs[|refs|-1]] else []
  }

  function Revived(z: Zsets, node: string, refs: seq<ConnRef>, score: int, now: int): seq<ConnRef> {
    if refs == [] then []
    else
      var z' := RenewAll(z, node, refs[..|refs|-1], score, now).0;
      var c := refs[|refs|-1];
      Revived(z, node, refs[..|refs|-1], score, now)
      + if Member(node, c) !in Zset(Trim(z', c.userId, now), c.userId) then [c] else []
  }

  lemma {:induction false} PickedAreRevived(z: Zsets, node: string, refs: seq<ConnRef>, score: int, now: int)
    ensures |RenewAll(z, node, refs, score, now).1| == |refs|
    ensures Picked(refs, RenewAll(z, node, refs, score, now).1) == Revived(z, node, refs, score, now)
  {
    RepliesLength(z, node, refs, score, now);
    if refs != [] {
      var front := refs[..|refs|-1];
      RepliesLength(z, node, front, score, now);
      PickedAreRevived(z, node, front, score, now);
      assert RenewAll(z, node, refs, score, now).1[..|front|] == RenewAll(z, node, front, score, now).1;
    }
  }

  /**
   A renewal reports a row as revived exactly when the batch names it and Online would not have shown it just before,
   with any number of connections of one user and of repetitions in the batch.
   */
  lemma {:induction false} RevivedIsExact(
    z: Zsets, node: string, refs: seq<ConnRef>, score: int, now: int, u: string, m: string)
    requires score >= now
    ensures Touches(node, Revived(z, node, refs, score, now), u, m) <==>
            Touches(node, refs, u, m) && !Shown(z, u, m, now)
  {
    if refs != [] {
      var front, c := refs[..|refs|-1], refs[|refs|-1];
      assert refs == front + [c];
      RevivedIsExact(z, node, front, score, now, u, m);
      TouchesLast(node, front, c, u, m);
      TouchesLast(node, Revived(z, node, front, score, now), c, u, m);
      RenewShows(z, node, front, score, now, c.userId, Member(node, c));
      var r := Revived(z, node, front, score, now);
      assert r + [] == r;
    }
  }

  /** No row is reported twice. */
  lemma {:induction false} RevivedOnce(z: Zsets, node: string, refs: seq<ConnRef>, score: int, now: int, i: nat, j: nat)
    requires score >= now && i < j < |Revived(z, node, refs, score, now)|
    ensures var r := Revived(z, node, refs, score, now); !SameRow(node, r[i], r[j])
  {
    var front, c := refs[..|refs|-1], refs[|refs|-1];
    var r := Revived(z, node, front, score, now);
    if j < |r| {
      RevivedOnce(z, node, front, score, now, i, j);
    } else {
      RenewShows(z, node, front, score, now, c.userId, Member(node, c));
      RevivedIsExact(z, node, front, score, now, c.userId, Member(node, c));
      assert SameRow(node, r[i], c) ==> Touches(node, r, c.userId, Member(node, c));
    }
  }

  // ---------------------------------------------------------------- members

  /** The part of the member before its first colon. */
  function BeforeColon(s: string): string { if s == [] || s[0] == ':' then [] else [s[0]] + BeforeColon(s[1..]) }

  lemma {:induction false} CutsAtColon(a: string, b: string)
    requires ':' !in a
    ensures BeforeColon(a + ":" + b) == a
  {
    if a == [] {
      assert a + ":" + b == ":" + b;
    } else {
      assert (a + ":" + b)[1..] == a[1..] + ":" + b;
      CutsAtColon(a[1..], b);
    }
  }

  function PlatformOf(m: string): Option<int> { ParseInt(BeforeColon(m)) }

  /** Online reads back the platform Add wrote. */
  lemma PlatformSurvives(node: string, c: ConnRef)
    requires MIN_INT64 <= c.platformId <= MAX_INT64
    ensures PlatformOf(Member(node, c)) == Some(c.platformId)
  {
    var p := FormatInt(c.platformId);
    FormatIntChars(c.platformId);
    assert Member(node, c) == p + ":" + (node + ":" + c.connId);
    CutsAtColon(p, node + ":" + c.connId);
    FormatIntParses(c.platformId);
  }

  /** On one node no two connections share a member, whatever characters their ids hold. */
  lemma MembersDiffer(node: string, a: ConnRef, b: ConnRef)
    requires MIN_INT64 <= a.platformId <= MAX_INT64 && MIN_INT64 <= b.platformId <= MAX_INT64
    requires Member(node, a) == Member(node, b)
    ensures a.platformId == b.platformId && a.connId == b.connId
  {
    PlatformSurvives(node, a);
    PlatformSurvives(node, b);
    var p := FormatInt(a.platformId) + ":" + node + ":";
    assert Member(node, a) == p + a.connId && Member(node, b) == p + b.connId;
    assert a.connId == (p + a.connId)[|p|..] && b.connId == (p + b.connId)[|p|..];
  }

  // ---------------------------------------------------------------- the driver

  /** Online lists platform p for u. */
  ghost predicate OnPlatform(z: Zsets, u: string, p: int, now: int) {
    exists m :: Shown(z, u, m, now) && PlatformOf(m) == Some(p)
  }

  function Platforms(out: map<string, seq<int>>, u: string): seq<int> { if u in out then out[u] else [] }

  ghost predicate Tidy(out: map<string, seq<int>>, ids: seq<string>) {
    forall u :: u in out ==> u in ids && out[u] != [] && NoRepeat(out[u])
  }

  /** out lists, for every user asked about, exactly the platforms with an unexpired row. */
  ghost predicate Answers(out: map<string, seq<int>>, ids: seq<string>, z: Zsets, now: int) {
    forall u, p :: p in Platforms(out, u) <==> u in ids && OnPlatform(z, u, p, now)
  }

  lemma MoreAnswers(out: map<string, seq<int>>, ids: seq<string>, z: Zsets, now: int, u: string, mine: seq<int>)
    requires Tidy(out, ids) && Answers(out, ids, z, now) && NoRepeat(mine)
    requires forall p :: p in mine <==> p in Platforms(out, u) || OnPlatform(z, u, p, now)
    ensures var out' := if mine != [] then out[u := mine] else out;
            Tidy(out', ids + [u]) && Answers(out', ids + [u], z, now)
  {}

  class Store {
    var zsets: Zsets

    constructor ()
      ensures zsets == map[]
    {
      zsets := map[];
    }

    method Add(node: string, c: ConnRef, score: int)
      modifies this
      ensures zsets == Put(old(zsets), c.userId, Member(node, c), score)
      ensures forall now :: Shown(zsets, c.userId, Member(node, c), now) <==> now <= score
      ensures OthersKept(old(zsets), zsets, c.userId, Member(node, c))
    {
      zsets := Put(zsets, c.userId, Member(node, c), score);
    }

    method Remove(node: string, c: ConnRef)
      modifies this
      ensures zsets == Drop(old(zsets), c.userId, Member(node, c))
      ensures forall now :: !Shown(zsets, c.userId, Member(node, c), now)
      ensures OthersKept(old(zsets), zsets, c.userId, Member(node, c))
    {
      zsets := Drop(zsets, c.userId, Member(node, c));
    }

    /** Renew, and the refs it reports as revived. */
    method Renew(node: string, refs: seq<ConnRef>, score: int, now: int) returns (revived: seq<ConnRef>)
      modifies this
      ensures zsets == RenewAll(old(zsets), node, refs, score, now).0
      ensures revived == Revived(old(zsets), node, refs, score, now)
    {
      var created := Pipeline(node, refs, score, now);
      PickedAreRevived(old(zsets), node, refs, score, now);
      revived := [];
      for i := 0 to |refs|
        invariant revived == Picked(refs[..i], created[..i])
      {
        assert refs[..i + 1][..i] == refs[..i] && created[..i + 1][..i] == created[..i];
        if created[i] { revived := revived + [refs[i]]; }
      }
      assert refs[..|refs|] == refs && created[..|refs|] == created;
    }

    method Pipeline(node: string, refs: seq<ConnRef>, score: int, now: int) returns (created: seq<bool>)
      modifies this
      ensures (zsets, created) == RenewAll(old(zsets), node, refs, score, now) && |created| == |refs|
    {
      created := [];
      for i := 0 to |refs|
        invariant (zsets, created) == RenewAll(old(zsets), node, refs[..i], score, now) && |created| == i
      {
        assert refs[..i + 1][..i] == refs[..i];
        var c := refs[i];
        zsets := Trim(zsets, c.userId, now);
        created := created + [Member(node, c) !in Zset(zsets, c.userId)];
        zsets := Put(zsets, c.userId, Member(node, c), score);
      }
      assert refs[..|refs|] == refs;
    }

    /** The platforms of a user's unexpired rows, added to those already listed. */
    method PlatformsOf(u: string, now: int, already: seq<int>) returns (mine: seq<int>)
      requires NoRepeat(already)
      ensures NoRepeat(mine) && forall p :: p in mine <==> p in already || OnPlatform(zsets, u, p, now)
    {
      var all := set m | m in Zset(zsets, u) && Zset(zsets, u)[m] >= now;
      var rest := all;
      mine := already;
      while rest != {}
        invariant rest <= all && NoRepeat(mine)
        invariant forall p :: p in mine <==>
          p in already || exists m :: m in all && m !in rest && PlatformOf(m) == Some(p)
      {
        var m :| m in rest;
        rest := rest - {m};
        var p := PlatformOf(m);
        if p.Some? && p.value !in mine { mine := mine + [p.value]; }
      }
      forall p
        ensures OnPlatform(zsets, u, p, now) <==> exists m :: m in all && m !in rest && PlatformOf(m) == Some(p)
      {
        if OnPlatform(zsets, u, p, now) {
          var m :| Shown(zsets, u, m, now) && PlatformOf(m) == Some(p);
          assert m in all && m !in rest;
        }
      }
    }

    /** Online: each listed user's platforms with a row that has not expired, without repetition. */
    method Online(ids: seq<string>, now: int) returns (out: map<string, seq<int>>)
      ensures Tidy(out, ids) && Answers(out, ids, zsets, now)
    {
      out := map[];
      for i := 0 to |ids|
        invariant Tidy(out, ids[..i]) && Answers(out, ids[..i], zsets, now)
      {
        var mine := PlatformsOf(ids[i], now, Platforms(out, ids[i]));
        MoreAnswers(out, ids[..i], zsets, now, ids[i], mine);
        assert ids[..i] + [ids[i]] == ids[..i + 1];
        if mine != [] { out := out[ids[i] := mine]; }
      }
      assert ids[..|ids|] == ids;
    }
  }
}
