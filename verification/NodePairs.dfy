/** The load driver's placement of users on nodes (nodeFor in deploy/load/main.go). */
module NodePairs {

  /** Go's / and % agree with Dafny's on the non-negative user numbers used here. */
  function NodeFor(user: nat, nodes: nat): nat
    requires nodes >= 2
  {
    var pair := user / 2;
    var left := pair % nodes;
    if user % 2 == 0 then left else (left + 1 + pair / nodes % (nodes - 1)) % nodes
  }

  /** The nodes of the two users of pair p. */
  function Placement(p: nat, n: nat): (nat, nat)
    requires n >= 2
  {
    (NodeFor(2 * p, n), NodeFor(2 * p + 1, n))
  }

  lemma DivMod(p: nat, n: nat)
    requires n > 0
    ensures p == p / n * n + p % n
  {}

  lemma Small(x: nat, m: nat)
    requires x < m
    ensures x % m == x
  {}

  lemma Bound(q: nat, r: nat, n: nat)
    requires n >= 2 && q * n + r < n * (n - 1)
    ensures q < n - 1
  {}

  lemma Split(p: nat, n: nat)
    requires n >= 2 && p < n * (n - 1)
    ensures 0 <= p / n < n - 1 && p / n % (n - 1) == p / n
  {
    DivMod(p, n);
    Bound(p / n, p % n, n);
    Small(p / n, n - 1);
  }

  lemma Monotone(a: nat, b: nat, n: nat)
    requires a <= b
    ensures a * n <= b * n
  {}

  /** Pair p sits on p % n and the node 1 + p / n further round. */
  lemma PlacementIs(p: nat, n: nat)
    requires n >= 2 && p < n * (n - 1)
    ensures Placement(p, n) == (p % n, (p % n + 1 + p / n) % n) && 0 <= p / n < n - 1
  {
    Split(p, n);
    Halves(p);
  }

  lemma Halves(p: nat)
    ensures (2 * p + 1) / 2 == p && 2 * p / 2 == p
  {}

  lemma Wrap(a: nat, d: nat, n: nat)
    requires a < n && d < n
    ensures (a + d) % n == if a + d < n then a + d else a + d - n
  {}

  lemma {:induction false} Remainder(q: nat, r: nat, n: nat)
    requires r < n
    ensures (q * n + r) % n == r && (q * n + r) / n == q
  {
    var x := q * n + r;
    var q', r' := x / n, x % n;
    assert x == q' * n + r';
    if q' > q {
      Monotone(q + 1, q', n);
    } else if q' < q {
      Monotone(q' + 1, q, n);
    }
  }

  /** Every pair is on two different nodes. */
  lemma PairsCrossNodes(p: nat, n: nat)
    requires n >= 2 && p < n * (n - 1)
    ensures var (a, b) := Placement(p, n); a < n && b < n && a != b
  {
    PlacementIs(p, n);
    Wrap(p % n, 1 + p / n, n);
  }

  lemma SameOffset(a: nat, d: nat, e: nat, n: nat)
    requires a < n && 1 + d < n && 1 + e < n && (a + 1 + d) % n == (a + 1 + e) % n
    ensures d == e
  {}

  /** Different pairs are on different ordered pairs of nodes. */
  lemma PlacementIsInjective(p: nat, q: nat, n: nat)
    requires n >= 2 && p < n * (n - 1) && q < n * (n - 1) && Placement(p, n) == Placement(q, n)
    ensures p == q
  {
    PlacementIs(p, n);
    PlacementIs(q, n);
    assert p / n == q / n by { SameOffset(p % n, p / n, q / n, n); }
    Rebuilt(p, q, n);
  }

  lemma Rebuilt(p: nat, q: nat, n: nat)
    requires n > 0 && p / n == q / n && p % n == q % n
    ensures p == q
  {}

  /** Every ordered pair of distinct nodes is used. */
  lemma PlacementIsSurjective(a: nat, b: nat, n: nat) returns (p: nat)
    requires n >= 2 && a < n && b < n && a != b
    ensures p < n * (n - 1) && Placement(p, n) == (a, b)
  {
    var d := if b > a then b - a - 1 else b + n - a - 1;
    p := d * n + a;
    Remainder(d, a, n);
    Monotone(d + 1, n - 1, n);
    PlacementIs(p, n);
    Wrap(a, 1 + d, n);
  }
}
