/** Text order and conversation ids (internal/service/conv/convid.go). */
module ConvIds {

  /** The strict lexicographic order Go uses for strings; seq `<` in Dafny is only the prefix order. */
  predicate LexLess(a: string, b: string) {
    if a == [] then b != []
    else if b == [] then false
    else a[0] < b[0] || (a[0] == b[0] && LexLess(a[1..], b[1..]))
  }

  lemma {:induction false} LexTotal(a: string, b: string)
    ensures LexLess(a, b) || a == b || LexLess(b, a)
  {
    if a != [] && b != [] && a[0] == b[0] {
      LexTotal(a[1..], b[1..]);
      assert a == [a[0]] + a[1..] && b == [b[0]] + b[1..];
    }
  }

  lemma {:induction false} LexAsymmetric(a: string, b: string)
    requires LexLess(a, b)
    ensures !LexLess(b, a) && a != b
  {
    if a != [] && a[0] == b[0] {
      LexAsymmetric(a[1..], b[1..]);
    }
  }

  lemma {:induction false} LexTransitive(a: string, b: string, c: string)
    requires LexLess(a, b) && LexLess(b, c)
    ensures LexLess(a, c)
  {
    if a != [] && a[0] == b[0] && b[0] == c[0] {
      LexTransitive(a[1..], b[1..], c[1..]);
    }
  }

  /** "si_<a>:<b>" with the smaller id first. */
  function Single(a: string, b: string): string {
    "si_" + (Sorted(a, b).0 + ":" + Sorted(a, b).1)
  }

  function Sorted(a: string, b: string): (string, string) {
    if LexLess(b, a) then (b, a) else (a, b)
  }

  /** Both orders of two users give one id, the smaller of them first. */
  lemma SingleIs(a: string, b: string)
    requires LexLess(a, b) || a == b
    ensures Single(a, b) == "si_" + a + ":" + b && Single(b, a) == Single(a, b)
  {
    if LexLess(a, b) { LexAsymmetric(a, b); }
    assert "si_" + (a + ":" + b) == "si_" + a + ":" + b;
  }

  lemma SortedForgetsOrder(a: string, b: string, c: string, d: string)
    ensures Sorted(a, b) == Sorted(c, d) <==> (a == c && b == d) || (a == d && b == c)
  {
    LexTotal(a, b);
    if LexLess(a, b) { LexAsymmetric(a, b); }
    if LexLess(b, a) { LexAsymmetric(b, a); }
  }

  /** "sg_<group id>". */
  function Group(groupId: string): string {
    "sg_" + groupId
  }

  lemma GroupInjective(g: string, h: string)
    requires Group(g) == Group(h)
    ensures g == h
  {
    assert Group(g)[3..] == g && Group(h)[3..] == h;
  }

  lemma SingleIsNotGroup(a: string, b: string, g: string)
    ensures Single(a, b) != Group(g)
  {
    assert Single(a, b)[1] == 'i' && Group(g)[1] == 'g';
  }
}
