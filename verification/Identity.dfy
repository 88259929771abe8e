/** User ids (internal/identity/identity.go) and what makes conversation ids canonical. */
module Identity {
  import opened Common
  import opened Decimal
  import opened ConvIds

  const PREFIX_LENGTH := 4
  const PREFIX_USER: string := "u___"
  const PREFIX_AGENT: string := "ag__"
  const PREFIX_NATIVE: string := "nx__"

  datatype Role = User | Agent | Unknown(name: string)
  datatype Actor = Actor(id: int, role: Role)

  function UserId(a: Actor): Option<string> {
    match a.role
    case User => Some(PREFIX_USER + FormatInt(a.id))
    case Agent => Some(PREFIX_AGENT + FormatInt(a.id))
    case Unknown(_) => None
  }

  function RoleOf(prefix: string): Option<Role> {
    if prefix == PREFIX_USER then Some(User) else if prefix == PREFIX_AGENT then Some(Agent) else None
  }

  function ParseActor(userId: string): Option<Actor> {
    if |userId| <= PREFIX_LENGTH then None
    else
      var role := RoleOf(userId[..PREFIX_LENGTH]);
      var digits := userId[PREFIX_LENGTH..];
      var id := ParseInt(digits);
      if role.None? || id.None? || id.value <= 0 || FormatInt(id.value) != digits then None
      else Some(Actor(id.value, role.value))
  }

  predicate IsLowerHex(c: char) { '0' <= c <= '9' || 'a' <= c <= 'f' }

  /** The canonical UUID text of section 4 of RFC 9562: the strings uuid.Parse accepts and String gives back. */
  predicate IsCanonicalUuid(s: string) {
    |s| == 36 && forall i :: 0 <= i < 36 ==> if i in {8, 13, 18, 23} then s[i] == '-' else IsLowerHex(s[i])
  }

  predicate Valid(userId: string) {
    && |userId| > PREFIX_LENGTH && ':' !in userId
    && var prefix := userId[..PREFIX_LENGTH];
       if prefix == PREFIX_USER || prefix == PREFIX_AGENT then ParseActor(userId).Some?
       else prefix == PREFIX_NATIVE && IsCanonicalUuid(userId[PREFIX_LENGTH..])
  }

  /** Formatting then parsing gives the actor back exactly when it names a positive int64 of a known role. */
  lemma ParseUndoesFormat(a: Actor)
    requires a.id <= MAX_INT64
    ensures UserId(a).Some? ==> (ParseActor(UserId(a).value) == Some(a) <==> a.id > 0)
  {
    if UserId(a).Some? && MIN_INT64 <= a.id {
      FormatIntParses(a.id);
      FormatIntChars(a.id);
      assert UserId(a).value[PREFIX_LENGTH..] == FormatInt(a.id);
    }
  }

  /** Every id that parses is the one spelling of its actor. */
  lemma FormatUndoesParse(userId: string)
    requires ParseActor(userId).Some?
    ensures UserId(ParseActor(userId).value) == Some(userId) && 0 < ParseActor(userId).value.id <= MAX_INT64
  {
    assert userId == userId[..PREFIX_LENGTH] + userId[PREFIX_LENGTH..];
  }

  lemma NoColon(prefix: string, rest: string)
    requires ':' !in prefix && ':' !in rest
    ensures ':' !in prefix + rest
  {}

  /** Exactly the ids that parse as an actor and the canonical native accounts are valid. */
  lemma ValidIds(userId: string)
    ensures Valid(userId) <==>
            || ParseActor(userId).Some?
            || (PREFIX_NATIVE <= userId && IsCanonicalUuid(userId[PREFIX_LENGTH..]))
  {
    if |userId| > PREFIX_LENGTH {
      var prefix, rest := userId[..PREFIX_LENGTH], userId[PREFIX_LENGTH..];
      assert userId == prefix + rest;
      if ParseActor(userId).Some? {
        FormatIntChars(ParseActor(userId).value.id);
        NoColon(prefix, rest);
      }
      if prefix == PREFIX_NATIVE && IsCanonicalUuid(rest) { NoColon(prefix, rest); }
    }
  }

  /** The ids of the first users are valid. */
  lemma NumberedIsValid(n: nat, id: string)
    requires 0 < n < 10 && id == PREFIX_USER + [DigitOf(n)]
    ensures Valid(id)
  {
    var a := Actor(n, User);
    assert FormatInt(n) == [DigitOf(n)];
    assert UserId(a) == Some(id);
    ParseUndoesFormat(a);
    ValidIds(id);
  }

  /** The text before the first separator is determined by the whole. */
  lemma {:induction false} CutUnique(x: string, y: string, x': string, y': string)
    requires ':' !in x && ':' !in x' && x + ":" + y == x' + ":" + y'
    ensures x == x' && y == y'
  {
    var s := x + ":" + y;
    assert s[0] == (x' + ":" + y')[0];
    if x == [] {
      assert y == s[1..] == y';
    } else {
      assert s[1..] == x[1..] + ":" + y == x'[1..] + ":" + y';
      CutUnique(x[1..], y, x'[1..], y');
    }
  }

  /** Two valid pairs share a conversation exactly when they are the same two users. */
  lemma SingleIsCanonical(a: string, b: string, c: string, d: string)
    requires Valid(a) && Valid(b) && Valid(c) && Valid(d)
    ensures Single(a, b) == Single(c, d) <==> (a == c && b == d) || (a == d && b == c)
  {
    SortedForgetsOrder(a, b, c, d);
    if Single(a, b) == Single(c, d) {
      var p, q := Sorted(a, b), Sorted(c, d);
      assert Single(a, b)[3..] == p.0 + ":" + p.1 && Single(c, d)[3..] == q.0 + ":" + q.1;
      CutUnique(p.0, p.1, q.0, q.1);
    }
  }
}
