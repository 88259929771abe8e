/** The list cursor of internal/service/conv/cursor.go on the wire. Times are nanoseconds since the Unix epoch. */
module ListCursors {
  import opened Common
  import opened Decimal
  import opened Base64

  datatype ListCursor = ListCursor(updatedAt: int, conversationId: string)

  const MILLISECOND := 1_000_000

  /** store.FirstPage: the first moment of year 9999. */
  const FIRST_PAGE := ListCursor(253_370_764_800_000 * MILLISECOND, "")

  /** UnixMilli; Dafny's division floors for a positive divisor. */
  function UnixMilli(t: int): int { t / MILLISECOND }

  function Wire(c: ListCursor): string { FormatInt(UnixMilli(c.updatedAt)) + ":" + c.conversationId }

  function EncodeCursor(c: ListCursor): string
    requires IsBytes(c.conversationId)
  {
    WireIsBytes(c);
    EncodeToString(Wire(c))
  }

  lemma WireIsBytes(c: ListCursor)
    requires IsBytes(c.conversationId)
    ensures IsBytes(Wire(c)) && Wire(c) != []
  {
    FormatIntChars(UnixMilli(c.updatedAt));
  }

  /** strings.Cut at the first colon. */
  function Cut(s: string): Option<(string, string)> {
    if s == [] then None
    else if s[0] == ':' then Some(([], s[1..]))
    else
      var rest := Cut(s[1..]);
      if rest.None? then None else Some(([s[0]] + rest.value.0, rest.value.1))
  }

  function DecodeCursor(s: string): Option<ListCursor> {
    if s == "" then Some(FIRST_PAGE)
    else
      var raw := DecodeString(s);
      if raw.None? then None
      else
        var cut := Cut(raw.value);
        if cut.None? || cut.value.1 == "" then None
        else
          var n := ParseInt(cut.value.0);
          if n.None? then None else Some(ListCursor(n.value * MILLISECOND, cut.value.1))
  }

  lemma {:induction false} CutAtFirst(a: string, b: string)
    requires ':' !in a
    ensures Cut(a + ":" + b) == Some((a, b))
  {
    if a == [] {
      assert a + ":" + b == ":" + b;
      assert (":" + b)[1..] == b;
    } else {
      assert (a + ":" + b)[1..] == a[1..] + ":" + b;
      CutAtFirst(a[1..], b);
      assert [a[0]] + a[1..] == a;
    }
  }

  /** What is on the wire: base64 of the milliseconds, a colon and the id. */
  lemma CursorText(c: ListCursor)
    requires IsBytes(c.conversationId)
    ensures DecodeString(EncodeCursor(c)) == Some(FormatInt(c.updatedAt / 1_000_000) + ":" + c.conversationId)
  {
    WireIsBytes(c);
    StringRoundTrip(Wire(c));
  }

  /** What the two ends of the wire agree on. */
  lemma DecodeOfEncode(c: ListCursor)
    requires IsBytes(c.conversationId) && MIN_INT64 <= UnixMilli(c.updatedAt) <= MAX_INT64
    ensures DecodeCursor(EncodeCursor(c))
         == if c.conversationId == "" then None
           else Some(ListCursor(UnixMilli(c.updatedAt) * MILLISECOND, c.conversationId))
  {
    var ms := FormatInt(UnixMilli(c.updatedAt));
    WireIsBytes(c);
    assert EncodeCursor(c) != [] by { EncodingIsNotEmpty(Wire(c)); }
    assert DecodeString(EncodeCursor(c)) == Some(Wire(c)) by { StringRoundTrip(Wire(c)); }
    assert Cut(Wire(c)) == Some((ms, c.conversationId)) by {
      FormatIntChars(UnixMilli(c.updatedAt));
      CutAtFirst(ms, c.conversationId);
    }
    assert ParseInt(ms) == Some(UnixMilli(c.updatedAt)) by { FormatIntParses(UnixMilli(c.updatedAt)); }
  }

  /**
   A cursor survives the wire exactly when its time is whole milliseconds and its id is not empty; colons are fine.
   */
  lemma CursorRoundTrip(c: ListCursor)
    requires IsBytes(c.conversationId) && MIN_INT64 <= UnixMilli(c.updatedAt) <= MAX_INT64
    ensures DecodeCursor(EncodeCursor(c)) == Some(c) <==> c.updatedAt % MILLISECOND == 0 && c.conversationId != ""
  {
    DecodeOfEncode(c);
  }
}
