/** base64url without padding, section 5 of RFC 4648, as Go's RawURLEncoding decodes it. Strings hold bytes. */
module Base64 {
  import opened Common

  newtype Byte = x: int | 0 <= x < 256
  newtype Sextet = x: int | 0 <= x < 64

  // ---------------------------------------------------------------- groups

  function Encode(bs: seq<Byte>): seq<Sextet> {
    if |bs| == 0 then []
    else if |bs| == 1 then [High(bs[0]), Mid(bs[0], 0)]
    else if |bs| == 2 then [High(bs[0]), Mid(bs[0], bs[1]), Low(bs[1], 0)]
    else [High(bs[0]), Mid(bs[0], bs[1]), Low(bs[1], bs[2]), Tail(bs[2])] + Encode(bs[3..])
  }

  function High(a: Byte): Sextet { (a as int / 4) as Sextet }
  function Mid(a: Byte, b: Byte): Sextet { (a as int % 4 * 16 + b as int / 16) as Sextet }
  function Low(b: Byte, c: Byte): Sextet { (b as int % 16 * 4 + c as int / 64) as Sextet }
  function Tail(c: Byte): Sextet { (c as int % 64) as Sextet }

  function First(w: Sextet, x: Sextet): Byte { (w as int * 4 + x as int / 16) as Byte }
  function Second(x: Sextet, y: Sextet): Byte { (x as int % 16 * 16 + y as int / 4) as Byte }
  function Third(y: Sextet, z: Sextet): Byte { (y as int % 4 * 64 + z as int) as Byte }

  /** A single left-over sextet is an error; left-over bits are ignored. */
  function Decode(ss: seq<Sextet>): Option<seq<Byte>> {
    if |ss| == 0 then Some([])
    else if |ss| == 1 then None
    else if |ss| == 2 then Some([First(ss[0], ss[1])])
    else if |ss| == 3 then Some([First(ss[0], ss[1]), Second(ss[1], ss[2])])
    else
      var rest := Decode(ss[4..]);
      if rest.None? then None
      else Some([First(ss[0], ss[1]), Second(ss[1], ss[2]), Third(ss[2], ss[3])] + rest.value)
  }

  lemma GroupRoundTrip(a: Byte, b: Byte, c: Byte)
    ensures First(High(a), Mid(a, b)) == a
    ensures Second(Mid(a, b), Low(b, c)) == b
    ensures Third(Low(b, c), Tail(c)) == c
  {}

  /** Four sextets are the 24 bits of three bytes, read as one number; a shorter last group is filled up with zeros. */
  lemma GroupIsNumber(a: Byte, b: Byte, c: Byte)
    ensures ((High(a) as int * 64 + Mid(a, b) as int) * 64 + Low(b, c) as int) * 64 + Tail(c) as int
            == (a as int * 256 + b as int) * 256 + c as int
    ensures Encode([a, b, c]) == [High(a), Mid(a, b), Low(b, c), Tail(c)]
    ensures Encode([a, b]) == Encode([a, b, 0])[..3] && Encode([a]) == Encode([a, 0, 0])[..2]
  {
    assert [a, b, c][3..] == [] && [a, b, 0][3..] == [] && [a, 0, 0][3..] == [];
  }

  lemma LastOne(a: Byte)
    ensures Decode([High(a), Mid(a, 0)]) == Some([a])
  {}

  lemma LastTwo(a: Byte, b: Byte)
    ensures Decode([High(a), Mid(a, b), Low(b, 0)]) == Some([a, b])
  {}

  lemma {:induction false} DecodeUndoesEncode(bs: seq<Byte>)
    ensures Decode(Encode(bs)) == Some(bs)
  {
    if |bs| == 1 {
      LastOne(bs[0]);
      assert bs == [bs[0]];
    } else if |bs| == 2 {
      LastTwo(bs[0], bs[1]);
      assert bs == [bs[0], bs[1]];
    } else if |bs| > 2 {
      var head, ss := [bs[0], bs[1], bs[2]], Encode(bs);
      DecodeUndoesEncode(bs[3..]);
      assert ss[4..] == Encode(bs[3..]);
      assert [First(ss[0], ss[1]), Second(ss[1], ss[2]), Third(ss[2], ss[3])] == head by {
        GroupRoundTrip(bs[0], bs[1], bs[2]);
      }
      assert bs == head + bs[3..];
    }
  }

  // ---------------------------------------------------------------- text

  function CharOf(v: Sextet): char {
    if v < 26 then 'A' + v as char
    else if v < 52 then 'a' + (v - 26) as char
    else if v < 62 then '0' + (v - 52) as char
    else if v == 62 then '-' else '_'
  }

  function SextetOf(c: char): Option<Sextet> {
    if 'A' <= c <= 'Z' then Some((c as int - 'A' as int) as Sextet)
    else if 'a' <= c <= 'z' then Some((c as int - 'a' as int + 26) as Sextet)
    else if '0' <= c <= '9' then Some((c as int - '0' as int + 52) as Sextet)
    else if c == '-' then Some(62)
    else if c == '_' then Some(63)
    else None
  }

  function Text(ss: seq<Sextet>): string { if ss == [] then [] else [CharOf(ss[0])] + Text(ss[1..]) }

  /** Line breaks are skipped, anything else outside the alphabet is an error. */
  function Sextets(s: string): Option<seq<Sextet>> {
    if s == [] then Some([])
    else if s[0] == '\r' || s[0] == '\n' then Sextets(s[1..])
    else
      var v, rest := SextetOf(s[0]), Sextets(s[1..]);
      if v.None? || rest.None? then None else Some([v.value] + rest.value)
  }

  /** Table 2 of RFC 4648, in ASCII codes. */
  lemma CharsAreTheAlphabet(v: Sextet)
    ensures CharOf(v) as int == if v < 26 then 65 + v as int else if v < 52 then 71 + v as int
                                else if v < 62 then v as int - 4 else if v == 62 then 45 else 95
  {}

  lemma CharRoundTrip(v: Sextet)
    ensures SextetOf(CharOf(v)) == Some(v) && CharOf(v) != '\r' && CharOf(v) != '\n'
  {}

  lemma {:induction false} SextetsUndoText(ss: seq<Sextet>)
    ensures Sextets(Text(ss)) == Some(ss)
  {
    if ss != [] {
      CharRoundTrip(ss[0]);
      SextetsUndoText(ss[1..]);
      assert Text(ss)[1..] == Text(ss[1..]);
      assert [ss[0]] + ss[1..] == ss;
    }
  }

  predicate IsBytes(s: string) { forall i :: 0 <= i < |s| ==> s[i] as int < 256 }

  function ToBytes(s: string): seq<Byte>
    requires IsBytes(s)
  {
    seq(|s|, i requires 0 <= i < |s| => s[i] as int as Byte)
  }

  function FromBytes(bs: seq<Byte>): string { seq(|bs|, i requires 0 <= i < |bs| => bs[i] as int as char) }

  function EncodeToString(s: string): string
    requires IsBytes(s)
  {
    Text(Encode(ToBytes(s)))
  }

  function DecodeString(t: string): Option<string> {
    var ss := Sextets(t);
    if ss.None? then None
    else var bs := Decode(ss.value); if bs.None? then None else Some(FromBytes(bs.value))
  }

  /** Every byte string survives. */
  lemma StringRoundTrip(s: string)
    requires IsBytes(s)
    ensures DecodeString(EncodeToString(s)) == Some(s)
  {
    SextetsUndoText(Encode(ToBytes(s)));
    DecodeUndoesEncode(ToBytes(s));
    assert FromBytes(ToBytes(s)) == s;
  }

  lemma {:induction false} TextLength(ss: seq<Sextet>)
    ensures |Text(ss)| == |ss|
  {
    if ss != [] { TextLength(ss[1..]); }
  }

  lemma EncodingIsNotEmpty(s: string)
    requires IsBytes(s) && s != []
    ensures EncodeToString(s) != []
  {}
}
