/** Unpadded base64url, sections 3.2 and 5 of RFC 4648 (connector/additional_rest.go, encodeCursor and decodeCursor). */
module Base64 {
  import opened Basics

  type Byte = b: int | 0 <= b < 256
  type Sextet = v: int | 0 <= v < 64

  function Char(v: Sextet): char {
    if v < 26 then 'A' + v as char
    else if v < 52 then 'a' + (v - 26) as char
    else if v < 62 then '0' + (v - 52) as char
    else if v == 62 then '-'
    else '_'
  }

  function Index(c: char): Option<Sextet> {
    if 'A' <= c <= 'Z' then Some(c as int - 'A' as int)
    else if 'a' <= c <= 'z' then Some(c as int - 'a' as int + 26)
    else if '0' <= c <= '9' then Some(c as int - '0' as int + 52)
    else if c == '-' then Some(62)
    else if c == '_' then Some(63)
    else None
  }

  lemma CharIndex(v: Sextet)
    ensures Index(Char(v)) == Some(v)
  {
  }

  /** The URL and filename safe alphabet, table 2 of RFC 4648: A-Z, a-z, 0-9, minus, underscore, by their ASCII codes. */
  lemma Alphabet(v: Sextet)
    ensures v <= 25 ==> Char(v) as int == 65 + v
    ensures 26 <= v <= 51 ==> Char(v) as int == 97 + (v - 26)
    ensures 52 <= v <= 61 ==> Char(v) as int == 48 + (v - 52)
    ensures v == 62 ==> Char(v) == '-'
    ensures v == 63 ==> Char(v) == '_'
    ensures forall c :: Index(c) == Some(v) <==> c == Char(v)
  {
  }

  /** The sextets of up to three bytes. */
  function Split(b: seq<Byte>): seq<Sextet>
    requires 1 <= |b| <= 3
  {
    if |b| == 1 then [b[0] / 4, b[0] % 4 * 16]
    else if |b| == 2 then [b[0] / 4, b[0] % 4 * 16 + b[1] / 16, b[1] % 16 * 4]
    else [b[0] / 4, b[0] % 4 * 16 + b[1] / 16, b[1] % 16 * 4 + b[2] / 64, b[2] % 64]
  }

  /** A group read as one number, 64 per sextet, is its bytes read as one number, 256 per byte, with zero bits added at the end. */
  lemma SplitBits(b: seq<Byte>)
    requires 1 <= |b| <= 3
    ensures |Split(b)| == |b| + 1
    ensures var v: seq<int>, w: seq<int> := Split(b), b;
      && (|b| == 1 ==> 64 * v[0] + v[1] == 16 * w[0])
      && (|b| == 2 ==> 64 * (64 * v[0] + v[1]) + v[2] == 4 * (256 * w[0] + w[1]))
      && (|b| == 3 ==> 64 * (64 * (64 * v[0] + v[1]) + v[2]) + v[3] == 256 * (256 * w[0] + w[1]) + w[2])
  {
    assert b[0] == 4 * (b[0] / 4) + b[0] % 4;
    if |b| >= 2 {
      assert b[1] == 16 * (b[1] / 16) + b[1] % 16;
    }
    if |b| == 3 {
      assert b[2] == 64 * (b[2] / 64) + b[2] % 64;
    }
  }

  /** The bytes of two to four sextets; bits left over are dropped. */
  function Join(v: seq<Sextet>): seq<Byte>
    requires 2 <= |v| <= 4
  {
    var first := Glue(v[0], 4, v[1] / 16);
    if |v| == 2 then [first]
    else
      var second := Glue(v[1] % 16, 16, v[2] / 4);
      if |v| == 3 then [first, second] else [first, second, Glue(v[2] % 4, 64, v[3])]
  }

  function Glue(high: int, weight: int, low: int): Byte
    requires 0 <= high && 0 <= low < weight && (high + 1) * weight <= 256
  {
    high * weight + low
  }

  lemma Halves(x: Byte, k: int)
    requires k == 4 || k == 16 || k == 64
    ensures x / k * k + x % k == x && 0 <= x % k < k && 0 <= x / k
  {
  }

  /** The pieces that a byte is cut into. */
  lemma Pieces(high: int, weight: int, low: int)
    requires 0 <= low < weight && (weight == 4 || weight == 16 || weight == 64)
    ensures (high * weight + low) / weight == high && (high * weight + low) % weight == low
  {
  }

  lemma SplitJoin(b: seq<Byte>)
    requires 1 <= |b| <= 3
    ensures |Split(b)| == |b| + 1 && Join(Split(b)) == b
  {
    Halves(b[0], 4);
    if |b| >= 2 {
      Halves(b[1], 16);
      Pieces(b[0] % 4, 16, b[1] / 16);
    }
    if |b| == 3 {
      Halves(b[2], 64);
      Pieces(b[1] % 16, 4, b[2] / 64);
    }
  }

  function Chars(v: seq<Sextet>): (s: string)
    ensures |s| == |v| && forall i :: 0 <= i < |v| ==> s[i] == Char(v[i])
  {
    if v == [] then "" else [Char(v[0])] + Chars(v[1..])
  }

  function Indexes(s: string): (v: Option<seq<Sextet>>)
    ensures v.Some? ==> |v.value| == |s|
  {
    if s == "" then Some([])
    else
      match (Index(s[0]), Indexes(s[1..]))
      case (Some(first), Some(rest)) => Some([first] + rest)
      case (_, _) => None
  }

  lemma {:induction false} CharsIndexes(v: seq<Sextet>)
    ensures Indexes(Chars(v)) == Some(v)
  {
    if v != [] {
      CharIndex(v[0]);
      CharsIndexes(v[1..]);
      assert Chars(v)[1..] == Chars(v[1..]);
      assert v == [v[0]] + v[1..];
    }
  }

  function Encode(b: seq<Byte>): (s: string)
    ensures |b| <= |s|
    ensures b != [] ==> s != ""
  {
    if b == [] then ""
    else
      var n := Min(3, |b|);
      SplitJoin(b[..n]);
      Chars(Split(b[..n])) + Encode(b[n..])
  }

  function Decode(s: string): Option<seq<Byte>> {
    if s == "" then Some([])
    else if |s| == 1 then None
    else
      var n := Min(4, |s|);
      match (Indexes(s[..n]), Decode(s[n..]))
      case (Some(v), Some(rest)) => Some(Join(v) + rest)
      case (_, _) => None
  }

  /** Groups of three bytes become groups of four characters, one after the other; there is no padding. */
  lemma EncodeGroups(b: seq<Byte>)
    requires b != []
    ensures var n := if |b| < 3 then |b| else 3; var s := Encode(b);
      && |s| == n + 1 + |Encode(b[n..])| && s[n + 1..] == Encode(b[n..])
      && |Split(b[..n])| == n + 1 && forall i :: 0 <= i <= n ==> s[i] == Char(Split(b[..n])[i])
  {
    var n := if |b| < 3 then |b| else 3;
    SplitJoin(b[..n]);
    var head := Chars(Split(b[..n]));
    assert Encode(b) == head + Encode(b[n..]);
  }

  /** Decoding takes a group off the front. */
  lemma DecodeGroup(head: string, tail: string, v: seq<Sextet>, rest: seq<Byte>)
    requires 2 <= |head| <= 4 && (|head| < 4 ==> tail == "")
    requires |v| == |head| && Indexes(head) == Some(v) && Decode(tail) == Some(rest)
    ensures Decode(head + tail) == Some(Join(v) + rest)
  {
    var s := head + tail;
    var n := Min(4, |s|);
    assert n == |head| && s[..n] == head && s[n..] == tail;
  }

  lemma {:induction false} EncodeRoundTrip(b: seq<Byte>)
    ensures Decode(Encode(b)) == Some(b)
  {
    if b != [] {
      var n := Min(3, |b|);
      var v := Split(b[..n]);
      SplitJoin(b[..n]);
      CharsIndexes(v);
      EncodeRoundTrip(b[n..]);
      DecodeGroup(Chars(v), Encode(b[n..]), v, b[n..]);
      assert b == b[..n] + b[n..];
    }
  }

  const CURSOR_LIMIT := 1048576

  /** encodeCursor, for a value whose JSON text is given. */
  function EncodeCursor(text: seq<Byte>): string {
    Encode(text)
  }

  /** decodeCursor up to the JSON decoding: longer texts are refused. */
  function DecodeCursor(s: string): Option<seq<Byte>> {
    match Decode(s)
    case None => None
    case Some(text) => if |text| > CURSOR_LIMIT then None else Some(text)
  }

  /** A cursor that is short enough to hand out is short enough to be accepted back. */
  lemma CursorAccepted(text: seq<Byte>)
    requires |EncodeCursor(text)| <= CURSOR_LIMIT
    ensures DecodeCursor(EncodeCursor(text)) == Some(text)
  {
    EncodeRoundTrip(text);
  }
}
