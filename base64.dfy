/** Base 64 encoding per section 4 of RFC 4648, the standard behind the
    browser's `atob`, used by `decode` in utils/audioUtils.ts. */
module Base64 {
  import opened Wrappers

  type Byte = b: int | 0 <= b < 256
  type Sextet = v: int | 0 <= v < 64

  /** Table 1 of section 4 of RFC 4648: the character that encodes a 6-bit group. */
  function CharOf(v: Sextet): (c: char)
    ensures IsAlphabet(c)
  {
    if v < 26 then (65 + v) as char          // 'A' .. 'Z'
    else if v < 52 then (97 + v - 26) as char  // 'a' .. 'z'
    else if v < 62 then (48 + v - 52) as char  // '0' .. '9'
    else if v == 62 then '+'
    else '/'
  }

  predicate IsAlphabet(c: char) {
    ('A' <= c <= 'Z') || ('a' <= c <= 'z') || ('0' <= c <= '9') || c == '+' || c == '/'
  }

  /** The inverse of CharOf on the alphabet. */
  function ValueOf(c: char): (v: Sextet)
    requires IsAlphabet(c)
    ensures CharOf(v) == c
  {
    if 'A' <= c <= 'Z' then c as int - 65
    else if 'a' <= c <= 'z' then c as int - 97 + 26
    else if '0' <= c <= '9' then c as int - 48 + 52
    else if c == '+' then 62
    else 63
  }

  lemma ValueOfCharOf(v: Sextet)
    ensures ValueOf(CharOf(v)) == v
  {
  }

  /** Three octets become four characters (the 24-bit groups of RFC 4648, section 4). */
  function EncodeGroup(b0: Byte, b1: Byte, b2: Byte): (s: string)
    ensures |s| == 4
  {
    [CharOf(b0 / 4), CharOf(b0 % 4 * 16 + b1 / 16), CharOf(b1 % 16 * 4 + b2 / 64), CharOf(b2 % 64)]
  }

  /** The encoding of a whole octet sequence, with "=" padding for a final
      group of one or two octets. */
  function Encode(b: seq<Byte>): (s: string)
    ensures |s| == (|b| + 2) / 3 * 4
    decreases |b|
  {
    if |b| == 0 then ""
    else if |b| == 1 then [CharOf(b[0] / 4), CharOf(b[0] % 4 * 16), '=', '=']
    else if |b| == 2 then [CharOf(b[0] / 4), CharOf(b[0] % 4 * 16 + b[1] / 16), CharOf(b[1] % 16 * 4), '=']
    else EncodeGroup(b[0], b[1], b[2]) + Encode(b[3..])
  }

  function Octet0(c0: Sextet, c1: Sextet): Byte { c0 * 4 + c1 / 16 }
  function Octet1(c1: Sextet, c2: Sextet): Byte { c1 % 16 * 16 + c2 / 4 }
  function Octet2(c2: Sextet, c3: Sextet): Byte { c2 % 4 * 64 + c3 }

  predicate AllAlphabet(q: string) {
    forall i :: 0 <= i < |q| ==> IsAlphabet(q[i])
  }

  /** Four alphabet characters become three octets. */
  function DecodeGroup(q: string): (r: seq<Byte>)
    requires |q| == 4 && AllAlphabet(q)
    ensures |r| == 3
  {
    var c0, c1, c2, c3 := ValueOf(q[0]), ValueOf(q[1]), ValueOf(q[2]), ValueOf(q[3]);
    [Octet0(c0, c1), Octet1(c1, c2), Octet2(c2, c3)]
  }

  /** The last quantum, which may end in "==" (one octet) or "=" (two octets).
      As in `atob`, bits of the last character beyond the final octet are
      dropped. */
  function DecodeFinal(q: string): (r: Option<seq<Byte>>)
    requires |q| == 4
    ensures r.Some? ==> 1 <= |r.value| <= 3 && forall i :: 0 <= i < 4 ==> IsAlphabet(q[i]) || q[i] == '='
  {
    if IsAlphabet(q[0]) && IsAlphabet(q[1]) && q[2] == '=' && q[3] == '=' then
      Some([Octet0(ValueOf(q[0]), ValueOf(q[1]))])
    else if IsAlphabet(q[0]) && IsAlphabet(q[1]) && IsAlphabet(q[2]) && q[3] == '=' then
      Some([Octet0(ValueOf(q[0]), ValueOf(q[1])), Octet1(ValueOf(q[1]), ValueOf(q[2]))])
    else if AllAlphabet(q) then
      Some(DecodeGroup(q))
    else
      None
  }

  /** Decoding of well-formed base 64 text: a length that is a multiple of
      four, alphabet characters only, padding only in the last quantum.
      Anything else is rejected with None (where `atob` throws). */
  function Decode(s: string): (r: Option<seq<Byte>>)
    ensures r.Some? ==> |s| % 4 == 0 && |s| / 4 * 3 - 2 <= |r.value| <= |s| / 4 * 3
    ensures r.Some? ==> forall i :: 0 <= i < |s| ==> IsAlphabet(s[i]) || s[i] == '='
    decreases |s|
  {
    if |s| == 0 then Some([])
    else if |s| < 4 then None
    else if |s| == 4 then DecodeFinal(s)
    else if AllAlphabet(s[..4]) then
      match Decode(s[4..])
      case None => None
      case Some(rest) => Some(DecodeGroup(s[..4]) + rest)
    else None
  }

  /** `atob`: the decoded octets as a "binary string", one character per octet. */
  function Atob(s: string): (r: Option<string>)
    ensures r.Some? <==> Decode(s).Some?
    ensures r.Some? ==>
      && |r.value| == |Decode(s).value|
      && forall i :: 0 <= i < |r.value| ==> r.value[i] as int == Decode(s).value[i]
  {
    match Decode(s)
    case None => None
    case Some(b) => Some(seq(|b|, i requires 0 <= i < |b| => b[i] as char))
  }

  lemma GroupRoundTrip(b0: Byte, b1: Byte, b2: Byte)
    ensures AllAlphabet(EncodeGroup(b0, b1, b2))
    ensures DecodeGroup(EncodeGroup(b0, b1, b2)) == [b0, b1, b2]
  {
    var q := EncodeGroup(b0, b1, b2);
    ValueOfCharOf(b0 / 4);
    ValueOfCharOf(b0 % 4 * 16 + b1 / 16);
    ValueOfCharOf(b1 % 16 * 4 + b2 / 64);
    ValueOfCharOf(b2 % 64);
    SplitBy16(b0 % 4, b1 / 16);
    SplitBy4(b1 % 16, b2 / 64);
    assert Octet0(b0 / 4, b0 % 4 * 16 + b1 / 16) == b0;
    assert Octet1(b0 % 4 * 16 + b1 / 16, b1 % 16 * 4 + b2 / 64) == b1;
    assert Octet2(b1 % 16 * 4 + b2 / 64, b2 % 64) == b2;
  }

  /** A digit below 16 appended to x in base 16 is read back as quotient and remainder. */
  lemma SplitBy16(x: int, y: int)
    requires 0 <= y < 16
    ensures (x * 16 + y) / 16 == x && (x * 16 + y) % 16 == y
  {
  }

  lemma SplitBy4(x: int, y: int)
    requires 0 <= y < 4
    ensures (x * 4 + y) / 4 == x && (x * 4 + y) % 4 == y
  {
  }

  lemma OneOctetRoundTrip(b: seq<Byte>)
    requires |b| == 1
    ensures Decode(Encode(b)) == Some(b)
  {
    var c0, c1 := b[0] / 4, b[0] % 4 * 16;
    var e := Encode(b);
    assert e == [CharOf(c0), CharOf(c1), '=', '='];
    ValueOfCharOf(c0);
    ValueOfCharOf(c1);
    assert Octet0(c0, c1) == b[0];
    assert DecodeFinal(e) == Some([Octet0(c0, c1)]);
    assert Decode(e) == DecodeFinal(e);
    assert b == [b[0]];
  }

  lemma TwoOctetRoundTrip(b: seq<Byte>)
    requires |b| == 2
    ensures Decode(Encode(b)) == Some(b)
  {
    var c0, c1, c2 := b[0] / 4, b[0] % 4 * 16 + b[1] / 16, b[1] % 16 * 4;
    var e := Encode(b);
    assert e == [CharOf(c0), CharOf(c1), CharOf(c2), '='];
    ValueOfCharOf(c0);
    ValueOfCharOf(c1);
    ValueOfCharOf(c2);
    assert Octet0(c0, c1) == b[0];
    assert Octet1(c1, c2) == b[1];
    assert DecodeFinal(e) == Some([Octet0(c0, c1), Octet1(c1, c2)]);
    assert Decode(e) == DecodeFinal(e);
    assert b == [b[0], b[1]];
  }

  lemma ThreeOctetRoundTrip(b: seq<Byte>)
    requires |b| == 3
    ensures Decode(Encode(b)) == Some(b)
  {
    var e := Encode(b);
    GroupRoundTrip(b[0], b[1], b[2]);
    assert e == EncodeGroup(b[0], b[1], b[2]) + "";
    assert !IsAlphabet('=');
    assert DecodeFinal(e) == Some(DecodeGroup(e));
    assert Decode(e) == DecodeFinal(e);
    assert b == [b[0], b[1], b[2]];
  }

  /** Decoding the RFC 4648 (section 4) encoding of any octet sequence gives
      that sequence back. */
  lemma {:induction false} RoundTrip(b: seq<Byte>)
    ensures Decode(Encode(b)) == Some(b)
    decreases |b|
  {
    if |b| == 1 {
      OneOctetRoundTrip(b);
    } else if |b| == 2 {
      TwoOctetRoundTrip(b);
    } else if |b| == 3 {
      ThreeOctetRoundTrip(b);
    } else if |b| > 3 {
      RoundTrip(b[3..]);
      GroupStep(b);
    }
  }

  lemma GroupStep(b: seq<Byte>)
    requires |b| > 3 && Decode(Encode(b[3..])) == Some(b[3..])
    ensures Decode(Encode(b)) == Some(b)
  {
    var g, t := EncodeGroup(b[0], b[1], b[2]), Encode(b[3..]);
    GroupRoundTrip(b[0], b[1], b[2]);
    assert Encode(b) == g + t;
    DecodePrefix(g, t, b[3..]);
    ConsThree(b);
  }

  lemma ConsThree(b: seq<Byte>)
    requires |b| >= 3
    ensures [b[0], b[1], b[2]] + b[3..] == b
  {
  }

  lemma DecodePrefix(g: string, t: string, rest: seq<Byte>)
    requires |g| == 4 && AllAlphabet(g) && |t| > 0 && Decode(t) == Some(rest)
    ensures Decode(g + t) == Some(DecodeGroup(g) + rest)
  {
    var s := g + t;
    assert s[..4] == g;
    assert s[4..] == t;
  }

  /** Whatever Decode accepts has exactly the length of the encoding of its
      result: the text is 4 characters per started group of 3 octets. */
  lemma {:induction false} DecodedLength(s: string)
    requires Decode(s).Some?
    ensures |Encode(Decode(s).value)| == |s|
    decreases |s|
  {
    if |s| > 4 {
      DecodedLength(s[4..]);
    }
  }
}
