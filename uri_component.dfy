/** `encodeURIComponent`, which the SOS page applies to the message it puts in
    each WhatsApp link, together with the matching decoder (what
    `decodeURIComponent` does on the receiving side), and the proof that the
    two round-trip. Characters outside the unreserved set of section 2.3 of
    RFC 3986 and outside `!'()*` are written as the percent-encoded bytes of
    their UTF-8 form (section 2.1 of RFC 3986, upper-case hexadecimal). */
module UriComponent {

  import opened Wrappers
  import opened Text

  type Byte = b: int | 0 <= b < 256

  /** The characters `encodeURIComponent` copies unchanged. */
  predicate IsUnescaped(c: char) {
    ('A' <= c <= 'Z') || ('a' <= c <= 'z') || ('0' <= c <= '9')
    || c == '-' || c == '_' || c == '.' || c == '!' || c == '~'
    || c == '*' || c == '\'' || c == '(' || c == ')'
  }

  // ---------------------------------------------------------------------------
  // UTF-8
  // ---------------------------------------------------------------------------

  /** The UTF-8 encoding of one Unicode scalar value (section 3 of RFC 3629). */
  function Utf8(c: char): (bs: seq<Byte>)
    ensures 1 <= |bs| <= 4
  {
    var cp := c as int;
    if cp < 0x80 then [cp]
    else if cp < 0x800 then [0xC0 + cp / 64, 0x80 + cp % 64]
    else if cp < 0x1_0000 then [0xE0 + cp / 4096, 0x80 + (cp / 64) % 64, 0x80 + cp % 64]
    else [0xF0 + cp / 0x4_0000, 0x80 + (cp / 4096) % 64, 0x80 + (cp / 64) % 64, 0x80 + cp % 64]
  }

  /** The number of bytes of the UTF-8 sequence that starts with `b0`, or 0
      when `b0` cannot start one. */
  function SequenceLength(b0: Byte): nat {
    if b0 < 0x80 then 1
    else if 0xC2 <= b0 < 0xE0 then 2
    else if 0xE0 <= b0 < 0xF0 then 3
    else if 0xF0 <= b0 < 0xF5 then 4
    else 0
  }

  predicate IsContinuation(b: Byte) {
    0x80 <= b < 0xC0
  }

  predicate IsScalar(cp: int) {
    (0 <= cp < 0xD800) || (0xE000 <= cp < 0x11_0000)
  }

  /** Decodes one complete UTF-8 sequence; rejects bad continuation bytes,
      overlong forms, surrogates and values past U+10FFFF. */
  function CodePoint(bs: seq<Byte>): Option<char>
    requires 1 <= |bs| <= 4 && SequenceLength(bs[0]) == |bs|
  {
    if |bs| == 1 then Some(bs[0] as char)
    else if exists i :: 1 <= i < |bs| && !IsContinuation(bs[i]) then None
    else
      var b0: int, b1: int := bs[0], bs[1] - 0x80;
      var b2: int := if |bs| > 2 then bs[2] - 0x80 else 0;
      var b3: int := if |bs| > 3 then bs[3] - 0x80 else 0;
      var cp: int :=
        if |bs| == 2 then (b0 - 0xC0) * 64 + b1
        else if |bs| == 3 then (b0 - 0xE0) * 4096 + b1 * 64 + b2
        else (b0 - 0xF0) * 0x4_0000 + b1 * 4096 + b2 * 64 + b3;
      var least: int := if |bs| == 2 then 0x80 else if |bs| == 3 then 0x800 else 0x1_0000;
      if least <= cp && IsScalar(cp) then Some(cp as char) else None
  }

  lemma {:induction false} SplitDigits(cp: int)
    requires 0 <= cp
    ensures cp == (cp / 64) * 64 + cp % 64
    ensures cp / 64 == (cp / 4096) * 64 + (cp / 64) % 64
    ensures cp / 4096 == (cp / 0x4_0000) * 64 + (cp / 4096) % 64
  {
    var q := cp / 64;
    assert q / 64 == cp / 4096;
    assert (cp / 4096) / 64 == cp / 0x4_0000;
  }

  lemma {:induction false} RoundTripTwo(c: char)
    requires 0x80 <= c as int < 0x800
    ensures SequenceLength(Utf8(c)[0]) == |Utf8(c)| == 2
    ensures CodePoint(Utf8(c)) == Some(c)
  {
    var cp := c as int;
    SplitDigits(cp);
    var bs := Utf8(c);
    assert bs == [0xC0 + cp / 64, 0x80 + cp % 64];
    assert 2 <= cp / 64 < 32;
    assert IsContinuation(bs[1]);
  }

  lemma {:induction false} RoundTripThree(c: char)
    requires 0x800 <= c as int < 0x1_0000
    ensures SequenceLength(Utf8(c)[0]) == |Utf8(c)| == 3
    ensures CodePoint(Utf8(c)) == Some(c)
  {
    var cp := c as int;
    SplitDigits(cp);
    var bs := Utf8(c);
    assert bs == [0xE0 + cp / 4096, 0x80 + (cp / 64) % 64, 0x80 + cp % 64];
    assert cp / 4096 < 16;
    assert IsContinuation(bs[1]) && IsContinuation(bs[2]);
  }

  lemma {:induction false} RoundTripFour(c: char)
    requires 0x1_0000 <= c as int
    ensures SequenceLength(Utf8(c)[0]) == |Utf8(c)| == 4
    ensures CodePoint(Utf8(c)) == Some(c)
  {
    var cp := c as int;
    SplitDigits(cp);
    var bs := Utf8(c);
    assert bs == [0xF0 + cp / 0x4_0000, 0x80 + (cp / 4096) % 64, 0x80 + (cp / 64) % 64, 0x80 + cp % 64];
    assert cp / 0x4_0000 < 5;
    assert IsContinuation(bs[1]) && IsContinuation(bs[2]) && IsContinuation(bs[3]);
  }

  /** Decoding the UTF-8 form of a character gives the character back. */
  lemma {:induction false} Utf8RoundTrip(c: char)
    ensures SequenceLength(Utf8(c)[0]) == |Utf8(c)|
    ensures CodePoint(Utf8(c)) == Some(c)
  {
    var cp := c as int;
    if cp < 0x80 {
    } else if cp < 0x800 {
      RoundTripTwo(c);
    } else if cp < 0x1_0000 {
      RoundTripThree(c);
    } else {
      RoundTripFour(c);
    }
  }

  // ---------------------------------------------------------------------------
  // Percent-encoding
  // ---------------------------------------------------------------------------

  function HexDigit(d: nat): (c: char)
    requires d < 16
    ensures IsUnescaped(c)
  {
    if d < 10 then ('0' as int + d) as char else ('A' as int + d - 10) as char
  }

  /** The value of a hexadecimal digit (either case), or -1. */
  function HexValue(c: char): (v: int)
    ensures -1 <= v < 16
  {
    if '0' <= c <= '9' then c as int - '0' as int
    else if 'A' <= c <= 'F' then c as int - 'A' as int + 10
    else if 'a' <= c <= 'f' then c as int - 'a' as int + 10
    else -1
  }

  function PercentByte(b: Byte): string {
    ['%', HexDigit(b / 16), HexDigit(b % 16)]
  }

  function PercentBytes(bs: seq<Byte>): (r: string)
    ensures |r| == 3 * |bs|
    ensures forall i :: 0 <= i < |r| ==> IsUnescaped(r[i]) || r[i] == '%'
  {
    if bs == [] then [] else PercentByte(bs[0]) + PercentBytes(bs[1..])
  }

  function EncodeChar(c: char): string {
    if IsUnescaped(c) then [c] else PercentBytes(Utf8(c))
  }

  /** `encodeURIComponent(s)`. The result uses only the unescaped characters
      and `%`: in particular it holds no `?`, `&`, `#`, `=` or space, so it
      can stand as the value of a query parameter. */
  function Encode(s: string): (r: string)
    ensures forall i :: 0 <= i < |r| ==> IsUnescaped(r[i]) || r[i] == '%'
  {
    if s == [] then [] else EncodeChar(s[0]) + Encode(s[1..])
  }

  // ---------------------------------------------------------------------------
  // Decoding
  // ---------------------------------------------------------------------------

  /** A percent-encoded string read as literal characters and `%XY` bytes. */
  datatype Token = Literal(c: char) | Octet(b: Byte)

  function Tokenize(s: string): Option<seq<Token>>
  {
    if s == [] then Some([])
    else if s[0] != '%' then
      match Tokenize(s[1..])
      case None => None
      case Some(ts) => Some([Literal(s[0])] + ts)
    else if |s| < 3 || HexValue(s[1]) < 0 || HexValue(s[2]) < 0 then None
    else
      match Tokenize(s[3..])
      case None => None
      case Some(ts) => Some([Octet(16 * HexValue(s[1]) + HexValue(s[2]))] + ts)
  }

  function Octets(bs: seq<Byte>): (ts: seq<Token>)
    ensures |ts| == |bs| && forall i :: 0 <= i < |bs| ==> ts[i] == Octet(bs[i])
  {
    if bs == [] then [] else [Octet(bs[0])] + Octets(bs[1..])
  }

  function ValuesOf(ts: seq<Token>): (bs: seq<Byte>)
    requires forall i :: 0 <= i < |ts| ==> ts[i].Octet?
    ensures |bs| == |ts| && forall i :: 0 <= i < |ts| ==> bs[i] == ts[i].b
  {
    if ts == [] then [] else [ts[0].b] + ValuesOf(ts[1..])
  }

  /** Turns the tokens back into characters, decoding each UTF-8 sequence. */
  function DecodeTokens(ts: seq<Token>): Option<string>
    decreases |ts|
  {
    if ts == [] then Some([])
    else match ts[0]
      case Literal(c) =>
        (match DecodeTokens(ts[1..])
         case None => None
         case Some(rest) => Some([c] + rest))
      case Octet(b0) =>
        var n := SequenceLength(b0);
        if n == 0 || |ts| < n || exists i :: 0 <= i < n && !ts[i].Octet? then None
        else
          match CodePoint(ValuesOf(ts[..n]))
          case None => None
          case Some(c) =>
            (match DecodeTokens(ts[n..])
             case None => None
             case Some(rest) => Some([c] + rest))
  }

  /** `decodeURIComponent(s)`; `None` where it would throw a URIError. */
  function Decode(s: string): Option<string> {
    match Tokenize(s)
    case None => None
    case Some(ts) => DecodeTokens(ts)
  }

  // ---------------------------------------------------------------------------
  // Round trip
  // ---------------------------------------------------------------------------

  function CharTokens(c: char): seq<Token> {
    if IsUnescaped(c) then [Literal(c)] else Octets(Utf8(c))
  }

  function EncodeTokens(s: string): seq<Token> {
    if s == [] then [] else CharTokens(s[0]) + EncodeTokens(s[1..])
  }

  lemma {:induction false} HexRoundTrip(d: nat)
    requires d < 16
    ensures HexValue(HexDigit(d)) == d
  {
  }

  /** One escape `%XY` is read back as the byte it encodes. */
  lemma {:induction false} TokenizePercentByte(b: Byte, rest: string, ts: seq<Token>)
    requires Tokenize(rest) == Some(ts)
    ensures Tokenize(PercentByte(b) + rest) == Some([Octet(b)] + ts)
  {
    var s := PercentByte(b) + rest;
    HexRoundTrip(b / 16);
    HexRoundTrip(b % 16);
    assert s[0] == '%' && s[1] == HexDigit(b / 16) && s[2] == HexDigit(b % 16);
    assert s[3..] == rest;
  }

  lemma {:induction false} TokenizePercentBytes(bs: seq<Byte>, rest: string, ts: seq<Token>)
    requires Tokenize(rest) == Some(ts)
    ensures Tokenize(PercentBytes(bs) + rest) == Some(Octets(bs) + ts)
  {
    if bs == [] {
      assert PercentBytes(bs) + rest == rest && Octets(bs) + ts == ts;
    } else {
      TokenizePercentBytes(bs[1..], rest, ts);
      TokenizePercentByte(bs[0], PercentBytes(bs[1..]) + rest, Octets(bs[1..]) + ts);
      AppendAssoc(PercentByte(bs[0]), PercentBytes(bs[1..]), rest);
      AppendAssoc([Octet(bs[0])], Octets(bs[1..]), ts);
    }
  }

  lemma {:induction false} TokenizeEncode(s: string)
    ensures Tokenize(Encode(s)) == Some(EncodeTokens(s))
  {
    if s != [] {
      TokenizeEncode(s[1..]);
      var c := s[0];
      if IsUnescaped(c) {
        assert Encode(s) == [c] + Encode(s[1..]);
        assert (Encode(s))[1..] == Encode(s[1..]);
      } else {
        TokenizePercentBytes(Utf8(c), Encode(s[1..]), EncodeTokens(s[1..]));
      }
    }
  }

  lemma {:induction false} DecodeCharTokens(c: char, ts: seq<Token>, rest: string)
    requires DecodeTokens(ts) == Some(rest)
    ensures DecodeTokens(CharTokens(c) + ts) == Some([c] + rest)
  {
    var all := CharTokens(c) + ts;
    if IsUnescaped(c) {
      assert all[1..] == ts;
    } else {
      var bs := Utf8(c);
      Utf8RoundTrip(c);
      var n := |bs|;
      assert all[0] == Octet(bs[0]);
      assert all[..n] == Octets(bs);
      assert ValuesOf(all[..n]) == bs;
      assert all[n..] == ts;
    }
  }

  lemma {:induction false} DecodeEncodeTokens(s: string)
    ensures DecodeTokens(EncodeTokens(s)) == Some(s)
  {
    if s != [] {
      DecodeEncodeTokens(s[1..]);
      DecodeCharTokens(s[0], EncodeTokens(s[1..]), s[1..]);
      assert [s[0]] + s[1..] == s;
    }
  }

  /** `decodeURIComponent(encodeURIComponent(s)) == s` for every string. */
  lemma {:induction false} DecodeEncode(s: string)
    ensures Decode(Encode(s)) == Some(s)
  {
    TokenizeEncode(s);
    DecodeEncodeTokens(s);
  }

  lemma {:induction false} EncodeAppend(a: string, b: string)
    ensures Encode(a + b) == Encode(a) + Encode(b)
  {
    if a != [] {
      assert (a + b)[0] == a[0];
      assert (a + b)[1..] == a[1..] + b;
      EncodeAppend(a[1..], b);
    } else {
      assert a + b == b;
    }
  }
}
