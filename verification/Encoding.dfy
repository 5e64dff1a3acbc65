/**
 Hexadecimal and base64 text for bytes: the encoders and decoders of Go's encoding/hex and
 encoding/base64 (StdEncoding, section 4 of RFC 4648).
 */
module Encoding {
  import opened Wrappers

  type Byte = x: int | 0 <= x < 256

  // ---- Hexadecimal ----

  const HEX_DIGITS: string := "0123456789abcdef"

  function Hex(bytes: seq<Byte>): string {
    if bytes == [] then "" else [HEX_DIGITS[bytes[0] / 16], HEX_DIGITS[bytes[0] % 16]] + Hex(bytes[1..])
  }

  /** The value of a hexadecimal digit of either case. */
  function HexValue(c: char): Option<nat> {
    if '0' <= c <= '9' then Some(c as int - '0' as int)
    else if 'a' <= c <= 'f' then Some(c as int - 'a' as int + 10)
    else if 'A' <= c <= 'F' then Some(c as int - 'A' as int + 10)
    else None
  }

  lemma HexValueRange(c: char)
    ensures HexValue(c).Some? ==> HexValue(c).value < 16
  {
  }

  function HexDecode(s: string): Option<seq<Byte>> {
    if s == "" then Some([])
    else if |s| == 1 then None
    else
      HexValueRange(s[0]);
      HexValueRange(s[1]);
      match (HexValue(s[0]), HexValue(s[1]), HexDecode(s[2..]))
      case (Some(h), Some(l), Some(rest)) => Some([16 * h + l] + rest)
      case _ => None
  }

  predicate IsHexDigit(c: char) {
    '0' <= c <= '9' || 'a' <= c <= 'f' || 'A' <= c <= 'F'
  }

  /** Pairs of hexadecimal digits. */
  predicate IsHex(s: string) {
    |s| % 2 == 0 && forall i :: 0 <= i < |s| ==> IsHexDigit(s[i])
  }

  /** Exactly those are decoded. */
  lemma {:induction false} HexDecodable(s: string)
    ensures HexDecode(s).Some? <==> IsHex(s)
    ensures HexDecode(s).Some? ==> 2 * |HexDecode(s).value| == |s|
  {
    if |s| >= 2 {
      HexDecodable(s[2..]);
      assert HexValue(s[0]).Some? <==> IsHexDigit(s[0]);
      assert HexValue(s[1]).Some? <==> IsHexDigit(s[1]);
      assert forall i :: 2 <= i < |s| ==> s[i] == s[2..][i - 2];
      assert forall i :: 0 <= i < |s| - 2 ==> s[2..][i] == s[i + 2];
      hide HexValue, IsHexDigit;
    }
  }

  lemma HexDigitValue(n: nat)
    requires n < 16
    ensures HexValue(HEX_DIGITS[n]) == Some(n)
  {
    var d := HEX_DIGITS;
    assert d[0] == '0' && d[1] == '1' && d[2] == '2' && d[3] == '3' && d[4] == '4' && d[5] == '5' && d[6] == '6';
    assert d[7] == '7' && d[8] == '8' && d[9] == '9' && d[10] == 'a' && d[11] == 'b' && d[12] == 'c' && d[13] == 'd';
  }

  lemma HexPair(h: char, l: char, rest: string)
    requires HexValue(h).Some? && HexValue(l).Some?
    ensures HexValue(h).value < 16 && HexValue(l).value < 16
    ensures HexDecode([h, l] + rest) ==
              if HexDecode(rest).None? then None
                  else Some([16 * HexValue(h).value + HexValue(l).value] + HexDecode(rest).value)
  {
    HexValueRange(h);
    HexValueRange(l);
    hide HexValue;
    var s := [h, l] + rest;
    assert s[0] == h && s[1] == l && s[2..] == rest;
  }

  lemma {:induction false} HexRoundTrip(bytes: seq<Byte>)
    ensures HexDecode(Hex(bytes)) == Some(bytes)
  {
    if bytes == [] {
      assert HexDecode("") == Some([]);
    } else {
      hide HexDecode, HexValue;
      var b := bytes[0];
      HexDigitValue(b / 16);
      HexDigitValue(b % 16);
      HexPair(HEX_DIGITS[b / 16], HEX_DIGITS[b % 16], Hex(bytes[1..]));
      HexRoundTrip(bytes[1..]);
      assert 16 * (b / 16) + b % 16 == b;
      assert bytes == [b] + bytes[1..];
    }
  }

  // ---- Base64 ----

  type Sextet = x: int | 0 <= x < 64

  /** The alphabet of table 1 of RFC 4648. */
  function SextetOf(c: char): Option<Sextet> {
    if 'A' <= c <= 'Z' then Some(c as int - 'A' as int)
    else if 'a' <= c <= 'z' then Some(c as int - 'a' as int + 26)
    else if '0' <= c <= '9' then Some(c as int - '0' as int + 52)
    else if c == '+' then Some(62)
    else if c == '/' then Some(63)
    else None
  }

  function CharOf(n: Sextet): (c: char)
    ensures SextetOf(c) == Some(n)
  {
    if n < 26 then ('A' as int + n) as char
    else if n < 52 then ('a' as int + n - 26) as char
    else if n < 62 then ('0' as int + n - 52) as char
    else if n == 62 then '+'
    else '/'
  }

  /** Three bytes as four characters; the missing bytes of a last group count as zero. */
  function Quad(a: Byte, b: Byte, c: Byte): (q: string)
    ensures |q| == 4
  {
    [CharOf(a / 4), CharOf(a % 4 * 16 + b / 16), CharOf(b % 16 * 4 + c / 64), CharOf(c % 64)]
  }

  function Base64Encode(bytes: seq<Byte>): string {
    if bytes == [] then ""
    else if |bytes| == 1 then
      var q := Quad(bytes[0], 0, 0);
      [q[0], q[1], '=', '=']
    else if |bytes| == 2 then
      var q := Quad(bytes[0], bytes[1], 0);
      [q[0], q[1], q[2], '=']
    else Quad(bytes[0], bytes[1], bytes[2]) + Base64Encode(bytes[3..])
  }

  /** The decoder skips line breaks. */
  function WithoutBreaks(s: string): string {
    if s == "" then "" else (if s[0] == '\n' || s[0] == '\r' then "" else [s[0]]) + WithoutBreaks(s[1..])
  }

  /** Bits of a last character that belong to no byte are ignored. */
  function Unquad(w: Sextet, x: Sextet, y: Sextet, z: Sextet): (b: (Byte, Byte, Byte)) {
    (w * 4 + x / 16, x % 16 * 16 + y / 4, y % 4 * 64 + z)
  }

  /** Four characters of the alphabet. */
  function FullGroup(w: char, x: char, y: char, z: char): (g: Option<seq<Byte>>)
    ensures g.Some? ==> |g.value| == 3
  {
    if SextetOf(w).None? || SextetOf(x).None? || SextetOf(y).None? || SextetOf(z).None? then None
    else
      var b := Unquad(SextetOf(w).value, SextetOf(x).value, SextetOf(y).value, SextetOf(z).value);
      Some([b.0, b.1, b.2])
  }

  /** The last four characters, with or without padding; the zero digit stands for a missing one. */
  function LastGroup(w: char, x: char, y: char, z: char): Option<seq<Byte>> {
    if z != '=' then FullGroup(w, x, y, z)
    else if y != '=' then
      var g := FullGroup(w, x, y, 'A');
      if g.None? then None else Some(g.value[..2])
    else
      var g := FullGroup(w, x, 'A', 'A');
      if g.None? then None else Some(g.value[..1])
  }

  function DecodeQuads(s: string): Option<seq<Byte>> {
    if s == "" then Some([])
    else if |s| < 4 then None
    else if |s| == 4 then LastGroup(s[0], s[1], s[2], s[3])
    else
      var g, rest := FullGroup(s[0], s[1], s[2], s[3]), DecodeQuads(s[4..]);
      if g.None? || rest.None? then None else Some(g.value + rest.value)
  }

  function Base64Decode(s: string): Option<seq<Byte>> {
    DecodeQuads(WithoutBreaks(s))
  }

  // ---- What is decoded, and to what ----

  /** The value of a character, 0 for padding and beyond the end. */
  function SixAt(s: string, i: nat): int {
    if i < |s| && SextetOf(s[i]).Some? then SextetOf(s[i]).value else 0
  }

  /** Bytes 3q to 3q + 2 are the bits of characters 4q to 4q + 3. */
  predicate GroupOk(s: string, b: seq<Byte>, q: nat) {
    && (3 * q < |b| ==> b[3 * q] == SixAt(s, 4 * q) * 4 + SixAt(s, 4 * q + 1) / 16)
    && (3 * q + 1 < |b| ==> b[3 * q + 1] == SixAt(s, 4 * q + 1) % 16 * 16 + SixAt(s, 4 * q + 2) / 4)
    && (3 * q + 2 < |b| ==> b[3 * q + 2] == SixAt(s, 4 * q + 2) % 4 * 64 + SixAt(s, 4 * q + 3))
  }

  /** Groups of four characters of the alphabet, the last pad of them replaced by padding. */
  ghost predicate IsPadded(s: string, pad: nat) {
    && |s| % 4 == 0 && pad <= 2 && pad <= |s|
    && (forall i :: 0 <= i < |s| - pad ==> SextetOf(s[i]).Some?)
    && (forall i :: |s| - pad <= i < |s| ==> s[i] == '=')
  }

  ghost predicate DecodesTo(s: string, pad: nat, b: seq<Byte>) {
    |b| == |s| / 4 * 3 - pad && forall q: nat :: GroupOk(s, b, q)
  }

  lemma LastFour(s: string)
    requires |s| == 4
    ensures DecodeQuads(s).Some? <==> exists pad: nat :: IsPadded(s, pad)
    ensures forall pad: nat :: IsPadded(s, pad) ==> DecodesTo(s, pad, DecodeQuads(s).value)
  {
    assert SextetOf('=').None? && SextetOf('A') == Some(0);
    var r := DecodeQuads(s);
    if r.Some? {
      assert IsPadded(s, if s[3] != '=' then 0 else if s[2] != '=' then 1 else 2);
    }
    forall pad: nat | IsPadded(s, pad) ensures r.Some? && DecodesTo(s, pad, r.value) {
      assert SextetOf(s[0]).Some? && SextetOf(s[1]).Some?;
      forall q: nat ensures GroupOk(s, r.value, q) {
        assert q > 0 ==> 3 * q >= |r.value|;
      }
    }
  }

  /** The decoder takes exactly text of that form, and gives exactly those bytes. */
  lemma {:induction false} Decodable(s: string)
    ensures DecodeQuads(s).Some? <==> exists pad: nat :: IsPadded(s, pad)
    ensures forall pad: nat :: IsPadded(s, pad) ==> DecodesTo(s, pad, DecodeQuads(s).value)
  {
    if s == "" {
      assert IsPadded(s, 0);
    } else if |s| == 4 {
      LastFour(s);
    } else if |s| > 4 {
      Decodable(s[4..]);
      PaddedTail(s);
      if exists pad: nat :: IsPadded(s, pad) {
        forall pad: nat | IsPadded(s, pad) ensures DecodesTo(s, pad, DecodeQuads(s).value) {
          DecodedTail(s, pad);
        }
      }
    }
  }

  lemma PaddedTail(s: string)
    requires |s| > 4
    ensures forall pad: nat ::
      IsPadded(s, pad) <==> IsPadded(s[4..], pad) && FullGroup(s[0], s[1], s[2], s[3]).Some?
  {
    forall pad: nat
      ensures IsPadded(s, pad) <==> IsPadded(s[4..], pad) && FullGroup(s[0], s[1], s[2], s[3]).Some?
    {
      assert forall i :: 0 <= i < |s| - 4 ==> s[4..][i] == s[i + 4];
      assert forall i :: 4 <= i < |s| ==> s[i] == s[4..][i - 4];
      hide SextetOf;
    }
  }

  lemma DecodedTail(s: string, pad: nat)
    requires |s| > 4 && IsPadded(s, pad) && IsPadded(s[4..], pad) && FullGroup(s[0], s[1], s[2], s[3]).Some?
    requires DecodeQuads(s[4..]).Some? && DecodesTo(s[4..], pad, DecodeQuads(s[4..]).value)
    ensures DecodesTo(s, pad, DecodeQuads(s).value)
  {
    var g, rest := FullGroup(s[0], s[1], s[2], s[3]).value, DecodeQuads(s[4..]).value;
    var b := g + rest;
    FirstGroup(s, rest);
    DecodedOn(s);
    hide SixAt, FullGroup, SextetOf, DecodeQuads, IsPadded;
    forall q: nat ensures GroupOk(s, b, q) {
      if q > 0 {
        LaterGroup(s, g, rest, q - 1);
      }
    }
  }

  lemma DecodedOn(s: string)
    requires |s| > 4 && FullGroup(s[0], s[1], s[2], s[3]).Some? && DecodeQuads(s[4..]).Some?
    ensures DecodeQuads(s) == Some(FullGroup(s[0], s[1], s[2], s[3]).value + DecodeQuads(s[4..]).value)
  {
    hide FullGroup;
  }

  lemma FirstGroup(s: string, rest: seq<Byte>)
    requires |s| > 4 && FullGroup(s[0], s[1], s[2], s[3]).Some?
    ensures GroupOk(s, FullGroup(s[0], s[1], s[2], s[3]).value + rest, 0)
  {
  }

  lemma LaterGroup(s: string, g: seq<Byte>, rest: seq<Byte>, q: nat)
    requires |s| > 4 && |g| == 3 && GroupOk(s[4..], rest, q)
    ensures GroupOk(s, g + rest, q + 1)
  {
    Shifted(s, 4 * q);
    Shifted(s, 4 * q + 1);
    Shifted(s, 4 * q + 2);
    Shifted(s, 4 * q + 3);
    hide SixAt;
  }

  lemma Shifted(s: string, i: nat)
    requires |s| > 4
    ensures SixAt(s[4..], i) == SixAt(s, i + 4)
  {
  }

  lemma QuadRoundTrip(a: Byte, b: Byte, c: Byte)
    ensures Unquad(a / 4, a % 4 * 16 + b / 16, b % 16 * 4 + c / 64, c % 64) == (a, b, c)
  {
  }

  lemma {:induction false} BreakIsSkipped(s: string, c: char, t: string)
    requires c == '\n' || c == '\r'
    ensures WithoutBreaks(s + [c] + t) == WithoutBreaks(s + t)
  {
    if s == "" {
      assert s + [c] + t == [c] + t && s + t == t;
    } else {
      assert (s + [c] + t)[1..] == s[1..] + [c] + t && (s + t)[1..] == s[1..] + t;
      BreakIsSkipped(s[1..], c, t);
    }
  }

  /** Characters of encoded text are no line breaks. */
  predicate Unbroken(s: string) {
    forall c | c in s :: c != '\n' && c != '\r'
  }

  lemma {:induction false} UnbrokenStays(s: string)
    requires Unbroken(s)
    ensures WithoutBreaks(s) == s
  {
    if s != "" {
      assert s[0] in s;
      assert forall c | c in s[1..] :: c in s;
      UnbrokenStays(s[1..]);
      assert s == [s[0]] + s[1..];
    }
  }

  lemma CharsAreUnbroken(n: Sextet)
    ensures CharOf(n) != '\n' && CharOf(n) != '\r' && CharOf(n) != '='
  {
    assert SextetOf('\n') == SextetOf('\r') == SextetOf('=') == None;
  }

  lemma QuadUnbroken(a: Byte, b: Byte, c: Byte)
    ensures Unbroken(Quad(a, b, c))
  {
    CharsAreUnbroken(a / 4);
    CharsAreUnbroken(a % 4 * 16 + b / 16);
    CharsAreUnbroken(b % 16 * 4 + c / 64);
    CharsAreUnbroken(c % 64);
  }

  lemma {:induction false} EncodedIsUnbroken(bytes: seq<Byte>)
    ensures Unbroken(Base64Encode(bytes))
  {
    if |bytes| == 1 {
      QuadUnbroken(bytes[0], 0, 0);
    } else if |bytes| == 2 {
      QuadUnbroken(bytes[0], bytes[1], 0);
    } else if bytes != [] {
      QuadUnbroken(bytes[0], bytes[1], bytes[2]);
      EncodedIsUnbroken(bytes[3..]);
    }
  }

  lemma FullRoundTrip(a: Byte, b: Byte, c: Byte)
    ensures var q := Quad(a, b, c);
            FullGroup(q[0], q[1], q[2], q[3]) == Some([a, b, c]) && q == [q[0], q[1], q[2], q[3]] && q[3] != '='
  {
    QuadRoundTrip(a, b, c);
    CharsAreUnbroken(c % 64);
    hide Unquad, SextetOf;
  }

  lemma DecodeFour(w: char, x: char, y: char, z: char, tail: string)
    requires FullGroup(w, x, y, z).Some? && z != '='
    ensures DecodeQuads([w, x, y, z] + tail) ==
              if DecodeQuads(tail).None? then None else Some(FullGroup(w, x, y, z).value + DecodeQuads(tail).value)
  {
    hide FullGroup;
    var s := [w, x, y, z] + tail;
    assert s[0] == w && s[1] == x && s[2] == y && s[3] == z && s[4..] == tail;
    if tail == "" {
      assert DecodeQuads(tail) == Some([]);
      assert FullGroup(w, x, y, z).value + [] == FullGroup(w, x, y, z).value;
    }
  }

  lemma DecodeTwo(a: Byte, b: Byte)
    ensures var q := Quad(a, b, 0); DecodeQuads([q[0], q[1], q[2], '=']) == Some([a, b])
  {
    FullRoundTrip(a, b, 0);
    CharsAreUnbroken(b % 16 * 4);
    var q := Quad(a, b, 0);
    assert q[3] == 'A' && q[2] != '=';
    hide FullGroup, Quad, CharOf, SextetOf;
    assert [a, b, 0][..2] == [a, b];
  }

  lemma DecodeOne(a: Byte)
    ensures var q := Quad(a, 0, 0); DecodeQuads([q[0], q[1], '=', '=']) == Some([a])
  {
    FullRoundTrip(a, 0, 0);
    var q := Quad(a, 0, 0);
    assert q[2] == 'A' && q[3] == 'A';
    hide FullGroup, Quad, CharOf, SextetOf;
    assert [a, 0, 0][..1] == [a];
  }

  lemma {:induction false} QuadsRoundTrip(bytes: seq<Byte>)
    ensures DecodeQuads(Base64Encode(bytes)) == Some(bytes)
  {
    if bytes == [] {
      assert DecodeQuads("") == Some([]);
    } else {
      hide DecodeQuads, Quad, FullGroup;
      if |bytes| == 1 {
        DecodeOne(bytes[0]);
        assert bytes == [bytes[0]];
      } else if |bytes| == 2 {
        DecodeTwo(bytes[0], bytes[1]);
        assert bytes == [bytes[0], bytes[1]];
      } else {
        var q := Quad(bytes[0], bytes[1], bytes[2]);
        FullRoundTrip(bytes[0], bytes[1], bytes[2]);
        QuadsRoundTrip(bytes[3..]);
        DecodeFour(q[0], q[1], q[2], q[3], Base64Encode(bytes[3..]));
        assert bytes == [bytes[0], bytes[1], bytes[2]] + bytes[3..];
      }
    }
  }

  /** Decoding what was encoded gives back the bytes. */
  lemma Base64RoundTrip(bytes: seq<Byte>)
    ensures Base64Decode(Base64Encode(bytes)) == Some(bytes)
  {
    EncodedIsUnbroken(bytes);
    UnbrokenStays(Base64Encode(bytes));
    QuadsRoundTrip(bytes);
  }

  // ---- The alphabets and the order of the bits, on fixed texts ----

  /** A test vector of section 10 of RFC 4648. */
  lemma Foo()
    ensures Base64Encode([102, 111, 111]) == "Zm9v"
  {
  }

  lemma LastSextets()
    ensures Base64Encode([251, 255, 254]) == "+//+"
  {
  }

  lemma HexText()
    ensures Hex([0x23, 0xAF]) == "23af"
  {
    var digits := HEX_DIGITS;
    assert digits[2] == '2' && digits[3] == '3' && digits[10] == 'a' && digits[15] == 'f';
    var bytes: seq<Byte> := [0x23, 0xAF];
    assert bytes[1..] == [0xAF];
  }
}
