/**
 rqlite's blobs (internal/server/rqlite.go): the text X'hex' in a parameter, and a result as an array
 of byte values.
 */
module RqliteValues {
  import opened Encoding
  import opened QueryText
  import opened Values
  import opened Wrappers

  function TrimRight(s: string): string {
    if s != "" && IsSpace(s[|s| - 1]) then TrimRight(s[..|s| - 1]) else s
  }

  function TrimSpace(s: string): string {
    TrimRight(TrimLeft(s))
  }

  /** rqliteHexBlobString: the base64 text of the blob, or None for text that is no blob. */
  function HexBlobString(value: string): Option<string> {
    var t := TrimSpace(value);
    if |t| < 3 || (t[0] != 'x' && t[0] != 'X') || t[1] != '\'' || t[|t| - 1] != '\'' then None
    else
      var decoded := HexDecode(t[2..|t| - 1]);
      if decoded.None? then None else Some(Base64Encode(decoded.value))
  }

  /** decodeBlobArray; nil for text that is no base64. */
  function BlobArray(encoded: string): Option<seq<Byte>> {
    Base64Decode(encoded)
  }

  lemma {:induction false} TrimsLeft(l: string, s: string)
    requires AllSpace(l) && s != "" && !IsSpace(s[0])
    ensures TrimLeft(l + s) == s
  {
    if l == "" {
      assert l + s == s;
    } else {
      assert l[0] in l && forall c | c in l[1..] :: c in l;
      assert (l + s)[0] == l[0] && (l + s)[1..] == l[1..] + s;
      TrimsLeft(l[1..], s);
    }
  }

  lemma {:induction false} TrimsRight(s: string, r: string)
    requires AllSpace(r) && s != "" && !IsSpace(s[|s| - 1])
    ensures TrimRight(s + r) == s
  {
    if r == "" {
      assert s + r == s;
    } else {
      var n := |s + r| - 1;
      assert r[|r| - 1] in r && forall c | c in r[..|r| - 1] :: c in r;
      assert (s + r)[n] == r[|r| - 1] && (s + r)[..n] == s + r[..|r| - 1];
      TrimsRight(s, r[..|r| - 1]);
    }
  }

  lemma TrimsBoth(l: string, t: string, r: string)
    requires AllSpace(l) && AllSpace(r) && t != "" && !IsSpace(t[0]) && !IsSpace(t[|t| - 1])
    ensures TrimSpace(l + t + r) == t
  {
    assert l + t + r == l + (t + r) && (t + r)[0] == t[0];
    TrimsLeft(l, t + r);
    TrimsRight(t, r);
    hide TrimLeft, TrimRight;
  }

  /** The text of a blob without the space around it. */
  lemma HexBlobBare(x: char, hex: string)
    requires x == 'x' || x == 'X'
    ensures var t := [x, '\''] + hex + "'";
            && |t| == |hex| + 3 && t[0] == x && t[1] == '\'' && t[|t| - 1] == '\'' && t[2..|t| - 1] == hex
            && !IsSpace(t[0]) && !IsSpace(t[|t| - 1])
  {
  }

  lemma HexBlobFound(l: string, x: char, hex: string, r: string)
    requires AllSpace(l) && AllSpace(r) && (x == 'x' || x == 'X') && HexDecode(hex).Some?
    ensures HexBlobString(l + ([x, '\''] + hex + "'") + r) == Some(Base64Encode(HexDecode(hex).value))
  {
    hide HexDecode, Base64Encode, TrimSpace, IsSpace;
    var t := [x, '\''] + hex + "'";
    HexBlobBare(x, hex);
    TrimsBoth(l, t, r);
  }

  lemma {:induction false} TrimmedRight(s: string) returns (r: string)
    ensures s == TrimRight(s) + r && AllSpace(r)
  {
    if s != "" && IsSpace(s[|s| - 1]) {
      r := TrimmedRight(s[..|s| - 1]);
      assert s == s[..|s| - 1] + [s[|s| - 1]];
      r := r + [s[|s| - 1]];
    } else {
      r := "";
      assert s == s + r;
    }
  }

  lemma TrimmedLeft(s: string) returns (l: string)
    ensures s == l + TrimLeft(s) && AllSpace(l)
  {
    var k :| 0 <= k <= |s| && TrimLeft(s) == s[k..] && forall i :: 0 <= i < k ==> IsSpace(s[i]);
    l := s[..k];
    hide IsSpace, TrimLeft;
  }

  lemma Trimmed(s: string) returns (l: string, r: string)
    ensures s == l + TrimSpace(s) + r && AllSpace(l) && AllSpace(r)
  {
    l := TrimmedLeft(s);
    r := TrimmedRight(TrimLeft(s));
    hide TrimLeft, TrimRight, AllSpace;
    Regroup(l, TrimRight(TrimLeft(s)), r);
  }

  lemma Regroup(a: string, b: string, c: string)
    ensures a + b + c == a + (b + c)
  {
  }

  ghost predicate IsHexBlob(value: string, l: string, x: char, hex: string, r: string) {
    && AllSpace(l) && AllSpace(r) && (x == 'x' || x == 'X') && IsHex(hex)
    && value == l + ([x, '\''] + hex + "'") + r
  }

  /** Which texts are blobs: exactly X'hex' with an even number of digits, x and the digits in either case,
      and space around it. */
  lemma HexBlobExactly(value: string)
    ensures HexBlobString(value).Some? <==> exists l, x, hex, r :: IsHexBlob(value, l, x, hex, r)
  {
    if HexBlobString(value).Some? {
      var l, x, hex, r := HexBlobParts(value);
    }
    hide HexBlobString, HexDecode, IsHex;
    if l, x, hex, r :| IsHexBlob(value, l, x, hex, r) {
      HexDecodable(hex);
      HexBlobFound(l, x, hex, r);
    }
  }

  lemma HexBlobParts(value: string) returns (l: string, x: char, hex: string, r: string)
    requires HexBlobString(value).Some?
    ensures IsHexBlob(value, l, x, hex, r)
  {
    l, r := Trimmed(value);
    var t := TrimSpace(value);
    x, hex := t[0], t[2..|t| - 1];
    HexDecodable(hex);
    hide TrimSpace, HexDecode, IsHex, AllSpace;
    assert t == [x, '\''] + hex + "'";
  }

  /** Text that is no base64 is no array. */
  lemma BlobArrayExactly(encoded: string)
    ensures BlobArray(encoded).Some? <==> exists pad: nat :: IsPadded(WithoutBreaks(encoded), pad)
    ensures forall pad: nat :: IsPadded(WithoutBreaks(encoded), pad) ==>
      DecodesTo(WithoutBreaks(encoded), pad, BlobArray(encoded).value)
  {
    Decodable(WithoutBreaks(encoded));
  }

  /** Two texts with the same digits up to case. */
  predicate SameDigits(a: string, b: string) {
    |a| == |b| && forall i :: 0 <= i < |a| ==> HexValue(a[i]).Some? && HexValue(a[i]) == HexValue(b[i])
  }

  lemma {:induction false} CaseIsIgnored(a: string, b: string)
    requires SameDigits(a, b)
    ensures HexDecode(a) == HexDecode(b)
  {
    if |a| > 1 {
      assert forall i :: 0 <= i < |a| - 2 ==> a[2..][i] == a[i + 2] && b[2..][i] == b[i + 2];
      CaseIsIgnored(a[2..], b[2..]);
    }
  }

  /** Every blob can be sent as X'hex', with x and each digit in either case and space around it, and
      arrives, through base64, with its bytes; without bytes it arrives as NULL. */
  lemma HexBlobEcho(l: string, x: char, hex: string, bytes: seq<Byte>, r: string)
    requires AllSpace(l) && AllSpace(r) && (x == 'x' || x == 'X') && SameDigits(hex, Hex(bytes))
    ensures HexBlobString(l + ([x, '\''] + hex + "'") + r) == Some(Base64Encode(bytes))
    ensures BlobArray(Base64Encode(bytes)) == Some(bytes)
    ensures Converted(UNSET.(blob := Some(Base64Encode(bytes)))) == Ok(Blob(bytes))
    ensures Echo(Blob(bytes)) == if bytes == [] then UNSET.(isNull := Some(true))
                                 else UNSET.(blob := Some(Base64Encode(bytes)))
  {
    hide Hex, HexDecode, Base64Encode, Base64Decode, HexBlobString, SameDigits;
    HexRoundTrip(bytes);
    CaseIsIgnored(hex, Hex(bytes));
    Base64RoundTrip(bytes);
    HexBlobFound(l, x, hex, r);
  }
}
