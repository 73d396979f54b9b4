/**
 * Byte strings and their truncation. Validity is the grammar of section 4 of RFC 3629.
 */
module Utf8 {
  type Byte = b: int | 0 <= b < 256
  type Str = seq<Byte>

  predicate Tail(b: Byte) { 0x80 <= b <= 0xBF }

  /** The second byte of a character is restricted by the first. */
  predicate Second(first: Byte, b: Byte) {
    if first == 0xE0 then 0xA0 <= b <= 0xBF
    else if first == 0xED then 0x80 <= b <= 0x9F
    else if first == 0xF0 then 0x90 <= b <= 0xBF
    else if first == 0xF4 then 0x80 <= b <= 0x8F
    else Tail(b)
  }

  /** The length of the well-formed character that `s` starts with, or 0 if there is none. */
  function Width(s: Str): (w: nat)
    ensures w <= |s| && w <= 4
  {
    if s == [] then 0
    else if s[0] <= 0x7F then 1
    else if 0xC2 <= s[0] <= 0xDF then if |s| >= 2 && Tail(s[1]) then 2 else 0
    else if 0xE0 <= s[0] <= 0xEF then if |s| >= 3 && Second(s[0], s[1]) && Tail(s[2]) then 3 else 0
    else if 0xF0 <= s[0] <= 0xF4 then if |s| >= 4 && Second(s[0], s[1]) && Tail(s[2]) && Tail(s[3]) then 4 else 0
    else 0
  }

  predicate ValidString(s: Str) {
    s == [] || (Width(s) > 0 && ValidString(s[Width(s)..]))
  }

  // ---------- validity means: the encoding of a sequence of Unicode scalar values ----------

  type Scalar = c: int | 0 <= c < 0xD800 || 0xE000 <= c < 0x110000

  function EncodeScalar(c: Scalar): (s: Str)
    ensures 1 <= |s| <= 4
  {
    if c < 0x80 then [c]
    else if c < 0x800 then [0xC0 + c / 64, 0x80 + c % 64]
    else if c < 0x10000 then [0xE0 + c / 64 / 64, 0x80 + c / 64 % 64, 0x80 + c % 64]
    else [0xF0 + c / 64 / 64 / 64, 0x80 + c / 64 / 64 % 64, 0x80 + c / 64 % 64, 0x80 + c % 64]
  }

  function Encode(scalars: seq<Scalar>): Str {
    if scalars == [] then [] else EncodeScalar(scalars[0]) + Encode(scalars[1..])
  }

  /** The scalar value of the character that `s` starts with. */
  function First(s: Str): (c: Scalar)
    requires Width(s) > 0
    ensures EncodeScalar(c) == s[..Width(s)]
  {
    var a: int := s[0];
    if Width(s) == 1 then a
    else if Width(s) == 2 then
      var x := Append6(a - 0xC0, s[1]);
      assert EncodeScalar(x)[0] == s[0] && EncodeScalar(x)[1] == s[1];
      x
    else if Width(s) == 3 then
      var x := Append6(Append6(a - 0xE0, s[1]), s[2]);
      assert EncodeScalar(x)[0] == s[0] && EncodeScalar(x)[1] == s[1] && EncodeScalar(x)[2] == s[2];
      x
    else
      var x := Append6(Append6(Append6(a - 0xF0, s[1]), s[2]), s[3]);
      assert EncodeScalar(x)[0] == s[0] && EncodeScalar(x)[1] == s[1] && EncodeScalar(x)[2] == s[2]
        && EncodeScalar(x)[3] == s[3];
      x
  }

  /** Appends the six payload bits of a tail byte. */
  function Append6(high: nat, tail: Byte): (x: nat)
    requires Tail(tail)
    ensures x / 64 == high && 0x80 + x % 64 == tail
    ensures 64 * high <= x < 64 * high + 64
  {
    var low: nat := tail as int - 0x80;
    high * 64 + low
  }

  lemma EncodedWidth(c: Scalar, rest: Str)
    ensures Width(EncodeScalar(c) + rest) == |EncodeScalar(c)|
  {
  }

  lemma {:induction false} EncodedIsValid(scalars: seq<Scalar>)
    ensures ValidString(Encode(scalars))
  {
    if scalars != [] {
      EncodedIsValid(scalars[1..]);
      EncodedWidth(scalars[0], Encode(scalars[1..]));
      assert Encode(scalars)[|EncodeScalar(scalars[0])|..] == Encode(scalars[1..]);
    }
  }

  lemma {:induction false} ValidIsEncoded(s: Str) returns (scalars: seq<Scalar>)
    requires ValidString(s)
    ensures Encode(scalars) == s
  {
    hide EncodeScalar, Width;
    scalars := [];
    if s != [] {
      var rest := ValidIsEncoded(s[Width(s)..]);
      scalars := [First(s)] + rest;
      assert s == s[..Width(s)] + s[Width(s)..];
    }
  }

  lemma ValidIffEncoded(s: Str)
    ensures ValidString(s) <==> exists scalars :: Encode(scalars) == s
  {
    if ValidString(s) { var scalars := ValidIsEncoded(s); }
    forall scalars | Encode(scalars) == s ensures ValidString(s) { EncodedIsValid(scalars); }
  }

  // ---------- truncation ----------

  /** The longest valid prefix of at most `limit` bytes. */
  function Cut(value: Str, limit: nat): (cut: nat)
    requires limit <= |value|
    ensures cut <= limit
  {
    if limit == 0 || ValidString(value[..limit]) then limit else Cut(value, limit - 1)
  }

  function Truncated(value: Str, maxBytes: int): Str {
    if maxBytes < 0 || |value| <= maxBytes then value else value[..Cut(value, maxBytes)]
  }

  /** Whether a limit cuts the string; a negative limit never does. */
  predicate Cuts(value: Str, maxBytes: int) {
    0 <= maxBytes < |value|
  }

  lemma {:induction false} CutIsLongest(value: Str, limit: nat)
    requires limit <= |value|
    ensures ValidString(value[..Cut(value, limit)])
    ensures forall k :: Cut(value, limit) < k <= limit ==> !ValidString(value[..k])
  {
    if !(limit == 0 || ValidString(value[..limit])) { CutIsLongest(value, limit - 1); }
  }

  lemma CutUnique(value: Str, limit: nat, cut: nat)
    requires cut <= limit <= |value| && ValidString(value[..cut])
    requires forall k :: cut < k <= limit ==> !ValidString(value[..k])
    ensures Cut(value, limit) == cut
  {
    CutIsLongest(value, limit);
  }

  /** A character is recognised from its own bytes. */
  lemma WidthOfPrefix(s: Str, k: nat)
    requires k <= |s| && 0 < Width(s) <= k
    ensures Width(s[..k]) == Width(s)
  {
  }

  /** Valid strings have a character boundary within the last three bytes before any point. */
  lemma {:induction false} BoundaryNear(s: Str, limit: nat) returns (cut: nat)
    requires ValidString(s) && limit <= |s|
    ensures cut <= limit < cut + 4 && ValidString(s[..cut])
    decreases |s|
  {
    if s == [] || limit < Width(s) {
      cut := 0;
    } else {
      var w := Width(s);
      cut := BoundaryNear(s[w..], limit - w);
      cut := w + cut;
      WidthOfPrefix(s, cut);
      assert s[..cut][w..] == s[w..][..cut - w];
    }
  }

  /** Truncating a valid string loses at most three bytes below the limit. */
  lemma ValidLosesAtMostThree(value: Str, limit: nat)
    requires ValidString(value) && limit <= |value|
    ensures limit <= Cut(value, limit) + 3
  {
    var near := BoundaryNear(value, limit);
    CutIsLongest(value, limit);
  }

  /** Truncating to one limit and then to a smaller one is truncating to the smaller one. */
  lemma TruncateTwice(value: Str, first: int, second: int)
    requires 0 <= second <= first
    ensures Truncated(Truncated(value, first), second) == Truncated(value, second)
  {
    if first < |value| {
      var once := Truncated(value, first);
      CutIsLongest(value, first);
      forall k | 0 <= k <= |once| ensures once[..k] == value[..k] {}
      if |once| <= second {
        CutUnique(value, second, |once|);
      } else {
        CutIsLongest(once, second);
        CutUnique(value, second, Cut(once, second));
      }
    }
  }

  /** Truncation to nothing, and of nothing. */
  lemma TruncatedFits(value: Str, maxBytes: nat)
    ensures |Truncated(value, maxBytes)| <= maxBytes
    ensures Truncated(value, maxBytes) <= value
    ensures ValidString(value) ==> ValidString(Truncated(value, maxBytes))
    ensures Cuts(value, maxBytes) && ValidString(value) ==> maxBytes <= |Truncated(value, maxBytes)| + 3
  {
    if Cuts(value, maxBytes) {
      CutIsLongest(value, maxBytes);
      if ValidString(value) { ValidLosesAtMostThree(value, maxBytes); }
    }
  }

  method TruncateString(value: Str, maxBytes: int) returns (prefix: Str, truncated: bool)
    ensures prefix == Truncated(value, maxBytes) && truncated == Cuts(value, maxBytes)
    ensures truncated ==>
      && prefix <= value && |prefix| <= maxBytes && ValidString(prefix)
      && forall k :: |prefix| < k <= maxBytes ==> !ValidString(value[..k])
    ensures !truncated ==> prefix == value
  {
    if maxBytes < 0 || |value| <= maxBytes {
      return value, false;
    }
    if maxBytes == 0 {
      return [], value != [];
    }
    var cut := maxBytes;
    while cut > 0 && !ValidString(value[..cut])
      invariant 0 <= cut <= maxBytes
      invariant Cut(value, cut) == Cut(value, maxBytes)
    {
      cut := cut - 1;
    }
    CutIsLongest(value, maxBytes);
    return value[..cut], true;
  }

  /** Written-out text as bytes. */
  function Ascii(text: string): (s: Str)
    ensures |s| == |text|
  {
    seq(|text|, i requires 0 <= i < |text| => text[i] as int % 128)
  }
}
