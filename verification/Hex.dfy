/** Base16 (section 8 of RFC 4648) as `encoding/hex` implements it: encoding writes lower-case
    digits; decoding accepts both cases and stops silently at the first invalid pair, because
    message/message.go discards the error of `hex.DecodeString`. */
module Hex {
  import opened Basics

  function Digit(n: nat): (c: char)
    requires n < 16
    ensures DigitValue(c) == Some(n) && IsLowerDigit(c)
  {
    if n < 10 then '0' + n as char else 'a' + (n - 10) as char
  }

  predicate IsLowerDigit(c: char) { '0' <= c <= '9' || 'a' <= c <= 'f' }

  function DigitValue(c: char): (r: Option<nat>)
    ensures r.Some? ==> r.value < 16
    ensures IsLowerDigit(c) ==> r.Some?
  {
    if '0' <= c <= '9' then Some((c - '0') as nat)
    else if 'a' <= c <= 'f' then Some((c - 'a') as nat + 10)
    else if 'A' <= c <= 'F' then Some((c - 'A') as nat + 10)
    else None
  }

  /** `hex.EncodeToString`. */
  function Encode(b: Bytes): (s: string) {
    if b == [] then "" else [Digit(b[0] / 16), Digit(b[0] % 16)] + Encode(b[1..])
  }

  /** The bytes that `hex.DecodeString` returns, with or without an error. */
  function Decode(s: string): (b: Bytes) {
    if |s| < 2 then []
    else
      match (DigitValue(s[0]), DigitValue(s[1]))
      case (Some(hi), Some(lo)) => [16 * hi + lo] + Decode(s[2..])
      case _ => []
  }

  /** The strings that encoding can produce: pairs of lower-case digits. */
  predicate Canonical(s: string) {
    |s| % 2 == 0 && forall i :: 0 <= i < |s| ==> IsLowerDigit(s[i])
  }

  lemma {:induction false} DecodeEncode(b: Bytes)
    ensures Decode(Encode(b)) == b && Canonical(Encode(b))
    decreases |b|
  {
    if b != [] {
      DecodeEncode(b[1..]);
      assert Encode(b)[2..] == Encode(b[1..]);
    }
  }

  lemma DigitInverse(c: char)
    requires IsLowerDigit(c)
    ensures Digit(DigitValue(c).value) == c
  {
  }

  lemma {:induction false} EncodeDecodeCanonical(s: string)
    requires Canonical(s)
    ensures Encode(Decode(s)) == s
    decreases |s|
  {
    if |s| >= 2 {
      var tail := s[2..];
      assert Canonical(tail);
      EncodeDecodeCanonical(tail);
      DigitInverse(s[0]);
      DigitInverse(s[1]);
      var b := Decode(s);
      assert b[1..] == Decode(tail);
      assert b[0] / 16 == DigitValue(s[0]).value && b[0] % 16 == DigitValue(s[1]).value;
      assert s == [s[0], s[1]] + tail;
    }
  }

  /** Decoding and encoding again gives a string back exactly when it is canonical. */
  lemma EncodeDecode(s: string)
    ensures Encode(Decode(s)) == s <==> Canonical(s)
  {
    DecodeEncode(Decode(s));
    if Canonical(s) {
      EncodeDecodeCanonical(s);
    }
  }
}
