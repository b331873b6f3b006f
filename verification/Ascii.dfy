/** ASCII digits, hex, case and delimiters in byte strings. */
module Ascii {
  import opened Common
  import opened Bytes

  function ParseHexNibble(b: byte): Option<nat> {
    if 48 <= b <= 57 then Some(b - 48)
    else if 97 <= b <= 102 then Some(b - 87)
    else if 65 <= b <= 70 then Some(b - 55)
    else None
  }

  predicate Without(s: Str, b: byte) { forall i :: 0 <= i < |s| ==> s[i] != b }

  predicate Digit(b: byte) { 48 <= b <= 57 }

  function DigitOf(b: byte): nat
    requires Digit(b)
  {
    b - 48
  }

  predicate Digits(s: Str) { forall i :: 0 <= i < |s| ==> Digit(s[i]) }

  /** The value of a run of decimal digits: the radix fold. */
  function DigitsValue(s: Str): nat
    requires Digits(s)
  {
    if s == [] then 0 else DigitsValue(s[..|s|-1]) * 10 + DigitOf(s[|s|-1])
  }

  function Lower(b: byte): byte { if 65 <= b <= 90 then b + 32 else b }

  function ToLower(s: Str): Str { seq(|s|, i requires 0 <= i < |s| => Lower(s[i])) }

  function Find(s: Str, b: byte): (i: nat)
    ensures i <= |s| && Without(s[..i], b) && (i < |s| ==> s[i] == b)
  {
    if s == [] || s[0] == b then 0
    else
      assert forall j :: 0 < j < 1 + Find(s[1..], b) ==> s[j] == s[1..][j-1];
      1 + Find(s[1..], b)
  }

  lemma {:induction false} FindAt(a: Str, b: byte, rest: Str)
    requires Without(a, b)
    ensures Find(a + [b] + rest, b) == |a|
  {
    if a != [] {
      FindAt(a[1..], b, rest);
      assert (a + [b] + rest)[1..] == a[1..] + [b] + rest;
    }
  }

  lemma {:induction false} FindNone(a: Str, b: byte)
    requires Without(a, b)
    ensures Find(a, b) == |a|
  {
    if a != [] { FindNone(a[1..], b); }
  }

  /** hex::decode: pairs of digits of either case. */
  function HexBytes(s: Str): Option<Str> {
    if s == [] then Some([])
    else if |s| == 1 || ParseHexNibble(s[0]).None? || ParseHexNibble(s[1]).None? then None
    else
      match HexBytes(s[2..])
      case None => None
      case Some(rest) => Some([ParseHexNibble(s[0]).value * 16 + ParseHexNibble(s[1]).value] + rest)
  }

  lemma NibbleCase(a: byte, b: byte)
    requires ParseHexNibble(a).Some? && ParseHexNibble(a) == ParseHexNibble(b)
    ensures Lower(a) == Lower(b)
  {
  }

  /** Two hex strings for the same bytes differ at most in case. */
  lemma {:induction false} SameBytesSameLower(a: Str, b: Str)
    requires HexBytes(a).Some? && HexBytes(a) == HexBytes(b)
    ensures ToLower(a) == ToLower(b)
  {
    if a != [] && b != [] {
      var x, y := HexBytes(a).value, HexBytes(b).value;
      assert x[0] == y[0] && x[1..] == y[1..];
      assert HexBytes(a[2..]).value == x[1..] && HexBytes(b[2..]).value == y[1..];
      SameBytesSameLower(a[2..], b[2..]);
      NibbleCase(a[0], b[0]);
      NibbleCase(a[1], b[1]);
      assert ToLower(a) == [Lower(a[0]), Lower(a[1])] + ToLower(a[2..]);
      assert ToLower(b) == [Lower(b[0]), Lower(b[1])] + ToLower(b[2..]);
    }
  }

  function HexDigit(n: nat): byte
    requires n < 16
  {
    if n < 10 then 48 + n else 87 + n
  }

  /** hex::encode: two lowercase digits a byte. */
  function HexOf(s: Str): (t: Str)
    ensures |t| == 2 * |s|
  {
    if s == [] then [] else [HexDigit(s[0] / 16), HexDigit(s[0] % 16)] + HexOf(s[1..])
  }

  lemma {:induction false} HexOfBytes(s: Str)
    ensures HexBytes(HexOf(s)) == Some(s) && ToLower(HexOf(s)) == HexOf(s)
  {
    if s != [] {
      HexOfBytes(s[1..]);
      var t := HexOf(s);
      assert t[2..] == HexOf(s[1..]) && s == [s[0]] + s[1..];
      assert ParseHexNibble(t[0]) == Some((s[0] / 16) as nat) && ParseHexNibble(t[1]) == Some((s[0] % 16) as nat);
      assert ToLower(t) == [Lower(t[0]), Lower(t[1])] + ToLower(t[2..]);
    }
  }

  lemma {:induction false} HexBytesLength(s: Str)
    requires HexBytes(s).Some?
    ensures |s| == 2 * |HexBytes(s).value|
  {
    if s != [] { HexBytesLength(s[2..]); }
  }
}
