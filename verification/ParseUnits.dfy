/** Decimal text to 18-decimal smallest units (src/swap.rs:41-60). */
module ParseUnits {
  import opened Common
  import opened Bytes
  import opened Ascii

  datatype UnitsError = NotDecimal | TooManyDecimals | Overflow

  const DECIMALS: nat := 18
  const DOT: byte := 46
  const ZERO: byte := 48

  function Pow10(k: nat): (p: nat)
    ensures p > 0
  {
    if k == 0 then 1 else 10 * Pow10(k - 1)
  }

  /** The first value that does not fit U256. */
  function U256Limit(): nat { Pow256(32) }

  // ----- trimming -----

  /** Of a UTF-8 string: the length of the white-space character it starts with, or 0. */
  function WhiteFront(s: Str): (n: nat)
    ensures n <= |s|
  {
    if s == [] then 0
    else if 9 <= s[0] <= 13 || s[0] == 32 then 1
    else if |s| >= 2 && White2(s[0], s[1]) then 2
    else if |s| >= 3 && White3(s[0], s[1], s[2]) then 3
    else 0
  }

  function WhiteBack(s: Str): (n: nat)
    ensures n <= |s|
  {
    var k := |s|;
    if s == [] then 0
    else if 9 <= s[k-1] <= 13 || s[k-1] == 32 then 1
    else if k >= 2 && White2(s[k-2], s[k-1]) then 2
    else if k >= 3 && White3(s[k-3], s[k-2], s[k-1]) then 3
    else 0
  }

  /** U+0085 and U+00A0. */
  predicate White2(a: byte, b: byte) { a == 0xC2 && (b == 0x85 || b == 0xA0) }

  /** U+1680, U+2000 to U+200A, U+2028, U+2029, U+202F, U+205F and U+3000. */
  predicate White3(a: byte, b: byte, c: byte) {
    || (a == 0xE1 && b == 0x9A && c == 0x80)
    || (a == 0xE2 && b == 0x80 && (0x80 <= c <= 0x8A || c == 0xA8 || c == 0xA9 || c == 0xAF))
    || (a == 0xE2 && b == 0x81 && c == 0x9F)
    || (a == 0xE3 && b == 0x80 && c == 0x80)
  }

  function Trim(s: Str): Str
    decreases |s|
  {
    if WhiteFront(s) > 0 then Trim(s[WhiteFront(s)..])
    else if WhiteBack(s) > 0 then Trim(s[..|s| - WhiteBack(s)])
    else s
  }

  // ----- what the text means -----

  /** At most one dot, digits on both sides of it, not both sides empty. */
  predicate IsDecimal(t: Str, whole: Str, frac: Str) {
    && Digits(whole) && Digits(frac)
    && !(whole == [] && frac == [])
    && ((t == whole && frac == []) || t == whole + [DOT] + frac)
  }

  function Times(a: nat, b: nat): nat { a * b }

  /** whole.frac times 10^18. */
  function Units(whole: Str, frac: Str): nat
    requires Digits(whole) && Digits(frac) && |frac| <= DECIMALS
  {
    Times(DigitsValue(whole), Pow10(DECIMALS)) + Times(DigitsValue(frac), Pow10(DECIMALS - |frac|))
  }

  ghost predicate Denotes(t: Str, n: nat) {
    exists whole, frac :: IsDecimal(t, whole, frac) && |frac| <= DECIMALS && n == Units(whole, frac)
  }

  ghost predicate TooPrecise(t: Str) { exists whole, frac :: IsDecimal(t, whole, frac) && |frac| > DECIMALS }

  // ----- arithmetic of digit runs -----

  lemma {:induction false} Pow10Adds(a: nat, b: nat)
    ensures Pow10(a + b) == Pow10(a) * Pow10(b)
  {
    if a > 0 { Pow10Adds(a - 1, b); }
  }

  lemma {:induction false} DigitsAppend(a: Str, b: Str)
    requires Digits(a) && Digits(b)
    ensures Digits(a + b) && DigitsValue(a + b) == DigitsValue(a) * Pow10(|b|) + DigitsValue(b)
  {
    if b == [] {
      assert a + b == a;
    } else {
      var c, d := b[..|b|-1], DigitOf(b[|b|-1]);
      DigitsAppend(a, c);
      assert (a + b)[..|a + b|-1] == a + c && Pow10(|b|) == 10 * Pow10(|c|);
      TimesTen(DigitsValue(a), Pow10(|c|), DigitsValue(c), d);
    }
  }

  lemma TimesTen(x: nat, p: nat, y: nat, d: nat)
    ensures (x * p + y) * 10 + d == x * (10 * p) + (y * 10 + d)
  {
  }

  function Zeros(k: nat): Str { seq(k, i => ZERO) }

  lemma {:induction false} ZerosValue(k: nat)
    ensures Digits(Zeros(k)) && DigitsValue(Zeros(k)) == 0
  {
    if k > 0 {
      ZerosValue(k - 1);
      assert Zeros(k)[..k-1] == Zeros(k - 1);
    }
  }

  /** The padded digit string reads as the scaled value. */
  lemma PaddedValue(whole: Str, frac: Str)
    requires Digits(whole) && Digits(frac) && |frac| <= DECIMALS
    ensures Digits(whole + frac + Zeros(DECIMALS - |frac|))
    ensures DigitsValue(whole + frac + Zeros(DECIMALS - |frac|)) == Units(whole, frac)
  {
    var pad := DECIMALS - |frac|;
    DigitsAppend(whole, frac);
    ZerosValue(pad);
    DigitsAppend(whole + frac, Zeros(pad));
    Pow10Adds(|frac|, pad);
    Distribute(DigitsValue(whole), Pow10(|frac|), DigitsValue(frac), Pow10(pad));
  }

  lemma Distribute(a: nat, p: nat, b: nat, q: nat)
    ensures (a * p + b) * q == a * (p * q) + b * q
  {
  }

  /** The split at the first dot is the only reading. */
  lemma OneReading(t: Str, whole: Str, frac: Str)
    requires IsDecimal(t, whole, frac)
    ensures var i := Find(t, DOT); whole == t[..i] && frac == if i == |t| then [] else t[i + 1..]
  {
    if t == whole { FindNone(whole, DOT); }
    if t == whole + [DOT] + frac {
      FindAt(whole, DOT, frac);
      assert t[..|whole|] == whole && t[|whole| + 1..] == frac;
    }
  }

  /** U256::from_str_radix on digits, with its overflow error. */
  method FromRadix10(s: Str) returns (r: Result<nat, UnitsError>)
    requires Digits(s)
    ensures r == if DigitsValue(s) < U256Limit() then Ok(DigitsValue(s)) else Err(Overflow)
  {
    hide DigitsValue, Pow256;
    var acc := 0;
    NoDigits(s);
    for i := 0 to |s|
      invariant Digits(s[..i]) && acc == DigitsValue(s[..i]) < U256Limit()
    {
      MoreDigits(s, i);
      acc := acc * 10 + DigitOf(s[i]);
      if acc >= U256Limit() {
        LongerIsLarger(s, i + 1);
        return Err(Overflow);
      }
    }
    assert s[..|s|] == s;
    return Ok(acc);
  }

  lemma NoDigits(s: Str)
    ensures DigitsValue(s[..0]) == 0 < U256Limit()
  {
  }

  lemma MoreDigits(s: Str, i: nat)
    requires Digits(s) && i < |s|
    ensures Digits(s[..i + 1]) && DigitsValue(s[..i + 1]) == DigitsValue(s[..i]) * 10 + DigitOf(s[i])
  {
    assert s[..i + 1][..i] == s[..i];
  }

  lemma {:induction false} LongerIsLarger(s: Str, i: nat)
    requires Digits(s) && i <= |s|
    ensures DigitsValue(s[..i]) <= DigitsValue(s)
    decreases |s| - i
  {
    if i < |s| {
      MoreDigits(s, i);
      LongerIsLarger(s, i + 1);
    } else {
      assert s[..i] == s;
    }
  }

  /** Exact: the result is n precisely when the trimmed text denotes n and n fits 256 bits. */
  method ParseUnits18(s: Str) returns (r: Result<nat, UnitsError>)
    ensures forall n: nat :: r == Ok(n) <==> Denotes(Trim(s), n) && n < U256Limit()
    ensures r == Err(Overflow) ==> exists n: nat :: Denotes(Trim(s), n) && n >= U256Limit()
    ensures r == Err(TooManyDecimals) <==> TooPrecise(Trim(s))
  {
    hide Pow10, Pow256, DigitsValue, Trim, Units;
    var t := Trim(s);
    var i := Find(t, DOT);
    var whole := t[..i];
    var frac := if i == |t| then [] else t[i + 1..];
    forall w, f | IsDecimal(t, w, f) ensures w == whole && f == frac { OneReading(t, w, f); }
    if (whole == [] && frac == []) || !Digits(whole) || !Digits(frac) { return Err(NotDecimal); }
    assert IsDecimal(t, whole, frac) by {
      if i < |t| { assert t == t[..i] + [t[i]] + t[i + 1..]; } else { assert t == t[..i]; }
    }
    assert |frac| > DECIMALS <==> TooPrecise(t);
    if |frac| > DECIMALS { return Err(TooManyDecimals); }
    var combined := whole;
    combined := combined + frac;
    for k := |frac| to DECIMALS
      invariant combined == whole + frac + Zeros(k - |frac|)
    {
      assert Zeros(k - |frac|) + [ZERO] == Zeros(k + 1 - |frac|);
      combined := combined + [ZERO];
    }
    PaddedValue(whole, frac);
    assert Denotes(t, Units(whole, frac));
    r := FromRadix10(combined);
  }
}
