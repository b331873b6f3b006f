/** Valid UTF-8 byte strings, as Rust's `String` holds them (section 3 of RFC 3629). */
module Utf8 {
  import opened Bytes

  predicate Cont(b: byte) { 0x80 <= b <= 0xBF }

  /** The length of the well-formed sequence at the front of `s`, or 0. */
  function FrontLen(s: Str): (n: nat)
    requires s != []
    ensures n <= 4 && n <= |s|
  {
    var a := s[0];
    if a <= 0x7F then 1
    else if 0xC2 <= a <= 0xDF && |s| >= 2 && Cont(s[1]) then 2
    else if 0xE0 <= a <= 0xEF && |s| >= 3 && Cont(s[1]) && Cont(s[2])
            && (a == 0xE0 ==> s[1] >= 0xA0) && (a == 0xED ==> s[1] <= 0x9F) then 3
    else if 0xF0 <= a <= 0xF4 && |s| >= 4 && Cont(s[1]) && Cont(s[2]) && Cont(s[3])
            && (a == 0xF0 ==> s[1] >= 0x90) && (a == 0xF4 ==> s[1] <= 0x8F) then 4
    else 0
  }

  predicate ValidUtf8(s: Str)
    decreases |s|
  {
    s == [] || (FrontLen(s) > 0 && ValidUtf8(s[FrontLen(s)..]))
  }

  type Text = s: Str | ValidUtf8(s)

  lemma {:induction false} AsciiIsUtf8(s: Str)
    requires forall i :: 0 <= i < |s| ==> s[i] <= 0x7F
    ensures ValidUtf8(s)
  {
    if s != [] { AsciiIsUtf8(s[1..]); }
  }
}
