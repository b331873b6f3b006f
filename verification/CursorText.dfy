/** The opaque text form of a cursor: 44 bytes in unpadded base64url (section 5 of RFC 4648). */
module CursorText {
  import opened Common
  import opened Bytes
  import opened HtlcKeys

  type Sextet = x: int | 0 <= x < 64

  /** The base64url alphabet: A-Z a-z 0-9 - _ */
  function Letter(v: Sextet): (c: byte) {
    if v < 26 then 65 + v
    else if v < 52 then 97 + (v - 26)
    else if v < 62 then 48 + (v - 52)
    else if v == 62 then 45
    else 95
  }

  predicate IsLetter(c: byte) { 65 <= c <= 90 || 97 <= c <= 122 || 48 <= c <= 57 || c == 45 || c == 95 }

  function Value(c: byte): (v: Sextet)
    requires IsLetter(c)
  {
    if 65 <= c <= 90 then c - 65
    else if 97 <= c <= 122 then c - 97 + 26
    else if 48 <= c <= 57 then c - 48 + 52
    else if c == 45 then 62
    else 63
  }

  lemma LetterValue(v: Sextet)
    ensures IsLetter(Letter(v)) && Value(Letter(v)) == v
  {
  }

  lemma ValueLetter(c: byte)
    requires IsLetter(c)
    ensures Letter(Value(c)) == c
  {
  }

  // ----- one group: bytes x y z against sextets a b c d -----

  function A(x: byte): Sextet { x / 4 }
  function B(x: byte, y: byte): Sextet { x % 4 * 16 + y / 16 }
  function C(y: byte, z: byte): Sextet { y % 16 * 4 + z / 64 }
  function D(z: byte): Sextet { z % 64 }

  function X(a: Sextet, b: Sextet): byte { var (p: int, q: int) := (a, b); p * 4 + q / 16 }
  function Y(b: Sextet, c: Sextet): byte { var (p: int, q: int) := (b, c); p % 16 * 16 + q / 4 }
  function Z(c: Sextet, d: Sextet): byte { var (p: int, q: int) := (c, d); p % 4 * 64 + q }

  lemma Joined(x: byte, y: byte, z: byte)
    ensures X(A(x), B(x, y)) == x && Y(B(x, y), C(y, z)) == y && Z(C(y, z), D(z)) == z
  {
  }

  lemma Parted(a: Sextet, b: Sextet, c: Sextet, d: Sextet)
    ensures A(X(a, b)) == a && B(X(a, b), Y(b, c)) == b && C(Y(b, c), Z(c, d)) == c && D(Z(c, d)) == d
    ensures (b % 16 == 0 ==> B(X(a, b), 0) == b) && (c % 4 == 0 ==> C(Y(b, c), 0) == c)
  {
  }

  /** Three bytes as four letters. */
  function Quad(x: byte, y: byte, z: byte): Str { [Letter(A(x)), Letter(B(x, y)), Letter(C(y, z)), Letter(D(z))] }

  function UnQuad(t: Str): (r: Option<Str>)
    requires |t| == 4
  {
    if IsLetter(t[0]) && IsLetter(t[1]) && IsLetter(t[2]) && IsLetter(t[3]) then
      var a, b, c, d := Value(t[0]), Value(t[1]), Value(t[2]), Value(t[3]);
      Some([X(a, b), Y(b, c), Z(c, d)])
    else None
  }

  /** The last one or two bytes, without padding. */
  function Tail(s: Str): Str
    requires |s| < 3
  {
    if |s| == 0 then []
    else if |s| == 1 then [Letter(A(s[0])), Letter(B(s[0], 0))]
    else [Letter(A(s[0])), Letter(B(s[0], s[1])), Letter(C(s[1], 0))]
  }

  function UnTail(t: Str): (r: Option<Str>)
    requires |t| < 4
  {
    if |t| == 0 then Some([])
    else if |t| == 1 || !IsLetter(t[0]) || !IsLetter(t[1]) then None
    else
      var a, b := Value(t[0]), Value(t[1]);
      if |t| == 2 then (if b % 16 == 0 then Some([X(a, b)]) else None)
      else if !IsLetter(t[2]) || Value(t[2]) % 4 != 0 then None
      else Some([X(a, b), Y(b, Value(t[2]))])
  }

  lemma UnQuadQuad(x: byte, y: byte, z: byte)
    ensures UnQuad(Quad(x, y, z)) == Some([x, y, z])
  {
    hide Letter, Value, IsLetter, A, B, C, D, X, Y, Z;
    LetterValue(A(x)); LetterValue(B(x, y)); LetterValue(C(y, z)); LetterValue(D(z));
    Joined(x, y, z);
  }

  lemma QuadUnQuad(t: Str)
    requires |t| == 4 && UnQuad(t).Some?
    ensures var s := UnQuad(t).value; |s| == 3 && Quad(s[0], s[1], s[2]) == t
  {
    hide Letter, Value, IsLetter, A, B, C, D, X, Y, Z;
    ValueLetter(t[0]); ValueLetter(t[1]); ValueLetter(t[2]); ValueLetter(t[3]);
    Parted(Value(t[0]), Value(t[1]), Value(t[2]), Value(t[3]));
  }

  lemma UnTailTail(s: Str)
    requires |s| < 3
    ensures UnTail(Tail(s)) == Some(s)
  {
    hide Letter, Value, IsLetter, X, Y, Z;
    if |s| > 0 {
      var y: byte := if |s| == 1 then 0 else s[1];
      LetterValue(A(s[0])); LetterValue(B(s[0], y)); LetterValue(C(y, 0));
      Joined(s[0], y, 0);
      assert s == if |s| == 1 then [s[0]] else [s[0], y];
    }
  }

  lemma TailUnTail(t: Str)
    requires |t| < 4 && UnTail(t).Some?
    ensures |UnTail(t).value| < 3 && Tail(UnTail(t).value) == t
  {
    hide Letter, Value, IsLetter, A, B, C, D, X, Y, Z;
    if |t| >= 2 {
      ValueLetter(t[0]); ValueLetter(t[1]);
      if |t| == 3 { ValueLetter(t[2]); }
      Parted(Value(t[0]), Value(t[1]), if |t| == 3 then Value(t[2]) else 0, 0);
    }
  }

  // ----- whole strings -----

  function Encode(s: Str): (t: Str)
    decreases |s|
  {
    if |s| < 3 then Tail(s) else Quad(s[0], s[1], s[2]) + Encode(s[3..])
  }

  /** Strict decoding: no padding, no stray letter, no non-zero trailing bits. */
  function Decode(t: Str): (r: Option<Str>)
    decreases |t|
  {
    if |t| < 4 then UnTail(t)
    else
      match (UnQuad(t[..4]), Decode(t[4..]))
      case (Some(s), Some(rest)) => Some(s + rest)
      case _ => None
  }

  lemma {:induction false} DecodeEncode(s: Str)
    ensures Decode(Encode(s)) == Some(s)
    decreases |s|
  {
    hide UnTail, UnQuad;
    if |s| < 3 {
      UnTailTail(s);
    } else {
      DecodeEncode(s[3..]);
      UnQuadQuad(s[0], s[1], s[2]);
      assert Encode(s)[..4] == Quad(s[0], s[1], s[2]) && Encode(s)[4..] == Encode(s[3..]);
      assert s == [s[0], s[1], s[2]] + s[3..];
    }
  }

  lemma {:induction false} EncodeDecode(t: Str)
    requires Decode(t).Some?
    ensures Encode(Decode(t).value) == t
    decreases |t|
  {
    if |t| < 4 {
      TailUnTail(t);
    } else {
      EncodeDecode(t[4..]);
      QuadUnQuad(t[..4]);
      var s := Decode(t).value;
      assert s[..3] == UnQuad(t[..4]).value && s[3..] == Decode(t[4..]).value;
      assert t == t[..4] + t[4..];
    }
  }

  datatype CursorError = BadBase64 | BadLength(n: nat)

  function CursorEncode(c: Cursor): Str { Encode(CursorBytes(c)) }

  function CursorDecode(t: Str): Result<Cursor, CursorError> {
    match Decode(t)
    case None => Err(BadBase64)
    case Some(s) => if |s| != 44 then Err(BadLength(|s|)) else Ok(CursorOf(s))
  }

  /** decode(encode(c)) == c, and every accepted text is the one text of its cursor. */
  lemma CursorDecodeEncode(c: Cursor)
    ensures CursorDecode(CursorEncode(c)) == Ok(c)
  {
    DecodeEncode(CursorBytes(c));
    CursorRoundTrip(c);
  }

  lemma CursorEncodeDecode(t: Str)
    requires CursorDecode(t).Ok?
    ensures CursorEncode(CursorDecode(t).value) == t
  {
    EncodeDecode(t);
    var s := Decode(t).value;
    Widths();
    BeFromBe(s[..8]);
    BeFromBe(s[40..]);
    assert s == s[..8] + s[8..40] + s[40..];
  }
}
