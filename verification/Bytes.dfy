/** Bytes, big-endian integers and the lexicographic order of byte strings. */
module Bytes {
  type byte = x: int | 0 <= x < 256
  type Str = seq<byte>

  type u32 = x: int | 0 <= x < 0x1_0000_0000
  type u64 = x: int | 0 <= x < 0x1_0000_0000_0000_0000

  const U64_MAX: u64 := 0xFFFF_FFFF_FFFF_FFFF

  type Hash32 = s: Str | |s| == 32 witness seq(32, i => 0)

  function Pow256(k: nat): (p: nat)
    ensures p > 0
  {
    if k == 0 then 1 else 256 * Pow256(k - 1)
  }

  lemma Widths()
    ensures Pow256(1) == 256 && Pow256(2) == 65536 && Pow256(4) == 0x1_0000_0000 && Pow256(8) == 0x1_0000_0000_0000_0000
  {
    assert Pow256(2) == 256 * Pow256(1);
    assert Pow256(3) == 256 * Pow256(2);
    assert Pow256(4) == 256 * Pow256(3);
    assert Pow256(5) == 256 * Pow256(4);
    assert Pow256(6) == 256 * Pow256(5);
    assert Pow256(7) == 256 * Pow256(6);
  }

  /** The `k` low bytes of `n`, most significant first. */
  function Be(n: nat, k: nat): (s: Str)
    ensures |s| == k
  {
    if k == 0 then [] else Be(n / 256, k - 1) + [n % 256]
  }

  function FromBe(s: Str): (n: nat)
    ensures n < Pow256(|s|)
  {
    if s == [] then 0 else FromBe(s[..|s|-1]) * 256 + s[|s|-1]
  }

  lemma {:induction false} FromBeBe(n: nat, k: nat)
    requires n < Pow256(k)
    ensures FromBe(Be(n, k)) == n
  {
    if k > 0 {
      FromBeBe(n / 256, k - 1);
      assert Be(n, k)[..k-1] == Be(n / 256, k - 1);
    }
  }

  lemma {:induction false} BeFromBe(s: Str)
    ensures Be(FromBe(s), |s|) == s
  {
    if s != [] {
      BeFromBe(s[..|s|-1]);
      assert s == s[..|s|-1] + [s[|s|-1]];
    }
  }

  /** The order of byte-string keys in a redb table. */
  predicate LexLt(a: Str, b: Str) {
    b != [] && (a == [] || a[0] < b[0] || (a[0] == b[0] && LexLt(a[1..], b[1..])))
  }

  predicate LexLe(a: Str, b: Str) { a == b || LexLt(a, b) }

  lemma {:induction false} LexIrreflexive(a: Str)
    ensures !LexLt(a, a)
  {
    if a != [] { LexIrreflexive(a[1..]); }
  }

  lemma {:induction false} LexTransitive(a: Str, b: Str, c: Str)
    requires LexLt(a, b) && LexLt(b, c)
    ensures LexLt(a, c)
  {
    if a != [] && a[0] == b[0] && b[0] == c[0] { LexTransitive(a[1..], b[1..], c[1..]); }
  }

  lemma {:induction false} LexTotal(a: Str, b: Str)
    ensures LexLt(a, b) || a == b || LexLt(b, a)
  {
    if a != [] && b != [] && a[0] == b[0] {
      LexTotal(a[1..], b[1..]);
      assert a == [a[0]] + a[1..] && b == [b[0]] + b[1..];
    }
  }

  /** Fixed-width fields compare one after the other. */
  lemma {:induction false} LexConcat(a: Str, b: Str, c: Str, d: Str)
    requires |a| == |c|
    ensures LexLt(a + b, c + d) <==> LexLt(a, c) || (a == c && LexLt(b, d))
  {
    if a == [] {
      assert a + b == b && c + d == d;
    } else {
      LexConcat(a[1..], b, c[1..], d);
      assert (a + b)[1..] == a[1..] + b && (c + d)[1..] == c[1..] + d;
      assert a == [a[0]] + a[1..] && c == [c[0]] + c[1..];
    }
  }

  /** Big-endian bytes order like the numbers. */
  lemma {:induction false} BeOrder(m: nat, n: nat, k: nat)
    requires m < Pow256(k) && n < Pow256(k)
    ensures LexLt(Be(m, k), Be(n, k)) <==> m < n
  {
    if k > 0 {
      BeOrder(m / 256, n / 256, k - 1);
      LexConcat(Be(m / 256, k - 1), [m % 256], Be(n / 256, k - 1), [n % 256]);
      BeInjective(m / 256, n / 256, k - 1);
      assert LexLt([m % 256], [n % 256]) <==> m % 256 < n % 256;
    }
  }

  lemma BeInjective(m: nat, n: nat, k: nat)
    requires m < Pow256(k) && n < Pow256(k)
    ensures Be(m, k) == Be(n, k) <==> m == n
  {
    FromBeBe(m, k);
    FromBeBe(n, k);
  }
}
