/** Small shared datatypes and sequence facts. */
module Common {
  datatype Option<+T> = None | Some(value: T)

  datatype Result<+T, +E> = Ok(value: T) | Err(error: E)

  function Min(a: int, b: int): int { if a < b then a else b }

  function Max(a: int, b: int): int { if a < b then b else a }

  lemma {:induction false} SubsetSize<T>(a: set<T>, b: set<T>)
    requires a <= b
    ensures |a| <= |b|
    decreases |a|
  {
    if a != {} {
      var x :| x in a;
      SubsetSize(a - {x}, b - {x});
    }
  }

  lemma SliceOfSlice<T>(s: seq<T>, from: nat, len: nat, n: nat)
    requires from + len <= |s| && n <= len
    ensures s[from..from + len][..n] == s[from..from + n]
  {
  }

  lemma TailSlice<T>(s: seq<T>, at: nat, i: nat, j: nat)
    requires at + j <= |s| && i <= j
    ensures s[at..][i..j] == s[at + i..at + j]
  {
  }
}
