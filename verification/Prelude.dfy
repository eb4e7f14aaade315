/** Small shared vocabulary: optional values, bytes, 64-bit wrap-around and sequence helpers. */
module Prelude {
  datatype Option<+T> = None | Some(value: T)

  newtype byte = x: int | 0 <= x < 256
  type Bytes = seq<byte>
  type pos = x: int | x >= 1 witness 1

  const MAX_UINT64: nat := 0xFFFF_FFFF_FFFF_FFFF

  /** Go's uint64 arithmetic: results are reduced modulo 2^64. */
  function Wrap64(x: int): nat {
    x % 0x1_0000_0000_0000_0000
  }

  lemma WrapOf(x: int)
    requires -0x1_0000_0000_0000_0000 <= x < 0x1_0000_0000_0000_0000
    ensures Wrap64(x) == if x >= 0 then x else x + 0x1_0000_0000_0000_0000
  {
  }

  function Min(a: int, b: int): int {
    if a <= b then a else b
  }

  function Max(a: int, b: int): int {
    if a >= b then a else b
  }

  predicate IsSuffix<T(==)>(s: seq<T>, t: seq<T>) {
    |s| <= |t| && s == t[|t| - |s|..]
  }

  lemma SuffixOfConcat<T>(a: seq<T>, b: seq<T>)
    ensures IsSuffix(b, a + b)
  {
  }

  lemma SuffixDrop<T>(s: seq<T>, t: seq<T>, k: nat)
    requires IsSuffix(s, t) && k <= |s|
    ensures IsSuffix(s[k..], t)
  {
    assert s[k..] == t[|t| - |s|..][k..];
  }

  lemma SuffixOfTail<T>(s: seq<T>, a: seq<T>, b: seq<T>)
    requires IsSuffix(s, a + b) && |s| <= |b|
    ensures IsSuffix(s, b)
  {
    assert (a + b)[|a| + |b| - |s|..] == b[|b| - |s|..];
  }

  /** Stepping back over `rest` in a suffix of `a + rest + b` that ends with `b`. */
  lemma SuffixStepBack<T>(s: seq<T>, a: seq<T>, rest: seq<T>, b: seq<T>)
    requires IsSuffix(s, a + rest + b) && |rest| + |b| <= |s|
    ensures s[|s| - |rest| - |b|..] == rest + b
  {
    var t := a + rest + b;
    assert s[|s| - |rest| - |b|..] == t[|t| - |rest| - |b|..];
  }
}
