/** Byte strings: the buffers every key-management routine reads and writes. */
module Octets {

  type byte = bv8

  type Bytes = seq<byte>

  function Min(a: int, b: int): int
  {
    if a < b then a else b
  }

  function Max(a: int, b: int): int
  {
    if a < b then b else a
  }

  /** The contents of a freshly `calloc`ed or `memset`-to-zero area. */
  function Zeros(n: nat): (r: Bytes)
    ensures |r| == n
    ensures forall i :: 0 <= i < n ==> r[i] == 0
  {
    seq(n, _ => 0)
  }

  predicate AllZero(s: Bytes)
  {
    forall i :: 0 <= i < |s| ==> s[i] == 0
  }

  /** Byte-wise exclusive or of two equally long strings. */
  function Xor(a: Bytes, b: Bytes): (r: Bytes)
    requires |a| == |b|
    ensures |r| == |a|
    ensures forall i :: 0 <= i < |r| ==> r[i] == a[i] ^ b[i]
  {
    seq(|a|, i requires 0 <= i < |a| => a[i] ^ b[i])
  }

  /** XOR-ing twice with the same pad gives the original string back. */
  lemma XorCancel(a: Bytes, b: Bytes)
    requires |a| == |b|
    ensures Xor(Xor(a, b), b) == a
    ensures Xor(b, Xor(b, a)) == a
  {
    var x := Xor(Xor(a, b), b);
    forall i | 0 <= i < |a|
      ensures x[i] == a[i]
    {
      assert x[i] == (a[i] ^ b[i]) ^ b[i];
    }
    var y := Xor(b, Xor(b, a));
    forall i | 0 <= i < |a|
      ensures y[i] == a[i]
    {
      assert y[i] == b[i] ^ (b[i] ^ a[i]);
    }
  }

  /** Two strings that mask a common string to the same result are equal. */
  lemma XorSolve(x: Bytes, y: Bytes, d: Bytes)
    requires |x| == |y| == |d|
    requires Xor(x, d) == Xor(d, y)
    ensures x == y
  {
    forall i | 0 <= i < |x|
      ensures x[i] == y[i]
    {
      assert Xor(x, d)[i] == Xor(d, y)[i];
    }
  }

  /** A string whose two halves match the halves of another equals it (up to their joint length). */
  lemma HalvesJoin(a: Bytes, b: Bytes, n: nat)
    requires 2 * n <= |a|
    requires |b| == 2 * n
    requires a[..n] == b[..n]
    requires a[n..2 * n] == b[n..]
    ensures a[..2 * n] == b
  {
    assert a[..2 * n] == a[..n] + a[n..2 * n];
    assert b == b[..n] + b[n..];
  }

  /** `memcpy(buf + at, data, |data|)`: everything outside the written window is kept. */
  function Write(buf: Bytes, at: nat, data: Bytes): (r: Bytes)
    requires at + |data| <= |buf|
    ensures |r| == |buf|
    ensures r[..at] == buf[..at]
    ensures r[at..at + |data|] == data
    ensures r[at + |data|..] == buf[at + |data|..]
  {
    buf[..at] + data + buf[at + |data|..]
  }

  /** `memset(buf, 0, n)` restricted to the bytes the buffer holds. */
  function WipePrefix(buf: Bytes, n: nat): (r: Bytes)
    ensures |r| == |buf|
    ensures AllZero(r[..Min(n, |buf|)])
    ensures r[Min(n, |buf|)..] == buf[Min(n, |buf|)..]
  {
    Write(buf, 0, Zeros(Min(n, |buf|)))
  }

  /** Agreement from position `i` on implies agreement from any later position. */
  lemma SuffixAgrees(a: Bytes, b: Bytes, i: nat, j: nat)
    requires i <= j <= |a| == |b|
    requires a[i..] == b[i..]
    ensures a[j..] == b[j..]
  {
    assert a[j..] == a[i..][j - i..];
    assert b[j..] == b[i..][j - i..];
  }

  /**
   * Appending `data` at `at` into a buffer whose tail from `at` still
   * matches `base`: the key grows by `data` and the tail past it still
   * matches `base`.
   */
  lemma WriteAppends(buf: Bytes, base: Bytes, at: nat, data: Bytes)
    requires at + |data| <= |buf| == |base|
    requires buf[at..] == base[at..]
    ensures Write(buf, at, data)[..at + |data|] == buf[..at] + data
    ensures Write(buf, at, data)[at + |data|..] == base[at + |data|..]
  {
    var r := Write(buf, at, data);
    assert r[..at + |data|] == r[..at] + r[at..at + |data|];
    SuffixAgrees(buf, base, at, at + |data|);
  }
}
