/** Bytes and the copies made between buffers. */
module Bytes {
  newtype Byte = x: int | 0 <= x < 256

  function Min(a: nat, b: nat): nat { if a <= b then a else b }

  /** An iovec array as one piece. */
  function Flat(vecs: seq<seq<Byte>>): seq<Byte> {
    if vecs == [] then [] else vecs[0] + Flat(vecs[1..])
  }

  lemma {:induction false} FlatAppend(vecs: seq<seq<Byte>>, v: seq<Byte>)
    ensures Flat(vecs + [v]) == Flat(vecs) + v
  {
    if vecs == [] {
      assert vecs + [v] == [v] && Flat([v]) == v + Flat([]);
    } else {
      FlatAppend(vecs[1..], v);
      assert (vecs + [v])[1..] == vecs[1..] + [v];
    }
  }

  /** memcpy of src to position at of dst. */
  function Splice<T>(dst: seq<T>, at: nat, src: seq<T>): (r: seq<T>)
    requires at + |src| <= |dst|
    ensures |r| == |dst|
  {
    dst[..at] + src + dst[at + |src|..]
  }

  lemma SliceOfPrefix<T>(a: seq<T>, m: nat, i: nat, j: nat)
    requires i <= j <= m <= |a|
    ensures a[i..j] == a[..m][i..j]
  {
  }

  /** A slice in two pieces. */
  lemma SliceTwice<T>(a: seq<T>, i: nat, m: nat, n: nat)
    requires i + m + n <= |a|
    ensures a[i..i + m + n] == a[i..i + m] + a[i + m..i + m + n]
  {
  }

  /** memcpy of len elements, from position i of src to position j of dst. */
  function Copied<T>(src: seq<T>, i: nat, dst: seq<T>, j: nat, len: nat): (r: seq<T>)
    requires i + len <= |src| && j + len <= |dst|
    ensures |r| == |dst|
  {
    Splice(dst, j, src[i..i + len])
  }

  lemma CopiedTwice<T>(src: seq<T>, i: nat, dst: seq<T>, j: nat, m: nat, n: nat)
    requires i + m + n <= |src| && j + m + n <= |dst|
    ensures Copied(src, i + m, Copied(src, i, dst, j, m), j + m, n) == Copied(src, i, dst, j, m + n)
  {
    SliceTwice(src, i, m, n);
    SpliceTwice(dst, j, src[i..i + m], src[i + m..i + m + n]);
  }

  lemma CopiedNone<T>(src: seq<T>, i: nat, dst: seq<T>, j: nat)
    requires i <= |src| && j <= |dst|
    ensures Copied(src, i, dst, j, 0) == dst
  {
  }

  lemma SpliceTwice<T>(dst: seq<T>, at: nat, x: seq<T>, y: seq<T>)
    requires at + |x| + |y| <= |dst|
    ensures Splice(Splice(dst, at, x), at + |x|, y) == Splice(dst, at, x + y)
  {
  }
}
