/** Facts about sequences that the mesh and frame proofs share. */
module Seqs {

  /** Element k of a concatenation. */
  lemma IndexConcat<T>(a: seq<T>, b: seq<T>, k: nat)
    requires k < |a| + |b|
    ensures (a + b)[k] == if k < |a| then a[k] else b[k - |a|]
  {
  }

  /** Element k of a three-part concatenation. */
  lemma IndexConcat3<T>(a: seq<T>, b: seq<T>, c: seq<T>, k: nat)
    requires k < |a| + |b| + |c|
    ensures (a + b + c)[k] == if k < |a| then a[k] else if k < |a| + |b| then b[k - |a|] else c[k - |a| - |b|]
  {
  }

  lemma AppendAssoc<T>(a: seq<T>, b: seq<T>, c: seq<T>)
    ensures a + b + c == a + (b + c)
  {
  }

  /** The part of a three-part concatenation that lies in its middle part. */
  lemma SliceOfMiddle<T>(a: seq<T>, b: seq<T>, c: seq<T>, i: nat, j: nat)
    requires i <= j <= |b|
    ensures (a + b + c)[|a| + i..|a| + j] == b[i..j]
  {
    assert (a + b + c)[|a| + i..|a| + j] == (a + b)[|a| + i..|a| + j];
  }

  /** f(0), f(1), ..., f(count - 1), concatenated. */
  function Blocks<T>(f: nat -> seq<T>, count: nat): seq<T>
  {
    if count == 0 then [] else Blocks(f, count - 1) + f(count - 1)
  }

  lemma {:induction false} BlocksLength<T>(f: nat -> seq<T>, w: nat, count: nat)
    requires forall i: nat :: |f(i)| == w
    ensures |Blocks(f, count)| == w * count
  {
    if count > 0 {
      BlocksLength(f, w, count - 1);
      assert w * (count - 1) + w == w * count;
    }
  }

  lemma {:induction false} BlocksPrefix<T>(f: nat -> seq<T>, n: nat, count: nat)
    requires n <= count
    ensures Blocks(f, n) <= Blocks(f, count)
  {
    if n < count {
      BlocksPrefix(f, n, count - 1);
      var pre := Blocks(f, count - 1);
      assert Blocks(f, count) == pre + f(count - 1);
      assert Blocks(f, count)[..|pre|] == pre;
    }
  }

  /** Block k sits right after blocks 0 .. k - 1. */
  lemma BlocksAt<T>(f: nat -> seq<T>, count: nat, k: nat)
    requires k < count
    ensures |Blocks(f, k + 1)| <= |Blocks(f, count)|
    ensures Blocks(f, count)[|Blocks(f, k)|..|Blocks(f, k + 1)|] == f(k)
  {
    BlocksPrefix(f, k + 1, count);
    var pre, b := Blocks(f, k), Blocks(f, k + 1);
    assert b == pre + f(k);
    assert Blocks(f, count)[..|b|] == b;
    assert Blocks(f, count)[|pre|..|b|] == b[|pre|..];
  }

  /** Whatever is in the blocks is in one of them. */
  lemma {:induction false} BlocksMember<T>(f: nat -> seq<T>, count: nat, c: T)
    requires c in Blocks(f, count)
    ensures exists i :: 0 <= i < count && c in f(i)
  {
    if c !in f(count - 1) {
      BlocksMember(f, count - 1, c);
    }
  }
}
