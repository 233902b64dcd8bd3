/**
 * Cutting a list into consecutive batches of bounded size, as both the
 * indexing worker (15 chunks at a time) and the embedding client (100
 * texts per provider request) do, and flattening the batches back.
 */
module Seqs {

  /** The batches laid end to end. */
  function Concat<T>(ss: seq<seq<T>>): seq<T> {
    if |ss| == 0 then [] else ss[0] + Concat(ss[1..])
  }

  lemma {:induction false} ConcatAppend<T>(ss: seq<seq<T>>, last: seq<T>)
    ensures Concat(ss + [last]) == Concat(ss) + last
  {
    if |ss| > 0 {
      assert (ss + [last])[1..] == ss[1..] + [last];
      ConcatAppend(ss[1..], last);
    }
  }

  /** Concatenation is associative. */
  lemma AppendAssoc<T>(a: seq<T>, b: seq<T>, c: seq<T>)
    ensures a + b + c == a + (b + c)
  {
  }

  /** A suffix splits at any later offset. */
  lemma SliceSplit<T>(s: seq<T>, i: nat, j: nat)
    requires i <= j <= |s|
    ensures s[i..] == s[i..j] + s[j..]
  {
  }

  /** Appending two pieces one after the other appends their concatenation. */
  lemma AppendStep<T>(before: seq<T>, mid: seq<T>, after: seq<T>, a: seq<T>, b: seq<T>, ab: seq<T>)
    requires mid == before + a && after == mid + b && ab == a + b
    ensures after == before + ab
  {
  }

  function Min(a: int, b: int): int {
    if a <= b then a else b
  }

  /**
   * `s` cut into consecutive batches of `size`, the last possibly shorter:
   * the batches cover `s` exactly once and in order, and there are
   * `ceil(|s| / size)` of them.
   */
  function Batches<T>(s: seq<T>, size: nat): (r: seq<seq<T>>)
    requires size > 0
    decreases |s|
    ensures Concat(r) == s
    ensures forall k :: 0 <= k < |r| ==> 0 < |r[k]| <= size
    ensures forall k :: 0 <= k < |r| - 1 ==> |r[k]| == size
  {
    if |s| <= size then (if |s| == 0 then [] else [s])
    else [s[..size]] + Batches(s[size..], size)
  }

  /** Multiplication distributes over a successor. */
  lemma MulSucc(k: nat, size: nat)
    ensures (k + 1) * size == k * size + size
  {
  }

  /**
   * The number of batches is `|s| / size` rounded up: enough batches of
   * `size` to hold `s`, and one fewer would not be.
   */
  lemma {:induction false} BatchCount<T>(s: seq<T>, size: nat)
    requires size > 0
    ensures |s| <= |Batches(s, size)| * size
    ensures |Batches(s, size)| > 0 ==> (|Batches(s, size)| - 1) * size < |s|
  {
    if |s| > size {
      var n := |Batches(s[size..], size)|;
      BatchCount(s[size..], size);
      MulSucc(n, size);
      if n > 0 {
        MulSucc(n - 1, size);
      }
    }
  }

  /**
   * One step of a batching loop at offset `i`: the next batch is the slice
   * from `i` to `min(i + size, |s|)`, and the rest are the batches after it.
   */
  lemma BatchesStep<T>(s: seq<T>, size: nat, i: nat)
    requires size > 0 && i < |s|
    ensures Batches(s[i..], size) == [s[i..Min(i + size, |s|)]] + Batches(s[Min(i + size, |s|)..], size)
  {
    var t := s[i..];
    if |t| <= size {
      assert t == s[i..Min(i + size, |s|)];
      assert s[Min(i + size, |s|)..] == [];
    } else {
      assert t[..size] == s[i..i + size];
      assert t[size..] == s[i + size..];
    }
  }
}
