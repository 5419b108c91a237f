/**
 * Splitting one page of recipients into concurrency batches:
 * `users.slice(i, i + 30)` for i = 0, 30, 60, ... while i < users.length.
 */
module Batching {

  const BatchSize: nat := 30

  function Min(a: int, b: int): int {
    if a <= b then a else b
  }

  /** The batches of a page, front to back. */
  function Batches<T>(s: seq<T>): (bs: seq<seq<T>>)
    ensures |bs| == (|s| + BatchSize - 1) / BatchSize
    ensures forall k :: 0 <= k < |bs| ==> 0 < |bs[k]| <= BatchSize
    ensures forall k :: 0 <= k < |bs| - 1 ==> |bs[k]| == BatchSize
    decreases |s|
  {
    if |s| == 0 then []
    else
      var n := Min(BatchSize, |s|);
      [s[..n]] + Batches(s[n..])
  }

  /** The concatenation of a sequence of batches. */
  function Flatten<T>(bs: seq<seq<T>>): seq<T> {
    if bs == [] then [] else bs[0] + Flatten(bs[1..])
  }

  /** The batches partition the page in order: no gap, no overlap, no reordering. */
  lemma {:induction false} BatchesPartition<T>(s: seq<T>)
    ensures Flatten(Batches(s)) == s
    decreases |s|
  {
    if |s| > 0 {
      var n := Min(BatchSize, |s|);
      BatchesPartition(s[n..]);
      assert Batches(s)[1..] == Batches(s[n..]);
      assert s == s[..n] + s[n..];
    }
  }

  /** Batch k is exactly the slice starting at 30 * k. */
  lemma {:induction false} BatchAt<T>(s: seq<T>, k: nat)
    requires k < |Batches(s)|
    ensures Batches(s)[k] == s[BatchSize * k .. Min(BatchSize * k + BatchSize, |s|)]
    decreases k
  {
    var n := Min(BatchSize, |s|);
    if k > 0 {
      assert Batches(s)[k] == Batches(s[n..])[k - 1];
      BatchAt(s[n..], k - 1);
      assert n == BatchSize;
    }
  }

  /** The batches from offset i onwards: the one at i, then those after it. */
  lemma BatchesFrom<T>(s: seq<T>, i: nat)
    requires i < |s|
    ensures Batches(s[i..]) == [s[i..Min(i + BatchSize, |s|)]] + Batches(s[Min(i + BatchSize, |s|)..])
  {
    var n := Min(BatchSize, |s| - i);
    assert s[i..][..n] == s[i..Min(i + BatchSize, |s|)];
    assert s[i..][n..] == s[Min(i + BatchSize, |s|)..];
  }
}
