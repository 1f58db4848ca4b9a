/**
 * How `predict` and `run_epoch` cut a list of trees into batches of at most
 * `RESET_AFTER` trees: batch i is the Python slice `trees[i*R:(i+1)*R]`, for
 * i in `range(ceil(len(trees) / R))`. Every batch is processed in a fresh
 * graph and session.
 */
module Batching {
  import opened Wrappers

  /** `RESET_AFTER`: the most trees one graph is built for. */
  const ResetAfter: nat := 100

  /** `int(math.ceil(n / float(r)))`. */
  function CeilDiv(n: nat, r: nat): (q: nat)
    requires r > 0
    ensures q * r >= n
    ensures q == 0 || (q - 1) * r < n
  {
    var q := (n + r - 1) / r;
    assert n + r - 1 == q * r + (n + r - 1) % r;
    q
  }

  /** The Python slice `s[lo:hi]` for 0 <= lo <= hi: both ends are clamped to the length. */
  function Slice<T>(s: seq<T>, lo: nat, hi: nat): (r: seq<T>)
    requires lo <= hi
    ensures |r| <= hi - lo
    ensures |r| > 0 ==> lo + |r| <= |s|
    ensures forall i :: 0 <= i < |r| ==> r[i] == s[lo + i]
  {
    s[Min(lo, |s|)..Min(hi, |s|)]
  }

  /** `trees[i*R:(i+1)*R]`. */
  function Batch<T>(s: seq<T>, r: nat, i: nat): (b: seq<T>)
    ensures |b| <= r
    ensures |b| > 0 ==> i * r + |b| <= |s|
    ensures forall j :: 0 <= j < |b| ==> b[j] == s[i * r + j]
  {
    MulStep(i, r);
    Slice(s, i * r, (i + 1) * r)
  }

  /** The batches, in order. */
  function Batches<T>(s: seq<T>, r: nat): (bs: seq<seq<T>>)
    requires r > 0
    ensures |bs| == CeilDiv(|s|, r)
    ensures forall i :: 0 <= i < |bs| ==> bs[i] == Batch(s, r, i)
  {
    seq(CeilDiv(|s|, r), i requires 0 <= i < CeilDiv(|s|, r) => Batch(s, r, i))
  }

  function Flatten<T>(bs: seq<seq<T>>): seq<T>
  {
    if bs == [] then [] else Flatten(bs[..|bs| - 1]) + bs[|bs| - 1]
  }

  lemma MulStep(i: nat, r: nat)
    ensures (i + 1) * r == i * r + r
  {
  }

  /** A batch that starts inside the list is the slice from its start of at most R trees. */
  lemma BatchAt<T>(s: seq<T>, r: nat, i: nat)
    requires i * r < |s|
    ensures Batch(s, r, i) == s[i * r..Min(i * r + r, |s|)]
  {
    MulStep(i, r);
  }

  /** Every batch index before the last starts inside the list. */
  lemma BatchStartsInside(n: nat, r: nat, i: nat)
    requires r > 0 && i < CeilDiv(n, r)
    ensures i * r < n
  {
    var q := CeilDiv(n, r);
    var d: nat := q - 1 - i;
    assert (q - 1) * r == i * r + d * r;
  }

  /** A batch index whose start lies past the list, and no further than the batch count, is the batch count. */
  lemma BatchCountReached(n: nat, r: nat, i: nat)
    requires r > 0 && n <= i * r && i <= CeilDiv(n, r)
    ensures i == CeilDiv(n, r)
  {
    if i < CeilDiv(n, r) {
      BatchStartsInside(n, r, i);
    }
  }

  /** A batch index whose start lies inside the list is below the batch count. */
  lemma BatchIndexBelowCount(n: nat, r: nat, i: nat)
    requires r > 0 && i * r < n
    ensures i < CeilDiv(n, r)
  {
  }

  /** The first i batches cover exactly the first min(i*R, n) trees. */
  lemma {:induction false} BatchesPrefix<T>(s: seq<T>, r: nat, i: nat)
    requires r > 0 && i <= CeilDiv(|s|, r)
    ensures Flatten(Batches(s, r)[..i]) == s[..Min(i * r, |s|)]
  {
    var bs := Batches(s, r);
    if i > 0 {
      BatchesPrefix(s, r, i - 1);
      assert bs[..i][..i - 1] == bs[..i - 1];
      BatchStartsInside(|s|, r, i - 1);
      MulStep(i - 1, r);
      var lo, hi := (i - 1) * r, i * r;
      assert bs[i - 1] == s[lo..Min(hi, |s|)];
      assert Flatten(bs[..i]) == s[..lo] + s[lo..Min(hi, |s|)];
    }
  }

  /**
   * The batches partition the trees: they concatenate back to exactly the
   * input, in order, none is empty and none holds more than R trees.
   */
  lemma BatchesPartition<T>(s: seq<T>, r: nat)
    requires r > 0
    ensures Flatten(Batches(s, r)) == s
    ensures forall i :: 0 <= i < |Batches(s, r)| ==> 0 < |Batches(s, r)[i]| <= r
  {
    var bs := Batches(s, r);
    BatchesPrefix(s, r, |bs|);
    assert bs[..|bs|] == bs;
    assert Min(|bs| * r, |s|) == |s|;
    forall i | 0 <= i < |bs|
      ensures 0 < |bs[i]| <= r
    {
      BatchSize(s, r, i);
    }
  }

  lemma BatchSize<T>(s: seq<T>, r: nat, i: nat)
    requires r > 0 && i < CeilDiv(|s|, r)
    ensures 0 < |Batch(s, r, i)| <= r
  {
    BatchStartsInside(|s|, r, i);
    MulStep(i, r);
    var lo, hi := i * r, (i + 1) * r;
    assert Batch(s, r, i) == s[lo..Min(hi, |s|)];
  }

  /** Flattening distributes over concatenation. */
  lemma {:induction false} FlattenAppend<T>(a: seq<seq<T>>, b: seq<seq<T>>)
    ensures Flatten(a + b) == Flatten(a) + Flatten(b)
  {
    if b == [] {
      assert a + b == a;
    } else {
      assert (a + b)[..|a + b| - 1] == a + b[..|b| - 1];
      FlattenAppend(a, b[..|b| - 1]);
    }
  }
}
