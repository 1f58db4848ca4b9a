/**
 * Class scores and what the script derives from them: the argmax prediction of
 * `predictions` and the 2x2 confusion matrix of `make_conf`.
 */
module Scores {
  import opened Wrappers

  /** Number of classes; the projection layer's U has this many columns. */
  const LabelSize: nat := 2

  /** One row of logits, as produced by the projection layer. */
  type Logits = r: seq<real> | |r| == LabelSize witness [0.0, 0.0]

  /**
   * `tf.argmax(y, axis=1)` on one row: the index of the largest score, the
   * first such index when several scores tie.
   */
  function ArgMax(row: seq<real>): (k: nat)
    requires |row| > 0
    ensures k < |row|
    ensures forall j :: 0 <= j < |row| ==> row[j] <= row[k]
    ensures forall j :: 0 <= j < k ==> row[j] < row[k]
  {
    if |row| == 1 then 0
    else
      var k := ArgMax(row[..|row| - 1]);
      if row[|row| - 1] > row[k] then |row| - 1 else k
  }

  /** `predictions`: one class index per row of logits. */
  function Predictions(y: seq<Logits>): (p: seq<nat>)
    ensures |p| == |y|
    ensures forall i {:trigger p[i]} :: 0 <= i < |y| ==> p[i] < LabelSize && y[i][p[i]] == Max(y[i])
  {
    seq(|y|, i requires 0 <= i < |y| => ArgMax(y[i]))
  }

  /** The largest score of a row, defined without reference to an index. */
  function Max(row: seq<real>): real
    requires |row| > 0
  {
    if |row| == 1 then row[0]
    else
      var m := Max(row[..|row| - 1]);
      if row[|row| - 1] > m then row[|row| - 1] else m
  }

  /** The score at the argmax is the maximum of the row. */
  lemma {:induction false} ArgMaxIsMax(row: seq<real>)
    requires |row| > 0
    ensures row[ArgMax(row)] == Max(row)
  {
    if |row| > 1 {
      ArgMaxIsMax(row[..|row| - 1]);
    }
  }

  // ---------------------------------------------------------------------
  // make_conf

  /** numpy accepts the indices -2 .. 1 on an axis of length 2; any other raises IndexError. */
  predicate InRange(i: int)
  {
    -2 <= i < 2
  }

  /** The row (or column) an in-range numpy index selects: negative indices count from the end. */
  function Cell(i: int): (c: nat)
    requires InRange(i)
    ensures c < 2
    ensures c == i || c == i + 2
  {
    if i < 0 then i + 2 else i
  }

  /** Python's `zip(labels, predictions)`: pairs up to the shorter sequence. */
  function Zip(labels: seq<int>, predictions: seq<int>): (ps: seq<(int, int)>)
    ensures |ps| == Min(|labels|, |predictions|)
  {
    seq(Min(|labels|, |predictions|), k requires 0 <= k < Min(|labels|, |predictions|) => (labels[k], predictions[k]))
  }

  predicate AllInRange(ps: seq<(int, int)>)
  {
    forall k :: 0 <= k < |ps| ==> InRange(ps[k].0) && InRange(ps[k].1)
  }

  /** How many of the pairs land in cell [a, b] of the matrix. */
  function Count(ps: seq<(int, int)>, a: nat, b: nat): (c: nat)
    ensures c <= |ps|
  {
    if ps == [] then 0
    else
      var (l, p) := ps[|ps| - 1];
      Count(ps[..|ps| - 1], a, b) + if InRange(l) && InRange(p) && Cell(l) == a && Cell(p) == b then 1 else 0
  }

  /**
   * `make_conf`: a zero 2x2 matrix whose cell [l, p] is incremented once per
   * zipped (label, prediction) pair. `ok` is false when some pair holds an
   * index numpy rejects (the IndexError the script would raise).
   */
  method MakeConf(labels: seq<int>, predictions: seq<int>) returns (confmat: array2<int>, ok: bool)
    ensures confmat.Length0 == 2 && confmat.Length1 == 2
    ensures ok <==> AllInRange(Zip(labels, predictions))
    ensures ok ==> forall a, b :: 0 <= a < 2 && 0 <= b < 2 ==> confmat[a, b] == Count(Zip(labels, predictions), a, b)
  {
    confmat := new int[2, 2]((_, _) => 0);
    var ps := Zip(labels, predictions);
    var k := 0;
    while k < |ps|
      invariant 0 <= k <= |ps|
      invariant AllInRange(ps[..k])
      invariant forall a, b :: 0 <= a < 2 && 0 <= b < 2 ==> confmat[a, b] == Count(ps[..k], a, b)
    {
      var (l, p) := ps[k];
      if !(InRange(l) && InRange(p)) {
        ok := false;
        return;
      }
      assert ps[..k + 1][..k] == ps[..k];
      confmat[Cell(l), Cell(p)] := confmat[Cell(l), Cell(p)] + 1;
      k := k + 1;
    }
    assert ps[..k] == ps;
    ok := true;
  }

  /** The four cells add up to the number of zipped pairs. */
  lemma {:induction false} CountTotal(ps: seq<(int, int)>)
    requires AllInRange(ps)
    ensures Count(ps, 0, 0) + Count(ps, 0, 1) + Count(ps, 1, 0) + Count(ps, 1, 1) == |ps|
  {
    if ps != [] {
      var init := ps[..|ps| - 1];
      forall k | 0 <= k < |init| ensures InRange(init[k].0) && InRange(init[k].1) {
        assert init[k] == ps[k];
      }
      CountTotal(init);
    }
  }

  /**
   * Each pair (l, p) adds to the one cell it names and to no other: cell [a, b]
   * counts the pairs equal to (a, b) or to one of its negative-index aliases.
   * In particular the count does not depend on the order of the pairs.
   */
  lemma {:induction false} CountByValue(ps: seq<(int, int)>, a: nat, b: nat)
    requires a < 2 && b < 2
    ensures Count(ps, a, b) == multiset(ps)[(a, b)] + multiset(ps)[(a - 2, b)] + multiset(ps)[(a, b - 2)] + multiset(ps)[(a - 2, b - 2)]
  {
    if ps != [] {
      var init := ps[..|ps| - 1];
      CountByValue(init, a, b);
      assert ps == init + [ps[|ps| - 1]];
      var (l, p) := ps[|ps| - 1];
      assert multiset(ps) == multiset(init) + multiset{(l, p)};
      assert InRange(l) && InRange(p) && Cell(l) == a && Cell(p) == b
        <==> (l, p) in {(a, b), (a - 2, b), (a, b - 2), (a - 2, b - 2)};
    }
  }

  /** For labels and predictions in {0, 1}, cell [a, b] is the number of pairs equal to (a, b). */
  lemma ConfusionOfBinaryPairs(labels: seq<int>, predictions: seq<int>, a: nat, b: nat)
    requires forall k :: 0 <= k < |labels| ==> 0 <= labels[k] < 2
    requires forall k :: 0 <= k < |predictions| ==> 0 <= predictions[k] < 2
    requires a < 2 && b < 2
    ensures AllInRange(Zip(labels, predictions))
    ensures Count(Zip(labels, predictions), a, b) == multiset(Zip(labels, predictions))[(a, b)]
  {
    var ps := Zip(labels, predictions);
    CountByValue(ps, a, b);
    assert forall k :: 0 <= k < |ps| ==> ps[k].0 == labels[k] && ps[k].1 == predictions[k];
    assert (a - 2, b) !in ps && (a, b - 2) !in ps && (a - 2, b - 2) !in ps;
  }
}
