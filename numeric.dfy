/**
 * The stateless helpers of CorrelatedAutomata.py: the EPSILON threshold,
 * NormalizedToOne, WeightedChoice (with the uniform draw as an input) and the
 * "first maximum" rule of Python's built-in max().
 */
module Numeric {
  import opened Wrappers

  /** Sums and squared distances below this are treated as zero. */
  const EPSILON: real := 0.00001

  function Abs(x: real): real { if x < 0.0 then -x else x }

  function Max(a: real, b: real): real { if a < b then b else a }

  /** Python's sum(): a left fold, so a running total is Sum of a prefix. */
  function Sum(s: seq<real>): real
  {
    if s == [] then 0.0 else Sum(s[..|s| - 1]) + s[|s| - 1]
  }

  function AbsAll(s: seq<real>): seq<real>
  {
    seq(|s|, i requires 0 <= i < |s| => Abs(s[i]))
  }

  function Divided(s: seq<real>, c: real): seq<real>
    requires c != 0.0
  {
    seq(|s|, i requires 0 <= i < |s| => s[i] / c)
  }

  function Uniform(n: nat): seq<real>
    requires n > 0
  {
    seq(n, _ => 1.0 / n as real)
  }

  lemma {:induction false} SumDivided(s: seq<real>, c: real)
    requires c != 0.0
    ensures Sum(Divided(s, c)) == Sum(s) / c
  {
    if s != [] {
      var n := |s|;
      assert Divided(s, c)[..n - 1] == Divided(s[..n - 1], c);
      SumDivided(s[..n - 1], c);
    }
  }

  lemma {:induction false} SumConstant(n: nat, c: real)
    ensures Sum(seq(n, _ => c)) == n as real * c
  {
    if n > 0 {
      assert seq(n, _ => c)[..n - 1] == seq(n - 1, _ => c);
      SumConstant(n - 1, c);
    }
  }

  /**
   * NormalizedToOne: the weights scaled so that their absolute values sum
   * to one, or the uniform distribution when that sum is below EPSILON.
   * The Python function asserts that the weights are not empty.
   */
  function NormalizedToOne(weights: seq<real>): (r: seq<real>)
    requires |weights| > 0
    ensures |r| == |weights|
  {
    var total := Sum(AbsAll(weights));
    if total < EPSILON then Uniform(|weights|) else Divided(weights, total)
  }

  /**
   * What NormalizedToOne promises: the absolute values of its result sum
   * to one; below EPSILON every entry is 1 / len, otherwise each entry
   * times the total gives back its weight; non-negative weights stay
   * non-negative.
   */
  lemma NormalizedToOneSumsToOne(weights: seq<real>)
    requires |weights| > 0
    ensures var r := NormalizedToOne(weights);
            && Sum(AbsAll(r)) == 1.0
            && ((forall i | 0 <= i < |weights| :: 0.0 <= weights[i]) ==>
                  forall i | 0 <= i < |r| :: 0.0 <= r[i])
            && (Sum(AbsAll(weights)) < EPSILON ==>
                  forall i | 0 <= i < |r| :: r[i] == 1.0 / |weights| as real)
            && (EPSILON <= Sum(AbsAll(weights)) ==>
                  forall i | 0 <= i < |r| :: r[i] * Sum(AbsAll(weights)) == weights[i])
  {
    var total := Sum(AbsAll(weights));
    if total < EPSILON {
      assert NormalizedToOne(weights) == Uniform(|weights|);
      UniformSumsToOne(|weights|);
    } else {
      assert NormalizedToOne(weights) == Divided(weights, total);
      DividedSumsToOne(weights, total);
    }
  }

  lemma UniformSumsToOne(n: nat)
    requires n > 0
    ensures Sum(AbsAll(Uniform(n))) == 1.0
    ensures forall i | 0 <= i < n :: 0.0 <= Uniform(n)[i]
  {
    assert AbsAll(Uniform(n)) == seq(n, _ => 1.0 / n as real);
    SumConstant(n, 1.0 / n as real);
  }

  lemma DividedSumsToOne(weights: seq<real>, total: real)
    requires 0.0 < total && total == Sum(AbsAll(weights))
    ensures Sum(AbsAll(Divided(weights, total))) == 1.0
    ensures forall i | 0 <= i < |weights| :: Divided(weights, total)[i] * total == weights[i]
    ensures (forall i | 0 <= i < |weights| :: 0.0 <= weights[i]) ==>
              forall i | 0 <= i < |weights| :: 0.0 <= Divided(weights, total)[i]
  {
    AbsAllDivided(weights, total);
    SumDivided(AbsAll(weights), total);
    DividedBySelf(total);
    DividedElements(weights, total);
  }

  lemma DividedElements(weights: seq<real>, total: real)
    requires 0.0 < total
    ensures forall i | 0 <= i < |weights| :: Divided(weights, total)[i] * total == weights[i]
    ensures forall i | 0 <= i < |weights| :: 0.0 <= weights[i] ==> 0.0 <= Divided(weights, total)[i]
  {
  }

  lemma DividedBySelf(x: real)
    requires x != 0.0
    ensures x / x == 1.0
  {
  }

  lemma AbsAllDivided(weights: seq<real>, total: real)
    requires 0.0 < total
    ensures AbsAll(Divided(weights, total)) == Divided(AbsAll(weights), total)
  {
    forall i | 0 <= i < |weights|
      ensures AbsAll(Divided(weights, total))[i] == Divided(AbsAll(weights), total)[i]
    {
      var q := weights[i] / total;
      if weights[i] < 0.0 {
        assert q * total == weights[i];
        assert (-q) * total == -weights[i];
      } else {
        assert 0.0 <= q;
      }
    }
  }

  /** The running sum of weights[0..i], inclusive. */
  function RunningSum(weights: seq<real>, i: nat): real
    requires i < |weights|
  {
    Sum(weights[..i + 1])
  }

  /** The index WeightedChoice returns: the first whose running sum reaches r. */
  ghost predicate FirstReaching(weights: seq<real>, r: real, i: nat)
  {
    && i < |weights|
    && r <= RunningSum(weights, i)
    && forall j | 0 <= j < i :: RunningSum(weights, j) < r
  }

  /**
   * WeightedChoice with the uniform draw r in [0, sum(weights)] given.
   * It fails ("Random overflow") exactly when there are no weights.
   */
  method WeightedChoice(weights: seq<real>, r: real) returns (choice: Option<nat>)
    requires 0.0 <= r <= Sum(weights)
    ensures choice.Some? <==> |weights| > 0
    ensures choice.Some? ==> FirstReaching(weights, r, choice.value)
  {
    assert weights[..|weights|] == weights;
    if |weights| > 0 {
      assert RunningSum(weights, |weights| - 1) == Sum(weights);
    }
    var upto := 0.0;
    var i := 0;
    while i < |weights|
      invariant 0 <= i <= |weights|
      invariant upto == Sum(weights[..i])
      invariant forall j | 0 <= j < i :: RunningSum(weights, j) < r
    {
      assert weights[..i + 1][..i] == weights[..i];
      if upto + weights[i] >= r {
        return Some(i);
      }
      upto := upto + weights[i];
      i := i + 1;
    }
    return None;
  }

  /** Python's max() over indices: the first index holding the largest value. */
  ghost predicate IsFirstMax(ws: seq<real>, i: nat)
  {
    && i < |ws|
    && (forall j | 0 <= j < |ws| :: ws[j] <= ws[i])
    && (forall j | 0 <= j < i :: ws[j] < ws[i])
  }

  function ArgMaxFirst(ws: seq<real>): (i: nat)
    requires |ws| > 0
    ensures IsFirstMax(ws, i)
  {
    if |ws| == 1 then 0
    else
      var k := ArgMaxFirst(ws[..|ws| - 1]);
      if ws[k] < ws[|ws| - 1] then |ws| - 1 else k
  }

  /** Only one index is the first maximum, so equal inputs to max() give equal answers. */
  lemma FirstMaxUnique(ws: seq<real>, i: nat, j: nat)
    requires IsFirstMax(ws, i) && IsFirstMax(ws, j)
    ensures i == j
  {
    assert ws[i] <= ws[j] && ws[j] <= ws[i];
  }
}
