/**
 * Index arithmetic of QuantumCorrelation: a joint basis index of n agents is
 * a number below R^n whose base-R digits are the agents' outcomes. Digits are
 * listed from the least significant one, the order in which Observe fills
 * _Observables.
 */
module RegisterIndex {

  function Pow(b: nat, e: nat): nat
  {
    if e == 0 then 1 else b * Pow(b, e - 1)
  }

  /** sum(R**a for a in slots), the stride of Prepare's slice, for slots 0..n-1. */
  function Step(r: nat, n: nat): nat
  {
    if n == 0 then 0 else Step(r, n - 1) + Pow(r, n - 1)
  }

  /** The first n base-r digits of k, least significant first. */
  function Digits(k: nat, r: nat, n: nat): (ds: seq<nat>)
    requires r >= 1
    ensures |ds| == n
    decreases n
  {
    if n == 0 then [] else [k % r] + Digits(k / r, r, n - 1)
  }

  /** Every digit is below the base. */
  lemma {:induction false} DigitsBelow(k: nat, r: nat, n: nat)
    requires r >= 1
    ensures forall i | 0 <= i < n :: Digits(k, r, n)[i] < r
    decreases n
  {
    if n > 0 {
      DigitsBelow(k / r, r, n - 1);
      assert Digits(k, r, n) == [k % r] + Digits(k / r, r, n - 1);
    }
  }

  /** The number whose base-r digits, least significant first, are ds. */
  function Value(ds: seq<nat>, r: nat): nat
  {
    if ds == [] then 0 else ds[0] + r * Value(ds[1..], r)
  }

  ghost predicate AllEqual(ds: seq<nat>)
  {
    forall i, j | 0 <= i < |ds| && 0 <= j < |ds| :: ds[i] == ds[j]
  }

  lemma MulMono(r: nat, a: int, b: int)
    requires a <= b
    ensures r * a <= r * b
  {
    assert r * b - r * a == r * (b - a);
  }

  lemma Distrib(a: int, b: int, c: int)
    ensures a * (b + c) == a * b + a * c
  {
  }

  lemma DivModUnique(k: nat, r: nat, q: nat, d: nat)
    requires r >= 1 && d < r && k == d + r * q
    ensures k % r == d && k / r == q
  {
    var q0, d0 := k / r, k % r;
    assert k == r * q0 + d0;
    if q0 < q {
      MulMono(r, q0 + 1, q);
      Distrib(r, q0, 1);
      assert false;
    } else if q < q0 {
      MulMono(r, q + 1, q0);
      Distrib(r, q, 1);
      assert false;
    }
  }

  /** Each further agent multiplies the stride by R and adds one. */
  lemma {:induction false} StepUnfold(r: nat, n: nat)
    ensures Step(r, n + 1) == 1 + r * Step(r, n)
  {
    if n > 0 {
      StepUnfold(r, n - 1);
      var s, p := Step(r, n - 1), Pow(r, n - 1);
      assert Step(r, n) == s + p;
      assert Pow(r, n) == r * p;
      Distrib(r, s, p);
    }
  }

  /** R^n == (R - 1) * step + 1: the geometric series. */
  lemma {:induction false} PowByStep(r: nat, n: nat)
    requires r >= 1
    ensures Pow(r, n) == (r - 1) * Step(r, n) + 1
  {
    if n > 0 {
      PowByStep(r, n - 1);
      StepUnfold(r, n - 1);
      var s, p := Step(r, n - 1), Pow(r, n - 1);
      assert Pow(r, n) == r * p;
      GeometricStep(r, s, p);
    }
  }

  lemma GeometricStep(r: int, s: int, p: int)
    requires p == (r - 1) * s + 1
    ensures r * p == (r - 1) * (1 + r * s) + 1
  {
    Distrib(r, (r - 1) * s, 1);
    Distrib(r - 1, 1, r * s);
    assert r * ((r - 1) * s) == (r - 1) * (r * s);
  }

  /**
   * The slice [::step] over a state of length R^n has exactly R positions:
   * the (R-1)-th lies inside the state and the R-th does not.
   */
  lemma SliceHasRegisterSizePositions(r: nat, n: nat)
    requires r >= 1 && n >= 1
    ensures Step(r, n) >= 1
    ensures (r - 1) * Step(r, n) < Pow(r, n) <= r * Step(r, n)
  {
    PowByStep(r, n);
    StepUnfold(r, n - 1);
    Distrib(Step(r, n), r - 1, 1);
  }

  lemma QuotientBelow(k: nat, r: nat, p: nat)
    requires r >= 1 && k < r * p
    ensures k / r < p
  {
    var q := k / r;
    assert k == r * q + k % r;
    if q >= p {
      MulMono(r, p, q);
      assert false;
    }
  }

  /** Digits then Value is the identity below R^n. */
  lemma {:induction false} ValueOfDigits(k: nat, r: nat, n: nat)
    requires r >= 1 && k < Pow(r, n)
    ensures Value(Digits(k, r, n), r) == k
    decreases n
  {
    if n > 0 {
      QuotientBelow(k, r, Pow(r, n - 1));
      ValueOfDigits(k / r, r, n - 1);
      ValueOfDigitsStep(k, r, n);
    }
  }

  lemma ValueOfDigitsStep(k: nat, r: nat, n: nat)
    requires r >= 1 && n >= 1
    requires Value(Digits(k / r, r, n - 1), r) == k / r
    ensures Value(Digits(k, r, n), r) == k
  {
    var ds := Digits(k, r, n);
    assert ds[1..] == Digits(k / r, r, n - 1);
    assert Value(ds, r) == k % r + r * (k / r);
  }

  /** Value then Digits is the identity on digit strings below R. */
  lemma {:induction false} DigitsOfValue(ds: seq<nat>, r: nat)
    requires r >= 1
    requires forall i | 0 <= i < |ds| :: ds[i] < r
    ensures Digits(Value(ds, r), r, |ds|) == ds
  {
    if ds != [] {
      var v := Value(ds[1..], r);
      DivModUnique(ds[0] + r * v, r, v, ds[0]);
      DigitsOfValue(ds[1..], r);
    }
  }

  /** The n-digit string "jj...j" has the value j * step. */
  lemma {:induction false} ValueOfRepeated(j: nat, r: nat, n: nat)
    ensures Value(seq(n, _ => j), r) == j * Step(r, n)
  {
    if n > 0 {
      var rep := seq(n, _ => j);
      assert rep[1..] == seq(n - 1, _ => j);
      ValueOfRepeated(j, r, n - 1);
      StepUnfold(r, n - 1);
      var s, v := Step(r, n - 1), Value(rep[1..], r);
      assert Value(rep, r) == j + r * v;
      RepeatedStep(j, r, s, v);
    }
  }

  lemma RepeatedStep(j: int, r: int, s: int, v: int)
    requires v == j * s
    ensures j + r * v == j * (1 + r * s)
  {
    Distrib(j, 1, r * s);
    assert r * (j * s) == j * (r * s);
  }

  /** Slice position j (j < R) is the index whose n digits are all j. */
  lemma SlicePositionDigits(j: nat, r: nat, n: nat)
    requires r >= 1 && j < r
    ensures Digits(j * Step(r, n), r, n) == seq(n, _ => j)
  {
    var rep := seq(n, _ => j);
    ValueOfRepeated(j, r, n);
    DigitsOfValue(rep, r);
  }

  /** A multiple of the stride below R^n is one of the R slice positions. */
  lemma MultipleIsSlicePosition(k: nat, r: nat, n: nat)
    requires r >= 1 && n >= 1 && k < Pow(r, n)
    requires Step(r, n) >= 1 && k % Step(r, n) == 0
    ensures k / Step(r, n) < r && k == (k / Step(r, n)) * Step(r, n)
  {
    var step := Step(r, n);
    var j := k / step;
    assert k == step * j;
    SliceHasRegisterSizePositions(r, n);
    if j >= r {
      MulMono(step, r, j);
      assert false;
    }
  }

  /**
   * Prepare's support: below R^n, an index is a multiple of the stride exactly
   * when its n base-R digits are all equal, that is, when every agent's digit
   * is the same outcome.
   */
  lemma SupportIsDiagonal(k: nat, r: nat, n: nat)
    requires r >= 1 && n >= 1 && k < Pow(r, n)
    ensures Step(r, n) >= 1
    ensures k % Step(r, n) == 0 <==> AllEqual(Digits(k, r, n))
  {
    SliceHasRegisterSizePositions(r, n);
    var step := Step(r, n);
    if k % step == 0 {
      MultipleIsSlicePosition(k, r, n);
      SlicePositionDigits(k / step, r, n);
    }
    if AllEqual(Digits(k, r, n)) {
      DiagonalIsMultiple(k, r, n);
    }
  }

  lemma DiagonalIsMultiple(k: nat, r: nat, n: nat)
    requires r >= 1 && n >= 1 && k < Pow(r, n)
    requires AllEqual(Digits(k, r, n))
    ensures Step(r, n) >= 1 && k % Step(r, n) == 0
  {
    SliceHasRegisterSizePositions(r, n);
    var ds := Digits(k, r, n);
    var j := ds[0];
    assert ds == seq(n, _ => j);
    ValueOfDigits(k, r, n);
    ValueOfRepeated(j, r, n);
    DivModUnique(k, Step(r, n), j, 0);
  }

  /** measurement //= R, applied t times. */
  function Shift(k: nat, r: nat, t: nat): nat
    requires r >= 1
    decreases t
  {
    if t == 0 then k else Shift(k / r, r, t - 1)
  }

  /** One more //= R after t of them is t + 1 of them. */
  lemma {:induction false} ShiftOnce(k: nat, r: nat, t: nat)
    requires r >= 1
    ensures Shift(k, r, t) / r == Shift(k, r, t + 1)
    decreases t
  {
    if t > 0 {
      ShiftOnce(k / r, r, t - 1);
      assert Shift(k, r, t) == Shift(k / r, r, t - 1);
      assert Shift(k, r, t + 1) == Shift(k / r, r, t);
    } else {
      assert Shift(k, r, 1) == Shift(k / r, r, 0);
    }
  }

  /** Taking t digits off the front of Digits(k, r, n) leaves the digits of the shifted k. */
  lemma {:induction false} DigitsAfterShift(k: nat, r: nat, t: nat, n: nat)
    requires r >= 1 && t <= n
    ensures Digits(k, r, n) == Digits(k, r, t) + Digits(Shift(k, r, t), r, n - t)
    decreases t
  {
    if t > 0 {
      var q := k / r;
      DigitsAfterShift(q, r, t - 1, n - 1);
      DigitsShiftStep(k, r, t, n);
    } else {
      assert Digits(k, r, 0) == [];
      assert [] + Digits(k, r, n) == Digits(k, r, n);
    }
  }

  /** The inductive step of DigitsAfterShift: the first digit goes to the front part. */
  lemma DigitsShiftStep(k: nat, r: nat, t: nat, n: nat)
    requires r >= 1 && 1 <= t <= n
    requires Digits(k / r, r, n - 1) == Digits(k / r, r, t - 1) + Digits(Shift(k / r, r, t - 1), r, n - t)
    ensures Digits(k, r, n) == Digits(k, r, t) + Digits(Shift(k, r, t), r, n - t)
  {
    var q := k / r;
    var d, front, back := [k % r], Digits(q, r, t - 1), Digits(Shift(q, r, t - 1), r, n - t);
    assert Digits(k, r, n) == d + (front + back);
    assert Digits(k, r, t) == d + front;
    assert Shift(k, r, t) == Shift(q, r, t - 1);
    assert d + (front + back) == (d + front) + back;
  }

  lemma QuotientBelowIff(k: nat, r: nat, p: nat)
    requires r >= 1
    ensures k / r < p <==> k < r * p
  {
    if k < r * p {
      QuotientBelow(k, r, p);
    }
    if k / r < p {
      var q := k / r;
      assert k == r * q + k % r;
      MulMono(r, q + 1, p);
      Distrib(r, q, 1);
    }
  }

  /** After n divisions by R nothing is left exactly when k < R^n. */
  lemma {:induction false} ShiftVanishes(k: nat, r: nat, n: nat)
    requires r >= 1
    ensures Shift(k, r, n) == 0 <==> k < Pow(r, n)
    decreases n
  {
    if n > 0 {
      var p := Pow(r, n - 1);
      ShiftVanishes(k / r, r, n - 1);
      QuotientBelowIff(k, r, p);
      assert Shift(k, r, n) == Shift(k / r, r, n - 1);
      assert Pow(r, n) == r * p;
    }
  }
}
