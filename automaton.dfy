/**
 * LearningAutomaton of CorrelatedAutomata.py: a player whose strategy is a
 * local operation on the shared correlation followed by one block of choice
 * weights per observable value, improved by local hill climbing against a
 * nearest-neighbour prediction of the payoff from a bounded memory of plays.
 *
 * The search directions that RandomBasis draws are inputs of Operate and
 * Choose.
 */
module Automata {
  import opened Wrappers
  import opened Numeric
  import opened RegisterIndex
  import opened Correlations

  /** One entry of _Memory: (observable, local operation, mixed choice, payoff). */
  datatype Record = Record(observable: nat, localOperation: seq<real>, mixedChoice: seq<real>, payoff: real)

  /** A remembered play as a predictor sees it: its squared distance and its payoff. */
  datatype Sample = Sample(distance2: real, payoff: real)

  function Min(a: nat, b: nat): nat { if a < b then a else b }

  /** sum((s1-s2)**2 for s1,s2 in zip(a, b)): zip stops at the shorter operand. */
  function SquaredDistance(a: seq<real>, b: seq<real>): real
  {
    Sum(SquaredDifferences(a, b))
  }

  /** (s1-s2)**2 for each pair of zip(a, b). */
  function SquaredDifferences(a: seq<real>, b: seq<real>): (ds: seq<real>)
    ensures |ds| == Min(|a|, |b|)
  {
    seq(Min(|a|, |b|), i requires 0 <= i < Min(|a|, |b|) => (a[i] - b[i]) * (a[i] - b[i]))
  }

  // ---------------------------------------------------------------------
  // The estimate both predictors compute
  // ---------------------------------------------------------------------

  predicate IsCoincident(x: Sample) { x.distance2 < EPSILON }

  /** The payoffs of the coincident samples, in memory order. */
  function Coincident(samples: seq<Sample>): (c: seq<real>)
    ensures |c| <= |samples|
  {
    if samples == [] then []
    else
      var x := samples[|samples| - 1];
      Coincident(samples[..|samples| - 1]) + (if IsCoincident(x) then [x.payoff] else [])
  }

  /** The sum of payoff * (1 / distance2) over the samples that are not coincident. */
  function WeightedPayoff(samples: seq<Sample>): real
  {
    if samples == [] then 0.0
    else
      var x := samples[|samples| - 1];
      WeightedPayoff(samples[..|samples| - 1]) + (if IsCoincident(x) then 0.0 else x.payoff * (1.0 / x.distance2))
  }

  /** The sum of 1 / distance2 over the samples that are not coincident. */
  function TotalWeight(samples: seq<Sample>): real
  {
    if samples == [] then 0.0
    else
      var x := samples[|samples| - 1];
      TotalWeight(samples[..|samples| - 1]) + (if IsCoincident(x) then 0.0 else 1.0 / x.distance2)
  }

  /**
   * The prediction: the plain mean of the coincident payoffs when there are
   * any, otherwise the inverse-square-distance weighted mean, whose
   * denominator is kept at least EPSILON.
   */
  function Estimate(samples: seq<Sample>): (r: real)
    ensures samples == [] ==> r == 0.0
  {
    assert samples == [] ==> Coincident(samples) == [] && WeightedPayoff(samples) == 0.0;
    var c := Coincident(samples);
    if c != [] then Sum(c) / |c| as real
    else WeightedPayoff(samples) / Max(TotalWeight(samples), EPSILON)
  }

  /** The samples PredictLocalOperationPayoff weighs: every record, by local operation. */
  function LocalOperationSamples(memory: seq<Record>, candidate: seq<real>): (s: seq<Sample>)
    ensures |s| == |memory|
  {
    if memory == [] then []
    else
      var r := memory[|memory| - 1];
      LocalOperationSamples(memory[..|memory| - 1], candidate)
        + [Sample(SquaredDistance(candidate, r.localOperation), r.payoff)]
  }

  /**
   * The samples PredictMixedChoicePayoff weighs: the records made under the
   * same observable, by mixed choice plus local operation.
   */
  function MixedChoiceSamples(memory: seq<Record>, observable: nat, prefix: seq<real>, candidate: seq<real>): (s: seq<Sample>)
    ensures |s| <= |memory|
  {
    if memory == [] then []
    else
      var r := memory[|memory| - 1];
      MixedChoiceSamples(memory[..|memory| - 1], observable, prefix, candidate)
        + (if r.observable != observable then []
           else [Sample(SquaredDistance(candidate, r.mixedChoice) + SquaredDistance(prefix, r.localOperation), r.payoff)])
  }

  /** One more remembered play extends the mixed-choice samples by at most one sample. */
  lemma MixedChoiceSamplesStep(memory: seq<Record>, i: nat, observable: nat, prefix: seq<real>, candidate: seq<real>)
    requires i < |memory|
    ensures var r := memory[i];
            r.observable != observable ==>
              MixedChoiceSamples(memory[..i + 1], observable, prefix, candidate)
                == MixedChoiceSamples(memory[..i], observable, prefix, candidate)
    ensures var r := memory[i];
            r.observable == observable ==>
              MixedChoiceSamples(memory[..i + 1], observable, prefix, candidate)
                == MixedChoiceSamples(memory[..i], observable, prefix, candidate)
                   + [Sample(SquaredDistance(candidate, r.mixedChoice) + SquaredDistance(prefix, r.localOperation), r.payoff)]
  {
    assert memory[..i + 1][..i] == memory[..i];
    var before := MixedChoiceSamples(memory[..i], observable, prefix, candidate);
    assert before + [] == before;
  }

  /** The three running quantities of a predictor after one more sample. */
  lemma AppendSample(samples: seq<Sample>, x: Sample)
    ensures Coincident(samples + [x]) == Coincident(samples) + (if IsCoincident(x) then [x.payoff] else [])
    ensures WeightedPayoff(samples + [x]) == WeightedPayoff(samples) + (if IsCoincident(x) then 0.0 else x.payoff * (1.0 / x.distance2))
    ensures TotalWeight(samples + [x]) == TotalWeight(samples) + (if IsCoincident(x) then 0.0 else 1.0 / x.distance2)
  {
    assert (samples + [x])[..|samples|] == samples;
  }

  // ---------------------------------------------------------------------
  // What the estimate promises
  // ---------------------------------------------------------------------

  lemma {:induction false} SumBetween(s: seq<real>, lo: real, hi: real)
    requires forall i | 0 <= i < |s| :: lo <= s[i] <= hi
    ensures lo * |s| as real <= Sum(s) <= hi * |s| as real
  {
    if s != [] {
      SumBetween(s[..|s| - 1], lo, hi);
    }
  }

  lemma DivBetween(x: real, m: real, lo: real, hi: real)
    requires 0.0 < m && lo * m <= x <= hi * m
    ensures lo <= x / m <= hi
  {
    var q := x / m;
    assert q * m == x;
    assert (q - lo) * m == x - lo * m && (hi - q) * m == hi * m - x;
    PositiveFactor(q - lo, m);
    PositiveFactor(hi - q, m);
  }

  lemma PositiveFactor(a: real, m: real)
    requires 0.0 < m && 0.0 <= a * m
    ensures 0.0 <= a
  {
  }

  lemma {:induction false} CoincidentBetween(samples: seq<Sample>, lo: real, hi: real)
    requires forall i | 0 <= i < |samples| :: lo <= samples[i].payoff <= hi
    ensures forall i | 0 <= i < |Coincident(samples)| :: lo <= Coincident(samples)[i] <= hi
  {
    if samples != [] {
      CoincidentBetween(samples[..|samples| - 1], lo, hi);
    }
  }

  lemma StepBetween(t: real, ws: real, p: real, w: real, lo: real, hi: real)
    requires 0.0 <= t && lo * t <= ws <= hi * t
    requires lo <= p <= hi && 0.0 <= w
    ensures lo * (t + w) <= ws + p * w <= hi * (t + w)
  {
    assert lo * w <= p * w <= hi * w by {
      assert (p - lo) * w >= 0.0 && (hi - p) * w >= 0.0;
    }
  }

  lemma {:induction false} WeightedBetween(samples: seq<Sample>, lo: real, hi: real)
    requires forall i | 0 <= i < |samples| :: lo <= samples[i].payoff <= hi
    ensures 0.0 <= TotalWeight(samples)
    ensures lo * TotalWeight(samples) <= WeightedPayoff(samples) <= hi * TotalWeight(samples)
  {
    if samples != [] {
      WeightedBetween(samples[..|samples| - 1], lo, hi);
      WeightedBetweenStep(samples, lo, hi);
    }
  }

  lemma WeightedBetweenStep(samples: seq<Sample>, lo: real, hi: real)
    requires samples != []
    requires lo <= samples[|samples| - 1].payoff <= hi
    requires var init := samples[..|samples| - 1];
             0.0 <= TotalWeight(init) && lo * TotalWeight(init) <= WeightedPayoff(init) <= hi * TotalWeight(init)
    ensures 0.0 <= TotalWeight(samples)
    ensures lo * TotalWeight(samples) <= WeightedPayoff(samples) <= hi * TotalWeight(samples)
  {
    var init, x := samples[..|samples| - 1], samples[|samples| - 1];
    if !IsCoincident(x) {
      var w := 1.0 / x.distance2;
      assert 0.0 < w;
      StepBetween(TotalWeight(init), WeightedPayoff(init), x.payoff, w, lo, hi);
    }
  }

  /**
   * A prediction never leaves the range of the remembered payoffs once that
   * range includes 0, the value predicted from no data.
   */
  lemma EstimateBetween(samples: seq<Sample>, lo: real, hi: real)
    requires forall i | 0 <= i < |samples| :: lo <= samples[i].payoff <= hi
    requires lo <= 0.0 <= hi
    ensures lo <= Estimate(samples) <= hi
  {
    var c := Coincident(samples);
    if c != [] {
      CoincidentBetween(samples, lo, hi);
      SumBetween(c, lo, hi);
      DivBetween(Sum(c), |c| as real, lo, hi);
    } else {
      WeightedBetween(samples, lo, hi);
      var t, m, ws := TotalWeight(samples), Max(TotalWeight(samples), EPSILON), WeightedPayoff(samples);
      assert lo * t <= ws <= hi * t;
      assert 0.0 <= t <= m;
      assert lo * m <= lo * t;
      assert hi * t <= hi * m;
      DivBetween(ws, m, lo, hi);
    }
  }


  lemma {:induction false} CoincidentOfFar(samples: seq<Sample>, far: seq<Sample>)
    requires forall i | 0 <= i < |far| :: !IsCoincident(far[i])
    ensures Coincident(samples + far) == Coincident(samples)
  {
    if far != [] {
      var init, x := far[..|far| - 1], far[|far| - 1];
      assert (samples + far)[..|samples + far| - 1] == samples + init;
      assert (samples + far)[|samples + far| - 1] == x && !IsCoincident(x);
      CoincidentOfFar(samples, init);
    } else {
      assert samples + far == samples;
    }
  }

  /** Once a coincident record is remembered, farther records do not move the prediction. */
  lemma CoincidentDominates(samples: seq<Sample>, far: seq<Sample>)
    requires Coincident(samples) != []
    requires forall i | 0 <= i < |far| :: !IsCoincident(far[i])
    ensures Estimate(samples + far) == Estimate(samples)
  {
    CoincidentOfFar(samples, far);
  }

  lemma {:induction false} CoincidentAllEqual(samples: seq<Sample>, p: real)
    requires forall i | 0 <= i < |samples| :: IsCoincident(samples[i]) ==> samples[i].payoff == p
    ensures forall i | 0 <= i < |Coincident(samples)| :: Coincident(samples)[i] == p
  {
    if samples != [] {
      CoincidentAllEqual(samples[..|samples| - 1], p);
    }
  }

  /** Coincident records that all paid p predict exactly p. */
  lemma EstimateOfRepeatedPlay(samples: seq<Sample>, p: real)
    requires Coincident(samples) != []
    requires forall i | 0 <= i < |samples| :: IsCoincident(samples[i]) ==> samples[i].payoff == p
    ensures Estimate(samples) == p
  {
    CoincidentAllEqual(samples, p);
    MeanOfEqual(Coincident(samples), p);
  }

  lemma MeanOfEqual(c: seq<real>, p: real)
    requires c != []
    requires forall i | 0 <= i < |c| :: c[i] == p
    ensures Sum(c) / |c| as real == p
  {
    SumBetween(c, p, p);
    MeanOfConstant(Sum(c), |c| as real, p);
  }

  lemma MeanOfConstant(total: real, n: real, p: real)
    requires 0.0 < n && total == n * p
    ensures total / n == p
  {
  }

  // ---------------------------------------------------------------------
  // Candidate strategies and the bounded memory
  // ---------------------------------------------------------------------

  /** [S+d*t for S,d in zip(current, direction)] */
  function Moved(current: seq<real>, direction: seq<real>, t: real): (r: seq<real>)
    ensures |r| == Min(|current|, |direction|)
  {
    seq(Min(|current|, |direction|), i requires 0 <= i < Min(|current|, |direction|) => current[i] + direction[i] * t)
  }

  /** What RandomBasis returns: dim directions of dim coordinates each. */
  predicate IsBasis(basis: seq<seq<real>>, dim: nat)
  {
    |basis| == dim && forall k | 0 <= k < |basis| :: |basis[k]| == dim
  }

  /**
   * The candidates of one hill-climbing step: for each direction, a step of
   * +rate (at index 2k) and of -rate (at index 2k + 1).
   */
  function Candidates(current: seq<real>, basis: seq<seq<real>>, rate: real): (cs: seq<seq<real>>)
    ensures |cs| == 2 * |basis|
  {
    seq(2 * |basis|, i requires 0 <= i < 2 * |basis| =>
      Moved(current, basis[i / 2], if i % 2 == 0 then rate else -rate))
  }

  /** Every candidate has as many coordinates as the strategy part it moves. */
  lemma CandidateShape(current: seq<real>, basis: seq<seq<real>>, rate: real, i: nat)
    requires IsBasis(basis, |current|) && i < 2 * |basis|
    ensures |Candidates(current, basis, rate)[i]| == |current|
  {
    assert |basis[i / 2]| == |current|;
  }

  /**
   * A candidate lies at squared distance rate^2 * |direction|^2 from the
   * current strategy: with unit directions, exactly LearningRate away.
   */
  lemma CandidateDistance(current: seq<real>, direction: seq<real>, t: real)
    requires |direction| == |current|
    ensures SquaredDistance(Moved(current, direction, t), current) == t * t * SquaredNorm(direction)
  {
    MovedDifferences(current, direction, t);
    SumScaled(Squares(direction), t * t);
  }

  /** Coordinate by coordinate, a step of t along d moves (d*t)^2 = t^2 * d^2. */
  lemma MovedDifferences(current: seq<real>, direction: seq<real>, t: real)
    requires |direction| == |current|
    ensures SquaredDifferences(Moved(current, direction, t), current) == Scaled(Squares(direction), t * t)
  {
    var moved := Moved(current, direction, t);
    var diffs := SquaredDifferences(moved, current);
    var scaled := Scaled(Squares(direction), t * t);
    forall i | 0 <= i < |current| ensures diffs[i] == scaled[i] {
      var d := direction[i];
      assert moved[i] - current[i] == d * t;
      SquareOfProduct(d, t);
    }
  }

  lemma SquareOfProduct(d: real, t: real)
    ensures (d * t) * (d * t) == t * t * (d * d)
  {
  }

  function SquaredNorm(d: seq<real>): real
  {
    Sum(Squares(d))
  }

  function Squares(d: seq<real>): (r: seq<real>)
    ensures |r| == |d|
  {
    seq(|d|, i requires 0 <= i < |d| => d[i] * d[i])
  }

  function Scaled(s: seq<real>, c: real): (r: seq<real>)
    ensures |r| == |s|
  {
    seq(|s|, i requires 0 <= i < |s| => c * s[i])
  }

  lemma {:induction false} SumScaled(s: seq<real>, c: real)
    ensures Sum(Scaled(s, c)) == c * Sum(s)
  {
    if s != [] {
      var n := |s|;
      var front := s[..n - 1];
      forall i | 0 <= i < n - 1
        ensures Scaled(s, c)[..n - 1][i] == Scaled(front, c)[i]
      {
        assert s[i] == front[i];
      }
      assert Scaled(s, c)[..n - 1] == Scaled(front, c);
      assert Scaled(s, c)[n - 1] == c * s[n - 1];
      assert c * (Sum(s[..n - 1]) + s[n - 1]) == c * Sum(s[..n - 1]) + c * s[n - 1];
      SumScaled(s[..n - 1], c);
    }
  }

  /**
   * s[a:a+len(block)] = block: only the positions of the block change, and
   * the length stays the same.
   */
  function Splice(s: seq<real>, a: nat, block: seq<real>): (r: seq<real>)
    requires a + |block| <= |s|
    ensures |r| == |s|
    ensures forall i {:trigger r[i]} | 0 <= i < |s| && (i < a || a + |block| <= i) :: r[i] == s[i]
    ensures forall i {:trigger r[i]} | a <= i < a + |block| :: r[i] == block[i - a]
  {
    s[..a] + block + s[a + |block|..]
  }

  /** self._Memory[-MemorySize:]: the last MemorySize records, or all of them when MemorySize is 0. */
  function Keep(records: seq<Record>, size: nat): (kept: seq<Record>)
    ensures size == 0 ==> kept == records
    ensures size >= 1 ==> |kept| == Min(size, |records|)
    ensures kept == records[|records| - |kept|..]
  {
    if size == 0 || |records| <= size then records else records[|records| - size..]
  }

  /** Truncating after every append is the same as truncating once. */
  lemma KeepAppend(records: seq<Record>, x: Record, size: nat)
    ensures Keep(Keep(records, size) + [x], size) == Keep(records + [x], size)
  {
    var kept := Keep(records, size);
    if size >= 1 && |records| > size {
      var all := records + [x];
      assert Keep(kept + [x], size) == (kept + [x])[1..];
      assert (kept + [x])[1..] == all[|all| - size..];
    }
  }

  function Payoffs(records: seq<Record>): (ps: seq<real>)
    ensures |ps| == |records|
  {
    seq(|records|, i requires 0 <= i < |records| => records[i].payoff)
  }

  /** MeanPayoff as a value: total / max(1, played). */
  function Mean(total: real, played: nat): real
  {
    total / (if played < 1 then 1 else played) as real
  }

  /** The mean payoff of a non-empty history lies within the range of its payoffs. */
  lemma MeanBetween(history: seq<Record>, lo: real, hi: real)
    requires |history| >= 1
    requires forall i | 0 <= i < |history| :: lo <= history[i].payoff <= hi
    ensures lo <= Mean(Sum(Payoffs(history)), |history|) <= hi
  {
    SumBetween(Payoffs(history), lo, hi);
    DivBetween(Sum(Payoffs(history)), |history| as real, lo, hi);
  }

  lemma SumPayoffsAppend(history: seq<Record>, x: Record)
    ensures Sum(Payoffs(history + [x])) == Sum(Payoffs(history)) + x.payoff
  {
    assert Payoffs(history + [x])[..|history|] == Payoffs(history);
  }

  /** The scores Operate's max() compares, one per candidate. */
  function LocalOperationScores(memory: seq<Record>, candidates: seq<seq<real>>): (scores: seq<real>)
    ensures |scores| == |candidates|
  {
    seq(|candidates|, i requires 0 <= i < |candidates| => Estimate(LocalOperationSamples(memory, candidates[i])))
  }

  /** The scores Choose's max() compares, one per candidate. */
  function MixedChoiceScores(memory: seq<Record>, observable: nat, prefix: seq<real>, candidates: seq<seq<real>>): (scores: seq<real>)
    ensures |scores| == |candidates|
  {
    seq(|candidates|, i requires 0 <= i < |candidates| =>
      Estimate(MixedChoiceSamples(memory, observable, prefix, candidates[i])))
  }

  /**
   * max(candidates, key=PredictLocalOperationPayoff): the first candidate
   * around the local operation that scores highest.
   */
  function BestLocalOperation(memory: seq<Record>, current: seq<real>, basis: seq<seq<real>>, rate: real): (best: seq<real>)
    requires |basis| >= 1
    ensures IsBasis(basis, |current|) ==> |best| == |current|
  {
    var candidates := Candidates(current, basis, rate);
    var i := ArgMaxFirst(LocalOperationScores(memory, candidates));
    if IsBasis(basis, |current|) then CandidateShape(current, basis, rate, i); candidates[i]
    else candidates[i]
  }

  /**
   * max(candidates, key=PredictMixedChoicePayoff): the first candidate
   * around one block of weights that scores highest.
   */
  function BestMixedChoice(memory: seq<Record>, observable: nat, prefix: seq<real>, block: seq<real>,
                           basis: seq<seq<real>>, rate: real): (best: seq<real>)
    requires |basis| >= 1
    ensures IsBasis(basis, |block|) ==> |best| == |block|
  {
    var candidates := Candidates(block, basis, rate);
    var i := ArgMaxFirst(MixedChoiceScores(memory, observable, prefix, candidates));
    if IsBasis(basis, |block|) then CandidateShape(block, basis, rate, i); candidates[i]
    else candidates[i]
  }

  /**
   * The candidate max() picks: whichever candidate is the first to reach
   * the highest local-operation prediction is the one returned.
   */
  lemma BestLocalOperationIsFirstBest(memory: seq<Record>, current: seq<real>, basis: seq<seq<real>>, rate: real, i: nat)
    requires |basis| >= 1
    requires IsFirstMax(LocalOperationScores(memory, Candidates(current, basis, rate)), i)
    ensures BestLocalOperation(memory, current, basis, rate) == Candidates(current, basis, rate)[i]
  {
    var scores := LocalOperationScores(memory, Candidates(current, basis, rate));
    FirstMaxUnique(scores, ArgMaxFirst(scores), i);
  }

  /**
   * The block max() picks: whichever candidate is the first to reach the
   * highest mixed-choice prediction is the one returned.
   */
  lemma BestMixedChoiceIsFirstBest(memory: seq<Record>, observable: nat, prefix: seq<real>, block: seq<real>,
                                   basis: seq<seq<real>>, rate: real, i: nat)
    requires |basis| >= 1
    requires IsFirstMax(MixedChoiceScores(memory, observable, prefix, Candidates(block, basis, rate)), i)
    ensures BestMixedChoice(memory, observable, prefix, block, basis, rate) == Candidates(block, basis, rate)[i]
  {
    var scores := MixedChoiceScores(memory, observable, prefix, Candidates(block, basis, rate));
    FirstMaxUnique(scores, ArgMaxFirst(scores), i);
  }

  /** The block of observable value obs lies inside r blocks when obs < r. */
  lemma {:induction false} BlockInside(c: nat, obs: nat, r: nat)
    requires obs < r
    ensures Times(c, obs) + c <= Times(c, r)
  {
    if obs + 1 < r {
      BlockInside(c, obs, r - 1);
    }
  }

  class LearningAutomaton {
    const correlation: Correlation
    /** The agent handle under which the automaton is registered (id(self) in Python). */
    const handle: int
    const choicesCount: nat
    const memorySize: nat
    const learningRate: real
    /** _LocalOperationParametersCount: P, the length of the strategy's prefix. */
    const parametersCount: nat
    var memory: seq<Record>
    /** P local operation parameters, then RegisterSize blocks of ChoicesCount weights. */
    var strategy: seq<real>
    /** _Observable: the value seen at the last Choose. */
    var observable: Option<nat>
    var totalPayoff: real
    var totalPlayed: nat
    /** Every record Remember has made, oldest first. */
    ghost var history: seq<Record>

    ghost predicate Valid()
      reads this, correlation`agents
    {
      && handle in correlation.agents
      && parametersCount == ParametersCount(correlation.kind, correlation.registerSize)
      && parametersCount >= 1
      && |strategy| == parametersCount + Times(choicesCount, correlation.registerSize)
      && (observable.Some? ==> observable.value < correlation.registerSize)
      && memory == Keep(history, memorySize)
      && totalPlayed == |history|
      && totalPayoff == Sum(Payoffs(history))
    }

    /** The start of the weights block of observable value obs. */
    function BlockStart(obs: nat): nat
    {
      parametersCount + Times(choicesCount, obs)
    }

    /** Registers a fresh handle with the correlation; the strategy starts at all zeros. */
    constructor (correlation: Correlation, handle: int, choicesCount: nat, memorySize: nat, learningRate: real)
      requires correlation.Valid()
      requires handle !in correlation.agents
      modifies correlation`agents, correlation`order
      ensures Valid() && correlation.Valid()
      ensures this.correlation == correlation && this.handle == handle
      ensures this.choicesCount == choicesCount && this.memorySize == memorySize
      ensures this.learningRate == learningRate
      ensures correlation.agents == old(correlation.agents)[handle := |old(correlation.agents)|]
      ensures correlation.order == old(correlation.order) + [handle]
      ensures strategy == seq(parametersCount + Times(choicesCount, correlation.registerSize), _ => 0.0)
      ensures memory == [] && history == [] && observable == None
      ensures totalPayoff == 0.0 && totalPlayed == 0
    {
      var outcome := correlation.RegisterAgent(handle);
      this.correlation := correlation;
      this.handle := handle;
      this.choicesCount := choicesCount;
      this.memorySize := memorySize;
      this.learningRate := learningRate;
      var p := ParametersCount(correlation.kind, correlation.registerSize);
      parametersCount := p;
      memory := [];
      strategy := seq(p + Times(choicesCount, correlation.registerSize), _ => 0.0);
      observable := None;
      totalPayoff := 0.0;
      totalPlayed := 0;
      history := [];
    }

    /** PredictLocalOperationPayoff: the estimate over every remembered play. */
    method PredictLocalOperationPayoff(candidate: seq<real>) returns (estimate: real)
      ensures estimate == Estimate(LocalOperationSamples(memory, candidate))
    {
      var mem := memory;
      var result, weight := 0.0, 0.0;
      var coincidents: seq<real> := [];
      ghost var seen: seq<Sample> := [];
      var i := 0;
      while i < |mem|
        invariant 0 <= i <= |mem|
        invariant seen == LocalOperationSamples(mem[..i], candidate)
        invariant Accumulated(seen, coincidents, result, weight)
      {
        assert mem[..i + 1][..i] == mem[..i];
        var x := Sample(SquaredDistance(candidate, mem[i].localOperation), mem[i].payoff);
        coincidents, result, weight := Absorb(seen, coincidents, result, weight, x);
        seen := seen + [x];
        i := i + 1;
      }
      assert mem[..i] == mem;
      estimate := Conclude(seen, coincidents, result, weight);
    }

    /**
     * PredictMixedChoicePayoff: the estimate over the plays remembered under
     * the current observable, measured in the mixed choice plus the local
     * operation.
     */
    method PredictMixedChoicePayoff(candidate: seq<real>) returns (estimate: real)
      requires observable.Some? && parametersCount <= |strategy|
      ensures estimate == Estimate(MixedChoiceSamples(memory, observable.value, strategy[..parametersCount], candidate))
    {
      var prefix := strategy[..parametersCount];
      var obs := observable.value;
      var mem := memory;
      var result, weight := 0.0, 0.0;
      var coincidents: seq<real> := [];
      ghost var seen: seq<Sample> := [];
      var i := 0;
      while i < |mem|
        invariant 0 <= i <= |mem|
        invariant seen == MixedChoiceSamples(mem[..i], obs, prefix, candidate)
        invariant Accumulated(seen, coincidents, result, weight)
      {
        MixedChoiceSamplesStep(mem, i, obs, prefix, candidate);
        if mem[i].observable != obs {
          i := i + 1;
          continue;
        }
        var distance2 := SquaredDistance(candidate, mem[i].mixedChoice);
        distance2 := distance2 + SquaredDistance(prefix, mem[i].localOperation);
        var x := Sample(distance2, mem[i].payoff);
        coincidents, result, weight := Absorb(seen, coincidents, result, weight, x);
        seen := seen + [x];
        i := i + 1;
      }
      assert mem[..i] == mem;
      estimate := Conclude(seen, coincidents, result, weight);
    }

    /**
     * max(candidates, key=PredictLocalOperationPayoff) over the candidates
     * around the local operation prefix.
     */
    method SelectLocalOperation(basis: seq<seq<real>>) returns (best: seq<real>)
      requires 1 <= parametersCount <= |strategy| && IsBasis(basis, parametersCount)
      ensures best == BestLocalOperation(memory, strategy[..parametersCount], basis, learningRate)
    {
      var candidates := Candidates(strategy[..parametersCount], basis, learningRate);
      var scores := [];
      var k := 0;
      while k < |candidates|
        invariant 0 <= k <= |candidates| && |scores| == k
        invariant forall j | 0 <= j < k :: scores[j] == LocalOperationScores(memory, candidates)[j]
      {
        var score := PredictLocalOperationPayoff(candidates[k]);
        scores := scores + [score];
        k := k + 1;
      }
      assert scores == LocalOperationScores(memory, candidates);
      best := candidates[ArgMaxFirst(scores)];
    }

    /**
     * max(candidates, key=PredictMixedChoicePayoff) over the candidates
     * around the block of weights that starts at a.
     */
    method SelectMixedChoice(a: nat, basis: seq<seq<real>>) returns (best: seq<real>)
      requires observable.Some? && parametersCount <= |strategy| && a + choicesCount <= |strategy|
      requires choicesCount >= 1 && IsBasis(basis, choicesCount)
      ensures best == BestMixedChoice(memory, observable.value, strategy[..parametersCount],
                                      strategy[a..a + choicesCount], basis, learningRate)
    {
      var candidates := Candidates(strategy[a..a + choicesCount], basis, learningRate);
      var scores := [];
      var k := 0;
      while k < |candidates|
        invariant 0 <= k <= |candidates| && |scores| == k
        invariant forall j | 0 <= j < k ::
                    scores[j] == MixedChoiceScores(memory, observable.value, strategy[..parametersCount], candidates)[j]
      {
        var score := PredictMixedChoicePayoff(candidates[k]);
        scores := scores + [score];
        k := k + 1;
      }
      assert scores == MixedChoiceScores(memory, observable.value, strategy[..parametersCount], candidates);
      best := candidates[ArgMaxFirst(scores)];
    }

    /** SelectMixedChoice at the current observable's block: the block ClimbedFrom names. */
    method SelectClimbedBlock(a: nat, basis: seq<seq<real>>) returns (best: seq<real>)
      requires observable.Some? && choicesCount >= 1 && IsBasis(basis, choicesCount)
      requires a == BlockStart(observable.value) && a + choicesCount <= |strategy|
      ensures best == ClimbedBlock(strategy, basis) && |best| == choicesCount
    {
      best := SelectMixedChoice(a, basis);
      ClimbedBlockIs(strategy, basis, a, best);
    }

    /** s[a:a+len(block)] = block on the strategy, for the block of the current observable. */
    method Place(a: nat, block: seq<real>)
      requires Valid() && observable.Some? && a == BlockStart(observable.value)
      requires |block| == choicesCount && a + choicesCount <= |strategy|
      modifies this`strategy
      ensures Valid()
      ensures strategy == Splice(old(strategy), a, block)
    {
      strategy := Splice(strategy, a, block);
    }

    /**
     * Operate: moves the local operation prefix to the first best-scoring
     * candidate and applies it to the correlation. The rest of the strategy
     * is unchanged; the correlation fails only when it has no slot for the
     * agent in its prepared state.
     */
    method Operate(basis: seq<seq<real>>) returns (outcome: Outcome)
      requires Valid() && correlation.Valid()
      requires IsBasis(basis, parametersCount)
      modifies this`strategy, correlation`operations, correlation`matrices
      ensures Valid() && correlation.Valid()
      ensures strategy == Splice(old(strategy), 0, BestLocalOperation(memory, old(strategy)[..parametersCount], basis, learningRate))
      ensures var slot := correlation.SlotOf(handle);
              && (outcome.Pass? <==>
                    slot < (if correlation.kind.Classical? then |correlation.operations| else |correlation.matrices|))
              && (outcome.Fail? ==> outcome.error == NoOperationSlot(handle))
      ensures outcome.Fail? ==>
                correlation.operations == old(correlation.operations) && correlation.matrices == old(correlation.matrices)
      ensures outcome.Pass? && correlation.kind.Classical? ==>
                && correlation.SlotOf(handle) < |old(correlation.operations)|
                && correlation.operations == old(correlation.operations)[correlation.SlotOf(handle) := strategy[..parametersCount]]
                && correlation.matrices == old(correlation.matrices)
      ensures outcome.Pass? && correlation.kind.Quantum? ==>
                && correlation.SlotOf(handle) < |old(correlation.matrices)|
                && correlation.matrices == old(correlation.matrices)[correlation.SlotOf(handle) := Unitary(strategy[..parametersCount])]
                && correlation.operations == old(correlation.operations)
    {
      var p := parametersCount;
      var best := SelectLocalOperation(basis);
      strategy := Splice(strategy, 0, best);
      assert strategy[..p] == best;
      outcome := correlation.LocalOperation(handle, strategy[..p]);
    }

    /** The block max() picks for the current observable, climbing from the strategy `before`. */
    ghost function ClimbedBlock(before: seq<real>, basis: seq<seq<real>>): seq<real>
      reads this`memory, this`observable
      requires observable.Some? && choicesCount >= 1 && IsBasis(basis, choicesCount)
      requires BlockStart(observable.value) + choicesCount <= |before|
    {
      BestMixedChoice(memory, observable.value, before[..parametersCount],
                      before[BlockStart(observable.value)..BlockStart(observable.value) + choicesCount], basis, learningRate)
    }

    /**
     * What Choose leaves behind when it climbs from the strategy `before`:
     * the block of the current observable holds the first best-scoring
     * candidate around its old weights, every other weight is as before, and
     * `distribution` is that block normalised.
     */
    ghost predicate ClimbedFrom(before: seq<real>, basis: seq<seq<real>>, distribution: seq<real>)
      reads this
    {
      && observable.Some? && choicesCount >= 1 && IsBasis(basis, choicesCount)
      && BlockStart(observable.value) + choicesCount <= |before|
      && StrategyClimbed(before, basis)
      && distribution == NormalizedToOne(AbsAll(ClimbedBlock(before, basis)))
    }

    /** The strategy is `before` with the current observable's block replaced by ClimbedBlock. */
    ghost predicate StrategyClimbed(before: seq<real>, basis: seq<seq<real>>)
      reads this
      requires observable.Some? && choicesCount >= 1 && IsBasis(basis, choicesCount)
      requires BlockStart(observable.value) + choicesCount <= |before|
    {
      strategy == Splice(before, BlockStart(observable.value), ClimbedBlock(before, basis))
    }

    /** The block SelectMixedChoice returns at the current observable's start is ClimbedBlock. */
    lemma ClimbedBlockIs(before: seq<real>, basis: seq<seq<real>>, a: nat, best: seq<real>)
      requires observable.Some? && choicesCount >= 1 && IsBasis(basis, choicesCount)
      requires a == BlockStart(observable.value) && a + choicesCount <= |before|
      requires best == BestMixedChoice(memory, observable.value, before[..parametersCount],
                                       before[a..a + choicesCount], basis, learningRate)
      ensures best == ClimbedBlock(before, basis)
    {
    }

    /** ClimbedFrom from the block placed and the distribution computed. */
    lemma ClimbedFromParts(before: seq<real>, basis: seq<seq<real>>, distribution: seq<real>, a: nat, best: seq<real>)
      requires observable.Some? && choicesCount >= 1 && IsBasis(basis, choicesCount)
      requires a == BlockStart(observable.value) && a + choicesCount <= |before|
      requires best == ClimbedBlock(before, basis)
      requires strategy == Splice(before, a, best)
      requires distribution == NormalizedToOne(AbsAll(best))
      ensures ClimbedFrom(before, basis, distribution)
    {
    }

    /**
     * The second half of Choose, once the observable is recorded: moves its
     * block of weights to the first best-scoring candidate and returns the
     * block as a probability distribution over the choices.
     */
    method ClimbBlock(basis: seq<seq<real>>) returns (distribution: seq<real>)
      requires Valid() && observable.Some? && choicesCount >= 1
      requires IsBasis(basis, choicesCount)
      modifies this`strategy
      ensures Valid()
      ensures ClimbedFrom(old(strategy), basis, distribution)
      ensures |distribution| == choicesCount
      ensures forall i | 0 <= i < |distribution| :: 0.0 <= distribution[i]
      ensures Sum(AbsAll(distribution)) == 1.0
    {
      ghost var before := strategy;
      var a := BlockStart(observable.value);
      BlockInside(choicesCount, observable.value, correlation.registerSize);
      var best := SelectClimbedBlock(a, basis);
      Place(a, best);
      distribution := Distribute(before, basis, a, best);
    }

    /** normalize_to_one of the absolute values of the climbed block: a probability distribution. */
    method Distribute(ghost before: seq<real>, basis: seq<seq<real>>, ghost a: nat, best: seq<real>)
      returns (distribution: seq<real>)
      requires observable.Some? && choicesCount >= 1 && IsBasis(basis, choicesCount)
      requires a == BlockStart(observable.value) && a + choicesCount <= |before|
      requires best == ClimbedBlock(before, basis) && |best| == choicesCount
      requires strategy == Splice(before, a, best)
      ensures ClimbedFrom(before, basis, distribution)
      ensures |distribution| == choicesCount
      ensures forall i | 0 <= i < |distribution| :: 0.0 <= distribution[i]
      ensures Sum(AbsAll(distribution)) == 1.0
    {
      NormalizedToOneOfAbs(best);
      distribution := NormalizedToOne(AbsAll(best));
      ClimbedFromParts(before, basis, distribution, a, best);
    }

    /**
     * Choose: reads the agent's observable, then climbs the block of
     * weights kept for that observable. It fails when the correlation has
     * no observable for the agent, and when there are no choices to pick.
     */
    method Choose(basis: seq<seq<real>>) returns (result: Result<seq<real>>)
      requires Valid() && correlation.ObservablesInRange()
      requires IsBasis(basis, choicesCount)
      modifies this`observable, this`strategy
      ensures Valid()
      ensures var seen := correlation.Observable(handle);
              && (seen.Err? ==> result == Err(seen.error) && observable == old(observable))
              && (seen.Ok? ==> observable == Some(seen.value))
      ensures result.Err? ==> strategy == old(strategy)
      ensures correlation.Observable(handle).Ok? && choicesCount == 0 ==> result == Err(NoCandidates)
      ensures correlation.Observable(handle).Ok? && choicesCount >= 1 ==> result.Ok?
      ensures result.Ok? ==> ClimbedFrom(old(strategy), basis, result.value)
      ensures result.Ok? ==>
                && |result.value| == choicesCount
                && (forall i | 0 <= i < |result.value| :: 0.0 <= result.value[i])
                && Sum(AbsAll(result.value)) == 1.0
    {
      var seen := correlation.Observable(handle);
      if seen.Err? {
        return Err(seen.error);
      }
      observable := Some(seen.value);
      if choicesCount == 0 {
        return Err(NoCandidates);
      }
      var distribution := ClimbBlock(basis);
      return Ok(distribution);
    }

    /**
     * The record of the play just made: the observable, the local operation
     * prefix and the block of weights used for that observable.
     */
    function Play(payoff: real): (r: Record)
      reads this`observable, this`strategy
      requires observable.Some? && observable.value < correlation.registerSize
      requires |strategy| == parametersCount + Times(choicesCount, correlation.registerSize)
      ensures r.observable < correlation.registerSize
      ensures |r.localOperation| == parametersCount && |r.mixedChoice| == choicesCount
    {
      var a := BlockStart(observable.value);
      BlockInside(choicesCount, observable.value, correlation.registerSize);
      Record(observable.value, strategy[..parametersCount], strategy[a..a + choicesCount], payoff)
    }

    /**
     * Remember: appends the record of the last play, keeps the last
     * MemorySize records and counts the payoff. Before any Choose there is
     * no observable to record.
     */
    method Remember(payoff: real) returns (outcome: Outcome)
      requires Valid()
      modifies this`memory, this`totalPayoff, this`totalPlayed, this`history
      ensures Valid()
      ensures outcome.Fail? <==> observable.None?
      ensures outcome.Fail? ==> outcome.error == NotChosen && history == old(history)
      ensures outcome.Pass? ==>
                && history == old(history) + [Play(payoff)]
                && memory == Keep(old(memory) + [Play(payoff)], memorySize)
                && totalPlayed == old(totalPlayed) + 1
                && totalPayoff == old(totalPayoff) + payoff
    {
      if observable.None? {
        return Fail(NotChosen);
      }
      var obs := observable.value;
      var a := BlockStart(obs);
      BlockInside(choicesCount, obs, correlation.registerSize);
      var block := strategy[a..][..choicesCount];
      assert block == strategy[a..a + choicesCount];
      var record := Record(obs, strategy[..parametersCount], block, payoff);
      assert record == Play(payoff);
      KeepAppend(history, record, memorySize);
      SumPayoffsAppend(history, record);
      memory := Keep(memory + [record], memorySize);
      history := history + [record];
      totalPayoff := totalPayoff + payoff;
      totalPlayed := totalPlayed + 1;
      return Pass;
    }

    /** MeanPayoff: the mean payoff over the whole history, 0 before any play. */
    function MeanPayoff(): (mean: real)
      reads this, correlation`agents
      requires Valid()
      ensures totalPlayed == 0 ==> mean == 0.0
      ensures totalPlayed >= 1 ==> mean * totalPlayed as real == totalPayoff
    {
      Mean(totalPayoff, totalPlayed)
    }
  }

  /**
   * The running values of a predictor's loop after the samples `seen`: the
   * coincident payoffs, and, while there are none, the weighted payoff sum
   * and the weight sum.
   */
  ghost predicate Accumulated(seen: seq<Sample>, coincidents: seq<real>, result: real, weight: real)
  {
    && coincidents == Coincident(seen)
    && (coincidents == [] ==> result == WeightedPayoff(seen) && weight == TotalWeight(seen))
  }

  /**
   * The body both predictors run for one considered record: a coincident
   * payoff is collected; otherwise, while nothing coincident has been seen,
   * the payoff is weighted by 1 / distance2.
   */
  method Absorb(ghost seen: seq<Sample>, coincidents: seq<real>, result: real, weight: real, x: Sample)
    returns (coincidents': seq<real>, result': real, weight': real)
    requires Accumulated(seen, coincidents, result, weight)
    ensures Accumulated(seen + [x], coincidents', result', weight')
  {
    AppendSample(seen, x);
    coincidents', result', weight' := coincidents, result, weight;
    if x.distance2 < EPSILON {
      coincidents' := coincidents + [x.payoff];
    } else if coincidents == [] {
      var w := 1.0 / x.distance2;
      result' := result + x.payoff * w;
      weight' := weight + w;
    }
  }

  /** The value both predictors return once every record has been considered. */
  method Conclude(ghost seen: seq<Sample>, coincidents: seq<real>, result: real, weight: real) returns (estimate: real)
    requires Accumulated(seen, coincidents, result, weight)
    ensures estimate == Estimate(seen)
  {
    if coincidents != [] {
      estimate := Sum(coincidents) / |coincidents| as real;
    } else {
      estimate := result / Max(weight, EPSILON);
    }
  }

  /** Absolute values are non-negative, so the normalised block is a probability distribution. */
  lemma NormalizedToOneOfAbs(block: seq<real>)
    requires |block| > 0
    ensures forall i | 0 <= i < |block| :: 0.0 <= NormalizedToOne(AbsAll(block))[i]
    ensures |NormalizedToOne(AbsAll(block))| == |block|
    ensures Sum(AbsAll(NormalizedToOne(AbsAll(block)))) == 1.0
  {
    NormalizedToOneSumsToOne(AbsAll(block));
  }
}
