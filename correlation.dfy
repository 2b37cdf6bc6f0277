/**
 * The shared-signal protocol of CorrelatedAutomata.py: the Correlation base
 * class with its two variants, ClassicalCorrelation and QuantumCorrelation,
 * as one class whose `kind` says which variant it is.
 *
 * One round is Prepare, then LocalOperation per agent, then Observe, then
 * Observable per agent. The random register (classical) and the measured
 * joint index (quantum) are inputs of Prepare and Observe.
 */
module Correlations {
  import opened Wrappers
  import opened Numeric
  import opened RegisterIndex

  datatype Kind = Classical | Quantum

  /**
   * A quantum local operation. The matrix that Unitary() builds from the
   * parameters is not modelled; the model keeps the parameters it was built from.
   */
  datatype Matrix = Identity | Unitary(parameters: seq<real>)

  /**
   * An amplitude of the quantum state as far as the model follows it: zero,
   * or RegisterSize ** -0.5 as Prepare writes it.
   */
  datatype Amplitude = Zero | RootInverse

  /** LocalOperationParametersCount: R weights, or the R*R parameters of a unitary. */
  function ParametersCount(kind: Kind, registerSize: nat): nat
  {
    match kind
    case Classical => registerSize
    case Quantum => Times(registerSize, registerSize)
  }

  /**
   * a * k, written as k additions of a so that the lengths built from it
   * stay linear arithmetic for the solver.
   */
  function Times(a: nat, k: nat): nat
  {
    if k == 0 then 0 else Times(a, k - 1) + a
  }

  lemma {:induction false} TimesIsProduct(a: nat, k: nat)
    ensures Times(a, k) == a * k
  {
    if k > 0 {
      TimesIsProduct(a, k - 1);
      assert a * k == a * (k - 1) + a;
    }
  }

  /** register[i] * |operation[i]|, the values a classical observable maximises. */
  function Weights(register: seq<real>, operation: seq<real>): (ws: seq<real>)
    requires |register| == |operation|
  {
    seq(|register|, i requires 0 <= i < |register| => register[i] * Abs(operation[i]))
  }

  /** The quantum state Prepare builds: non-zero exactly at the multiples of the stride. */
  function EntangledSupport(registerSize: nat, agents: nat): (amps: seq<Amplitude>)
    requires registerSize >= 1 && agents >= 1
  {
    var step := Step(registerSize, agents);
    SliceHasRegisterSizePositions(registerSize, agents);
    seq(Pow(registerSize, agents), k => if k % step == 0 then RootInverse else Zero)
  }

  class Correlation {
    const kind: Kind
    /** The amount of shared randomness per play: outcomes are 0..registerSize-1. */
    const registerSize: nat
    /** _Agents: handle to slot. */
    var agents: map<int, nat>
    /** The keys of _Agents in insertion order: order[slot] is the handle with that slot. */
    ghost var order: seq<int>
    /** Whether Prepare has run at least once (the attributes it sets exist). */
    var prepared: bool
    /** ClassicalCorrelation._Operations and ._Register. */
    var operations: seq<seq<real>>
    var register: seq<real>
    /** QuantumCorrelation._Matrices and ._QuantumState. */
    var matrices: seq<Matrix>
    var amplitudes: seq<Amplitude>
    /** _Observables, by slot; empty before the first Observe. */
    var observables: seq<nat>

    ghost predicate Valid()
      reads this
    {
      && registerSize >= 1
      && |order| == |agents|
      && (forall slot | 0 <= slot < |order| :: order[slot] in agents && agents[order[slot]] == slot)
      && (forall h | h in agents :: agents[h] < |order| && order[agents[h]] == h)
      && (forall slot | 0 <= slot < |operations| :: |operations[slot]| == registerSize)
      && (prepared && kind.Classical? ==> |register| == registerSize)
      && ObservablesInRange()
    }

    /** Every observable is an outcome 0..registerSize-1. */
    ghost predicate ObservablesInRange()
      reads this
    {
      forall slot | 0 <= slot < |observables| :: observables[slot] < registerSize
    }

    /** Slot of a registered handle. */
    function SlotOf(handle: int): nat
      reads this`agents
      requires handle in agents
    {
      agents[handle]
    }

    /** LocalOperationParametersCount: R weights for the classical kind, R*R unitary parameters for the quantum one
     * (Times, which TimesIsProduct shows to be the product). */
    function LocalOperationParametersCount(): (n: nat)
      ensures kind.Classical? ==> n == registerSize
      ensures kind.Quantum? ==> n == Times(registerSize, registerSize)
    {
      ParametersCount(kind, registerSize)
    }

    constructor (kind: Kind, registerSize: nat)
      requires registerSize >= 1
      ensures Valid()
      ensures this.kind == kind && this.registerSize == registerSize
      ensures agents == map[] && order == [] && !prepared
      ensures operations == [] && register == [] && matrices == [] && amplitudes == []
      ensures observables == []
    {
      this.kind := kind;
      this.registerSize := registerSize;
      agents := map[];
      order := [];
      prepared := false;
      operations, register := [], [];
      matrices, amplitudes := [], [];
      observables := [];
    }

    /** RegisterAgent: the next free slot for a new handle; a known handle fails. */
    method RegisterAgent(handle: int) returns (outcome: Outcome)
      requires Valid()
      modifies this`agents, this`order
      ensures Valid()
      ensures outcome.Fail? <==> handle in old(agents)
      ensures outcome.Fail? ==> outcome.error == DuplicateAgent(handle)
      ensures outcome.Fail? ==> agents == old(agents) && order == old(order)
      ensures outcome.Pass? ==> agents == old(agents)[handle := |old(agents)|]
      ensures outcome.Pass? ==> order == old(order) + [handle]
    {
      if handle in agents {
        return Fail(DuplicateAgent(handle));
      }
      agents := agents[handle := |agents|];
      order := order + [handle];
      return Pass;
    }

    /**
     * ClassicalCorrelation.Prepare with the R uniform draws given: every
     * slot's weights become the impartial 1/R and the register is the draw.
     */
    method PrepareClassical(draw: seq<real>)
      requires Valid() && kind.Classical?
      requires |draw| == registerSize
      modifies this`prepared, this`operations, this`register
      ensures Valid() && prepared
      ensures |operations| == |agents|
      ensures forall slot | 0 <= slot < |operations| :: operations[slot] == Uniform(registerSize)
      ensures register == draw
    {
      operations := seq(|agents|, _ => Uniform(registerSize));
      register := draw;
      prepared := true;
    }

    /**
     * QuantumCorrelation.Prepare: every matrix becomes the identity and the
     * state of length R^n is non-zero exactly at the R multiples of the
     * stride, the indices whose n digits are all equal. With no agents the
     * stride is 0 and the slice assignment fails.
     */
    method PrepareQuantum() returns (outcome: Outcome)
      requires Valid() && kind.Quantum?
      modifies this`prepared, this`matrices, this`amplitudes
      ensures Valid() && prepared
      ensures matrices == seq(|agents|, _ => Identity)
      ensures outcome.Fail? <==> |agents| == 0
      ensures outcome.Fail? ==> outcome.error == ZeroSliceStep && amplitudes == [Zero]
      ensures outcome.Pass? ==> |amplitudes| == Pow(registerSize, |agents|)
      ensures outcome.Pass? ==> forall k | 0 <= k < |amplitudes| ::
                amplitudes[k].RootInverse? <==> AllEqual(Digits(k, registerSize, |agents|))
    {
      var n := |agents|;
      matrices := seq(n, _ => Identity);
      prepared := true;
      if n == 0 {
        amplitudes := [Zero];
        return Fail(ZeroSliceStep);
      }
      amplitudes := EntangledSupport(registerSize, n);
      forall k | 0 <= k < |amplitudes|
        ensures amplitudes[k].RootInverse? <==> AllEqual(Digits(k, registerSize, n))
      {
        SupportIsDiagonal(k, registerSize, n);
      }
      return Pass;
    }

    /**
     * LocalOperation: checks the handle, then the parameter count, then
     * stores the operation in the agent's slot of the prepared state.
     * Only that slot changes.
     */
    method LocalOperation(handle: int, parameters: seq<real>) returns (outcome: Outcome)
      requires Valid()
      modifies this`operations, this`matrices
      ensures Valid()
      ensures handle !in agents ==> outcome == Fail(UnknownAgent(handle))
      ensures handle in agents && |parameters| != LocalOperationParametersCount() ==>
                outcome == Fail(IncorrectLocalOperation(handle))
      ensures handle in agents && |parameters| == LocalOperationParametersCount() && outcome.Fail? ==>
                outcome.error == NoOperationSlot(handle)
      ensures outcome.Fail? ==> operations == old(operations) && matrices == old(matrices)
      ensures outcome.Pass? <==>
                && handle in agents
                && |parameters| == LocalOperationParametersCount()
                && SlotOf(handle) < (if kind.Classical? then |operations| else |matrices|)
      ensures outcome.Pass? && kind.Classical? ==>
                && SlotOf(handle) < |old(operations)|
                && operations == old(operations)[SlotOf(handle) := parameters]
                && matrices == old(matrices)
      ensures outcome.Pass? && kind.Quantum? ==>
                && SlotOf(handle) < |old(matrices)|
                && matrices == old(matrices)[SlotOf(handle) := Unitary(parameters)]
                && operations == old(operations)
    {
      if handle !in agents {
        return Fail(UnknownAgent(handle));
      }
      if |parameters| != LocalOperationParametersCount() {
        return Fail(IncorrectLocalOperation(handle));
      }
      var slot := agents[handle];
      match kind {
        case Classical =>
          if slot >= |operations| {
            return Fail(NoOperationSlot(handle));
          }
          operations := operations[slot := parameters];
        case Quantum =>
          if slot >= |matrices| {
            return Fail(NoOperationSlot(handle));
          }
          matrices := matrices[slot := Unitary(parameters)];
      }
      return Pass;
    }

    /**
     * ClassicalCorrelation.Observe: one observable per stored operation, in
     * slot order; each is the first index maximising register[i] * |op[i]|,
     * so slots with equal operations observe the same value.
     */
    method ObserveClassical() returns (outcome: Outcome)
      requires Valid() && kind.Classical?
      modifies this`observables
      ensures Valid()
      ensures outcome.Fail? <==> !prepared
      ensures outcome.Fail? ==> outcome.error == NotPrepared && observables == old(observables)
      ensures outcome.Pass? ==> |observables| == |operations|
      ensures outcome.Pass? ==> forall slot | 0 <= slot < |observables| ::
                IsFirstMax(Weights(register, operations[slot]), observables[slot])
      ensures outcome.Pass? ==> forall s, t | 0 <= s < |observables| && 0 <= t < |observables| ::
                operations[s] == operations[t] ==> observables[s] == observables[t]
    {
      if !prepared {
        return Fail(NotPrepared);
      }
      var result: seq<nat> := [];
      var slot := 0;
      while slot < |operations|
        invariant 0 <= slot <= |operations| && |result| == slot
        invariant forall s | 0 <= s < slot :: IsFirstMax(Weights(register, operations[s]), result[s])
      {
        result := result + [ArgMaxFirst(Weights(register, operations[slot]))];
        slot := slot + 1;
      }
      observables := result;
      forall s, t | 0 <= s < |observables| && 0 <= t < |observables| && operations[s] == operations[t]
        ensures observables[s] == observables[t]
      {
        FirstMaxUnique(Weights(register, operations[s]), observables[s], observables[t]);
      }
      return Pass;
    }

    /**
     * QuantumCorrelation.Observe with the measured joint index given (the
     * tensor contraction and the probabilities it samples from are not
     * modelled). Agent slot k observes the k-th base-R digit of the index,
     * counting from the least significant one; the final check fails when
     * the index is not below R^n.
     */
    method ObserveQuantum(measurement: nat) returns (outcome: Outcome)
      requires Valid() && kind.Quantum?
      modifies this`observables
      ensures Valid()
      ensures !prepared ==> outcome == Fail(NotPrepared)
      ensures prepared && |matrices| != |agents| ==> outcome == Fail(StateMismatch)
      ensures outcome.Pass? <==>
                prepared && |matrices| == |agents| && measurement < Pow(registerSize, |agents|)
      ensures prepared && |matrices| == |agents| ==>
                observables == Digits(measurement, registerSize, |agents|)
      ensures outcome.Pass? ==> Value(observables, registerSize) == measurement
      ensures !prepared || |matrices| != |agents| ==> observables == old(observables)
    {
      if !prepared {
        return Fail(NotPrepared);
      }
      var n := |agents|;
      if |matrices| != n {
        return Fail(StateMismatch);
      }
      var r := registerSize;
      var rest := measurement;
      var result: seq<nat> := [];
      var t := 0;
      while t < n
        invariant 0 <= t <= n && |result| == t
        invariant rest == Shift(measurement, r, t)
        invariant result == Digits(measurement, r, t)
      {
        DigitsAfterShift(measurement, r, t, t + 1);
        ShiftOnce(measurement, r, t);
        result := result + [rest % r];
        rest := rest / r;
        t := t + 1;
      }
      observables := result;
      DigitsBelow(measurement, r, n);
      ShiftVanishes(measurement, r, n);
      if rest != 0 {
        return Fail(ObservableTooLarge);
      }
      ValueOfDigits(measurement, r, n);
      return Pass;
    }

    /** Observable: the collapsed value of a registered agent. */
    function Observable(handle: int): (r: Result<nat>)
      reads this
      ensures r.Ok? <==> handle in agents && SlotOf(handle) < |observables|
      ensures r.Ok? ==> r.value == observables[SlotOf(handle)]
      ensures r.Ok? && ObservablesInRange() ==> r.value < registerSize
      ensures handle !in agents ==> r == Err(UnknownAgent(handle))
    {
      if handle !in agents then Err(UnknownAgent(handle))
      else if agents[handle] >= |observables| then Err(NotObserved(handle))
      else Ok(observables[agents[handle]])
    }
  }
}
