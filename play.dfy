/**
 * The `play` orchestrator of CorrelatedAutomata.py: it infers the game's
 * shape, creates one learning automaton per player and type on a shared
 * correlation, and runs the rounds, returning the population's mean payoff
 * after each one.
 *
 * Every random value a round draws is an input: the classical register, the
 * quantum measurement, the adversarial coin, the uniformly drawn types and
 * the search directions of each Operate and Choose. The handles that
 * id(self) gives the automata are an input as well.
 */
module Playing {
  import opened Wrappers
  import opened Numeric
  import opened Correlations
  import opened Automata
  import opened Games
  import RegisterIndex

  /** The random values one round draws. */
  datatype RoundDraws = RoundDraws(
    register: seq<real>,               // ClassicalCorrelation.Prepare: RegisterSize uniform draws
    measurement: nat,                  // QuantumCorrelation.Observe: the sampled joint index
    coin: real,                        // random.random() of the adversarial test
    randomTypes: seq<nat>,             // random.randrange(types_count[i]) for each player
    operateBases: seq<seq<seq<real>>>, // RandomBasis(P) for each player's Operate
    chooseBases: seq<seq<seq<real>>>)  // RandomBasis(choices_count[i]) for each player's Choose

  /**
   * What the random sources can return for one round of a game of this
   * setup, on a correlation with `agents` registered agents: the quantum
   * measurement is an index into the R^agents probabilities WeightedChoice
   * picks from.
   */
  ghost predicate DrawsFit(d: RoundDraws, setup: Setup, kind: Kind, registerSize: nat, agents: nat)
  {
    && (kind.Classical? ==> |d.register| == registerSize)
    && (kind.Quantum? ==> d.measurement < RegisterIndex.Pow(registerSize, agents))
    && (forall k | 0 <= k < |d.register| :: 0.0 <= d.register[k] <= 1.0)
    && 0.0 <= d.coin < 1.0
    && IsTypeCombination(d.randomTypes, setup.typesCount)
    && |d.operateBases| == setup.players
    && (forall i | 0 <= i < setup.players :: IsBasis(d.operateBases[i], ParametersCount(kind, registerSize)))
    && |d.chooseBases| == setup.players == |setup.choicesCount|
    && (forall i | 0 <= i < setup.players :: IsBasis(d.chooseBases[i], setup.choicesCount[i]))
  }

  /** sum(types_count): the number of automata play creates. */
  function Total(counts: seq<nat>): nat
  {
    if counts == [] then 0 else Total(counts[..|counts| - 1]) + counts[|counts| - 1]
  }

  ghost function Objects(automata: seq<seq<LearningAutomaton>>): set<LearningAutomaton>
  {
    set i, t | 0 <= i < |automata| && 0 <= t < |automata[i]| :: automata[i][t]
  }

  /**
   * automata[i][t] is the automaton of player i with type t: it plays on the
   * shared correlation with player i's number of choices.
   */
  ghost predicate Population(automata: seq<seq<LearningAutomaton>>, correlation: Correlation, choicesCount: seq<nat>)
    reads Objects(automata), correlation`agents
  {
    && |automata| <= |choicesCount|
    && forall i, t | 0 <= i < |automata| && 0 <= t < |automata[i]| ::
         && automata[i][t].correlation == correlation
         && automata[i][t].choicesCount == choicesCount[i]
         && automata[i][t].Valid()
  }

  /** The mean payoffs of one player's automata, type by type. */
  function RowMeans(row: seq<LearningAutomaton>, correlation: Correlation): (ms: seq<real>)
    reads set t | 0 <= t < |row| :: row[t]
    reads correlation`agents
    requires forall t | 0 <= t < |row| :: row[t].correlation == correlation && row[t].Valid()
    ensures |ms| == |row|
  {
    if row == [] then []
    else
      var n := |row|;
      assert forall t | 0 <= t < n - 1 :: row[..n - 1][t] == row[t];
      RowMeans(row[..n - 1], correlation) + [row[n - 1].MeanPayoff()]
  }

  /** The mean payoffs of all automata, player by player and type by type. */
  function Means(automata: seq<seq<LearningAutomaton>>, correlation: Correlation, choicesCount: seq<nat>): (ms: seq<real>)
    reads Objects(automata), correlation`agents
    requires Population(automata, correlation, choicesCount)
    decreases |automata|
  {
    if automata == [] then []
    else
      var n := |automata|;
      assert Objects(automata[..n - 1]) <= Objects(automata) by {
        forall a | a in Objects(automata[..n - 1]) ensures a in Objects(automata) {
          var i, t :| 0 <= i < n - 1 && 0 <= t < |automata[..n - 1][i]| && automata[..n - 1][i][t] == a;
          assert automata[i][t] == a;
        }
      }
      var last := automata[n - 1];
      assert forall t | 0 <= t < |last| :: last[t] in Objects(automata);
      Means(automata[..n - 1], correlation, choicesCount) + RowMeans(automata[n - 1], correlation)
  }

  /** The progress value of a round: the mean of MeanPayoff over every automaton. */
  function PopulationMean(automata: seq<seq<LearningAutomaton>>, correlation: Correlation, choicesCount: seq<nat>): (mean: real)
    reads Objects(automata), correlation`agents
    requires Population(automata, correlation, choicesCount)
    ensures Means(automata, correlation, choicesCount) == [] ==> mean == 0.0
    ensures |Means(automata, correlation, choicesCount)| >= 1 ==>
              mean == Sum(Means(automata, correlation, choicesCount)) / |Means(automata, correlation, choicesCount)| as real
  {
    Average(Means(automata, correlation, choicesCount))
  }

  /** sum(values) / len(values), 0 for no values. */
  function Average(values: seq<real>): real
  {
    if values == [] then 0.0 else Mean(Sum(values), |values|)
  }

  /** The last progress value, if any, is the mean payoff of the population as it now stands. */
  ghost predicate EndsWithMean(progress: seq<real>, automata: seq<seq<LearningAutomaton>>, correlation: Correlation,
                               choicesCount: seq<nat>)
    reads Objects(automata), correlation`agents
    requires Population(automata, correlation, choicesCount)
  {
    |progress| >= 1 ==> progress[|progress| - 1] == PopulationMean(automata, correlation, choicesCount)
  }

  /**
   * The type combination of a round: in adversarial mode, when the coin
   * exceeds 0.01, the combination min() picks from types_stats; otherwise
   * the uniformly drawn one.
   */
  function SelectTypes(adversarial: bool, coin: real, combos: seq<seq<nat>>, stats: seq<TypeStats>,
                       randomTypes: seq<nat>): (types: seq<nat>)
    requires |combos| == |stats| >= 1
    ensures adversarial && coin > 0.01 ==> types == combos[AdversarialIndex(stats)]
    ensures !(adversarial && coin > 0.01) ==> types == randomTypes
  {
    if adversarial && coin > 0.01 then combos[AdversarialIndex(stats)] else randomTypes
  }

  /** The position of a combination in all_types order, which keys types_stats. */
  function IndexOf(combos: seq<seq<nat>>, types: seq<nat>): (k: nat)
    requires types in combos
    ensures k < |combos| && combos[k] == types
  {
    if combos[0] == types then 0 else 1 + IndexOf(combos[1..], types)
  }

  /** Every count play infers is at least one: each level of the game is a non-empty list. */
  lemma ShapeCountsPositive(game: Tree)
    requires InferShape(game).Ok?
    ensures var s := InferShape(game).value;
            && (forall i | 0 <= i < s.players :: s.typesCount[i] >= 1 && s.choicesCount[i] >= 1)
            && IsTypeCombination(seq(s.players, _ => 0), s.typesCount)
  {
    var s := InferShape(game).value;
    var lengths := s.typesCount + s.choicesCount + [s.players];
    assert NestLengths(s.game) == Ok(lengths);
    forall i | 0 <= i < s.players ensures s.typesCount[i] >= 1 && s.choicesCount[i] >= 1 {
      assert lengths[i] == s.typesCount[i];
      assert lengths[s.players + i] == s.choicesCount[i];
    }
  }

  lemma {:induction false} TotalPrefix(counts: seq<nat>, i: nat)
    requires i <= |counts|
    ensures Total(counts[..i]) <= Total(counts)
    decreases |counts|
  {
    if i == |counts| {
      assert counts[..i] == counts;
    } else {
      var init := counts[..|counts| - 1];
      assert init[..i] == counts[..i];
      TotalPrefix(init, i);
    }
  }

  /**
   * The automata at two different places (i, t) and (j, u) have different
   * handles, as id() gives different objects; so they are different objects
   * on different slots of the correlation.
   */
  ghost predicate Apart(automata: seq<seq<LearningAutomaton>>, i: int, t: int, j: int, u: int)
  {
    (&& 0 <= i < |automata| && 0 <= t < |automata[i]| && 0 <= j < |automata| && 0 <= u < |automata[j]|
     && (i != j || t != u)) ==> automata[i][t].handle != automata[j][u].handle
  }

  /** Each automaton has one place in the population, and its own handle. */
  ghost predicate Distinct(automata: seq<seq<LearningAutomaton>>)
  {
    forall i, t, j, u :: Apart(automata, i, t, j, u)
  }

  /** One automaton per player and type, all on the shared correlation. */
  ghost predicate Arranged(automata: seq<seq<LearningAutomaton>>, correlation: Correlation, setup: Setup)
    reads Objects(automata), correlation, correlation`agents
  {
    && |setup.typesCount| == setup.players && |setup.choicesCount| == setup.players
    && correlation.Valid() && Population(automata, correlation, setup.choicesCount)
    && |automata| == setup.players
    && (forall i | 0 <= i < setup.players :: |automata[i]| == setup.typesCount[i])
    && Distinct(automata)
  }

  /** Prepare has run: one operation (classical) or one matrix (quantum) per registered agent. */
  ghost predicate PreparedForAll(c: Correlation)
    reads c
  {
    c.prepared && (if c.kind.Classical? then |c.operations| else |c.matrices|) == |c.agents|
  }

  /** Slot `slot` of the correlation holds the local operation `operation`: its weights, or its unitary. */
  ghost predicate Holds(c: Correlation, slot: nat, operation: seq<real>)
    reads c`operations, c`matrices
  {
    if c.kind.Classical? then slot < |c.operations| && c.operations[slot] == operation
    else slot < |c.matrices| && c.matrices[slot] == Unitary(operation)
  }

  /**
   * The shared signal of a round with draws d on slot `slot`: the slot
   * holds the local operation `operation`, and its observable is the one
   * Observe derives for it: the first index maximising
   * register[k] * |operation[k]| over the drawn register (classical), or
   * the slot's base-R digit of the measured index (quantum).
   */
  ghost predicate Signalled(c: Correlation, slot: nat, operation: seq<real>, d: RoundDraws)
    reads c
  {
    && c.registerSize >= 1 && slot < |c.agents| && slot < |c.observables| && Holds(c, slot, operation)
    && if c.kind.Classical? then
         && c.register == d.register && |d.register| == |operation|
         && IsFirstMax(Weights(d.register, operation), c.observables[slot])
       else
         c.observables[slot] == RegisterIndex.Digits(d.measurement, c.registerSize, |c.agents|)[slot]
  }

  /**
   * A game play runs through: every player has a choice, and every type
   * combination indexes a list of lists, one level per player with that
   * player's number of choices, over payoff vectors of N numbers.
   */
  ghost predicate Playable(setup: Setup)
  {
    && (forall i | 0 <= i < |setup.choicesCount| :: setup.choicesCount[i] >= 1)
    && forall types | IsTypeCombination(types, setup.typesCount) ::
         Descend(setup.game, types).Ok? && Tensor(Descend(setup.game, types).value, setup.choicesCount, setup.players)
  }

  /** The strategy Operate makes of `before`: its local operation prefix moved to the first best candidate. */
  ghost function AfterOperate(a: LearningAutomaton, memory: seq<Record>, before: seq<real>, basis: seq<seq<real>>): seq<real>
    requires 1 <= a.parametersCount <= |before| && IsBasis(basis, a.parametersCount)
  {
    Splice(before, 0, BestLocalOperation(memory, before[..a.parametersCount], basis, a.learningRate))
  }

  /** The block Choose climbs to from the strategy `before` when it observes `obs`. */
  ghost function ChosenBlock(a: LearningAutomaton, memory: seq<Record>, obs: nat, before: seq<real>,
                             basis: seq<seq<real>>): seq<real>
    requires a.choicesCount >= 1 && IsBasis(basis, a.choicesCount)
    requires a.BlockStart(obs) + a.choicesCount <= |before|
  {
    var start := a.BlockStart(obs);
    BestMixedChoice(memory, obs, before[..a.parametersCount], before[start..start + a.choicesCount], basis, a.learningRate)
  }

  /** a has run Operate from the strategy `before`. */
  ghost predicate OperatedFrom(a: LearningAutomaton, before: seq<real>, basis: seq<seq<real>>)
    reads a`strategy, a`memory
  {
    && 1 <= a.parametersCount <= |before| && IsBasis(basis, a.parametersCount)
    && a.strategy == AfterOperate(a, a.memory, before, basis)
  }

  /**
   * a has run Choose from the strategy `before`, with `memory` remembered:
   * it holds the correlation's observable for its handle, the block of that
   * observable is the climbed one, and `distribution` is that block
   * normalised.
   */
  ghost predicate ChoseFrom(a: LearningAutomaton, before: seq<real>, memory: seq<Record>, basis: seq<seq<real>>,
                            distribution: seq<real>)
    reads a`observable, a`strategy, a.correlation
  {
    && a.observable.Some? && a.correlation.Observable(a.handle) == Ok(a.observable.value)
    && a.choicesCount >= 1 && IsBasis(basis, a.choicesCount)
    && a.BlockStart(a.observable.value) + a.choicesCount <= |before|
    && var block := ChosenBlock(a, memory, a.observable.value, before, basis);
       && a.strategy == Splice(before, a.BlockStart(a.observable.value), block)
       && distribution == NormalizedToOne(AbsAll(block))
  }

  /** a has run Remember with `payoff`, from the memory and totals given. */
  ghost predicate RememberedFrom(a: LearningAutomaton, memory: seq<Record>, played: nat, total: real, payoff: real)
    reads a
  {
    && a.observable.Some? && a.observable.value < a.correlation.registerSize
    && |a.strategy| == a.parametersCount + Times(a.choicesCount, a.correlation.registerSize)
    && a.memory == Keep(memory + [a.Play(payoff)], a.memorySize)
    && a.totalPlayed == played + 1 && a.totalPayoff == total + payoff
  }

  /**
   * One round of an active automaton, from the strategy, memory and totals
   * it started with: Operate moves the local operation prefix, Choose
   * moves the block of the observable read from the correlation (scored
   * against the same memory) and returns it normalised, and Remember
   * records the play with its payoff component.
   */
  ghost predicate PlayedRound(a: LearningAutomaton, before: seq<real>, memory: seq<Record>, played: nat, total: real,
                              operateBasis: seq<seq<real>>, chooseBasis: seq<seq<real>>,
                              distribution: seq<real>, payoff: real)
    reads a, a.correlation
  {
    && 1 <= a.parametersCount <= |before| && IsBasis(operateBasis, a.parametersCount)
    && a.observable.Some? && a.correlation.Observable(a.handle) == Ok(a.observable.value)
    && a.choicesCount >= 1 && IsBasis(chooseBasis, a.choicesCount)
    && var operated := AfterOperate(a, memory, before, operateBasis);
       var obs := a.observable.value;
       var start := a.BlockStart(obs);
       && start + a.choicesCount <= |operated|
       && var block := ChosenBlock(a, memory, obs, operated, chooseBasis);
          && a.strategy == Splice(operated, start, block)
          && distribution == NormalizedToOne(AbsAll(block))
          && a.memory == Keep(memory + [Record(obs, operated[..a.parametersCount], block, payoff)], a.memorySize)
          && a.totalPlayed == played + 1 && a.totalPayoff == total + payoff
  }

  /** The three phases of a round, each from where the previous one left the automaton, make one PlayedRound. */
  lemma RoundComposes(a: LearningAutomaton, before: seq<real>, memory: seq<Record>, played: nat, total: real,
                      operateBasis: seq<seq<real>>, chooseBasis: seq<seq<real>>, distribution: seq<real>, payoff: real,
                      operated: seq<real>)
    requires 1 <= a.parametersCount <= |before| && IsBasis(operateBasis, a.parametersCount)
    requires operated == AfterOperate(a, memory, before, operateBasis)
    requires ChoseFrom(a, operated, memory, chooseBasis, distribution)
    requires RememberedFrom(a, memory, played, total, payoff)
    ensures PlayedRound(a, before, memory, played, total, operateBasis, chooseBasis, distribution, payoff)
  {
    var p, c := a.parametersCount, a.choicesCount;
    var start := a.BlockStart(a.observable.value);
    var block := ChosenBlock(a, memory, a.observable.value, operated, chooseBasis);
    assert a.strategy[..p] == operated[..p];
    assert a.strategy[start..start + c] == block;
  }

  /** The automata of the round's type combination, one per player. */
  ghost function Active(automata: seq<seq<LearningAutomaton>>, types: seq<nat>): set<LearningAutomaton>
    requires |types| <= |automata| && forall i | 0 <= i < |types| :: types[i] < |automata[i]|
  {
    set i | 0 <= i < |types| :: automata[i][types[i]]
  }

  /** Player i's active automaton is active, and is none of the other automata. */
  lemma ActiveApart(automata: seq<seq<LearningAutomaton>>, types: seq<nat>, i: nat)
    requires Distinct(automata) && |types| <= |automata| && forall j | 0 <= j < |types| :: types[j] < |automata[j]|
    requires i < |types|
    ensures automata[i][types[i]] in Active(automata, types) && automata[i][types[i]] in Objects(automata)
    ensures forall j | 0 <= j < |types| && j != i :: automata[j][types[j]].handle != automata[i][types[i]].handle
  {
    forall j | 0 <= j < |types| && j != i ensures automata[j][types[j]].handle != automata[i][types[i]].handle {
      assert Apart(automata, j, types[j], i, types[i]);
    }
  }

  /** An automaton of a type other than the player's active one is not active. */
  lemma InactiveOutside(automata: seq<seq<LearningAutomaton>>, types: seq<nat>, i: nat, t: nat)
    requires Distinct(automata) && |types| <= |automata| && forall j | 0 <= j < |types| :: types[j] < |automata[j]|
    requires i < |automata| && t < |automata[i]| && (i < |types| ==> t != types[i])
    ensures automata[i][t] !in Active(automata, types)
  {
    forall j | 0 <= j < |types| ensures automata[j][types[j]] != automata[i][t] {
      assert Apart(automata, j, types[j], i, t);
    }
  }

  /**
   * The slots of the active automata, one per player: different, as their
   * handles are.
   */
  ghost function ActiveSlots(automata: seq<seq<LearningAutomaton>>, correlation: Correlation, types: seq<nat>)
    : (slots: seq<nat>)
    requires Indexes(automata, types) && Distinct(automata) && correlation.Valid()
    requires forall j | 0 <= j < |types| :: automata[j][types[j]].handle in correlation.agents
    reads correlation
    ensures |slots| == |types|
    ensures forall j | 0 <= j < |types| :: slots[j] == correlation.SlotOf(automata[j][types[j]].handle)
    ensures forall j, k | 0 <= j < k < |types| :: slots[j] != slots[k]
  {
    var agents := correlation.agents;
    var slots := seq(|types|, j requires 0 <= j < |types| && automata[j][types[j]].handle in agents =>
                                agents[automata[j][types[j]].handle]);
    assert forall j, k | 0 <= j < k < |types| :: slots[j] != slots[k] by {
      forall j, k | 0 <= j < k < |types| ensures slots[j] != slots[k] {
        assert Apart(automata, j, types[j], k, types[k]);
        assert correlation.order[slots[j]] == automata[j][types[j]].handle;
      }
    }
    slots
  }

  /** What a phase of the round reads and changes of an automaton. */
  datatype Snapshot = Snapshot(strategy: seq<real>, memory: seq<Record>, played: nat, total: real)

  ghost function Snap(a: LearningAutomaton): Snapshot
    reads a
  {
    Snapshot(a.strategy, a.memory, a.totalPlayed, a.totalPayoff)
  }

  /** The snapshots of the active automata, player by player. */
  ghost function Snapshots(automata: seq<seq<LearningAutomaton>>, types: seq<nat>): (r: seq<Snapshot>)
    requires Indexes(automata, types)
    reads Active(automata, types)
    ensures |r| == |types| && forall j | 0 <= j < |types| :: r[j] == Snap(automata[j][types[j]])
  {
    seq(|types|, j requires 0 <= j < |types| reads Active(automata, types) => Snap(automata[j][types[j]]))
  }

  /** The types of a round index one automaton per player. */
  ghost predicate Indexes(automata: seq<seq<LearningAutomaton>>, types: seq<nat>)
  {
    |types| <= |automata| && forall j | 0 <= j < |types| :: types[j] < |automata[j]|
  }

  /**
   * Operate has run for the first i active automata, from the snapshots
   * `before`; the others still hold their snapshot.
   */
  ghost predicate OperatedUpTo(automata: seq<seq<LearningAutomaton>>, types: seq<nat>, bases: seq<seq<seq<real>>>,
                               before: seq<Snapshot>, i: nat)
    requires Indexes(automata, types)
    reads Active(automata, types)
  {
    && |before| == |types| == |bases| && i <= |types|
    && (forall j | 0 <= j < i :: OperatedFrom(automata[j][types[j]], before[j].strategy, bases[j]))
    && (forall j | i <= j < |types| :: Snap(automata[j][types[j]]) == before[j])
  }

  /** The slots `slots` of the correlation hold the local operations `operations`, up to position i. */
  ghost predicate SlotsHold(c: Correlation, slots: seq<nat>, operations: seq<seq<real>>, i: nat)
    reads c`operations, c`matrices
  {
    i <= |slots| && i <= |operations| && forall j | 0 <= j < i :: Holds(c, slots[j], operations[j])
  }

  /** operations[j] is the local operation Operate computes for player j's active automaton from its snapshot. */
  ghost predicate OperationsUpTo(automata: seq<seq<LearningAutomaton>>, types: seq<nat>, bases: seq<seq<seq<real>>>,
                                 before: seq<Snapshot>, operations: seq<seq<real>>, i: nat)
    requires Indexes(automata, types)
  {
    && i <= |operations| && i <= |types| && i <= |before| && i <= |bases|
    && forall j | 0 <= j < i ::
         var a := automata[j][types[j]];
         && 1 <= a.parametersCount <= |before[j].strategy| && IsBasis(bases[j], a.parametersCount)
         && operations[j] == AfterOperate(a, before[j].memory, before[j].strategy, bases[j])[..a.parametersCount]
  }

  /** Appending player i's operation extends OperationsUpTo by one player. */
  lemma OperationsGrow(automata: seq<seq<LearningAutomaton>>, types: seq<nat>, bases: seq<seq<seq<real>>>,
                       before: seq<Snapshot>, operations: seq<seq<real>>, operation: seq<real>, i: nat)
    requires Indexes(automata, types) && i < |types| && i < |before| && i < |bases| && |operations| == i
    requires OperationsUpTo(automata, types, bases, before, operations, i)
    requires var a := automata[i][types[i]];
             && 1 <= a.parametersCount <= |before[i].strategy| && IsBasis(bases[i], a.parametersCount)
             && operation == AfterOperate(a, before[i].memory, before[i].strategy, bases[i])[..a.parametersCount]
    ensures OperationsUpTo(automata, types, bases, before, operations + [operation], i + 1)
  {
    var grown := operations + [operation];
    forall j | 0 <= j < i + 1
      ensures var b := automata[j][types[j]];
              && 1 <= b.parametersCount <= |before[j].strategy| && IsBasis(bases[j], b.parametersCount)
              && grown[j] == AfterOperate(b, before[j].memory, before[j].strategy, bases[j])[..b.parametersCount]
    {
      if j < i {
        assert grown[j] == operations[j];
      }
    }
  }

  /**
   * The slot of each active automaton holds the local operation Operate
   * computes from the automaton's snapshot `before`.
   */
  ghost predicate OperationsHeld(c: Correlation, automata: seq<seq<LearningAutomaton>>, types: seq<nat>,
                                 bases: seq<seq<seq<real>>>, before: seq<Snapshot>)
    requires Indexes(automata, types)
    reads c`agents, c`operations, c`matrices
  {
    && |before| == |types| == |bases|
    && forall j | 0 <= j < |types| ::
         var a := automata[j][types[j]];
         && a.handle in c.agents
         && 1 <= a.parametersCount <= |before[j].strategy| && IsBasis(bases[j], a.parametersCount)
         && Holds(c, c.SlotOf(a.handle), AfterOperate(a, before[j].memory, before[j].strategy, bases[j])[..a.parametersCount])
  }

  /** Once every active automaton has written its operation into its own slot, OperationsHeld. */
  lemma HeldOperations(c: Correlation, automata: seq<seq<LearningAutomaton>>, types: seq<nat>,
                       bases: seq<seq<seq<real>>>, before: seq<Snapshot>, slots: seq<nat>, operations: seq<seq<real>>)
    requires Indexes(automata, types) && |before| == |types| == |bases| == |slots|
    requires forall j | 0 <= j < |types| ::
               automata[j][types[j]].handle in c.agents && slots[j] == c.SlotOf(automata[j][types[j]].handle)
    requires SlotsHold(c, slots, operations, |types|)
    requires OperationsUpTo(automata, types, bases, before, operations, |types|)
    ensures OperationsHeld(c, automata, types, bases, before)
  {
  }

  /**
   * Observe has run on the correlation with draws d: every agent has an
   * observable, the first index maximising the weights of its slot over
   * the drawn register (classical) or the slot's digit of the measured
   * index (quantum).
   */
  ghost predicate Observed(c: Correlation, d: RoundDraws)
    reads c
  {
    && c.registerSize >= 1 && |c.observables| == |c.agents|
    && if c.kind.Classical? then
         && c.register == d.register && |c.operations| == |c.observables|
         && forall slot | 0 <= slot < |c.observables| ::
              |c.operations[slot]| == |c.register| && IsFirstMax(Weights(c.register, c.operations[slot]), c.observables[slot])
       else
         c.observables == RegisterIndex.Digits(d.measurement, c.registerSize, |c.agents|)
  }

  /**
   * The slot of each active automaton carries the signal of the round, for
   * the local operation Operate computed from the automaton's snapshot
   * `before`.
   */
  ghost predicate SignalledAll(c: Correlation, automata: seq<seq<LearningAutomaton>>, types: seq<nat>,
                               bases: seq<seq<seq<real>>>, before: seq<Snapshot>, d: RoundDraws)
    requires Indexes(automata, types)
    reads c
  {
    && |before| == |types| == |bases|
    && forall j | 0 <= j < |types| ::
         SignalledFrom(c, automata[j][types[j]], before[j].strategy, before[j].memory, bases[j], d)
  }

  /** a's slot carries the signal of the round, for the local operation Operate computes from `strategy`. */
  ghost predicate SignalledFrom(c: Correlation, a: LearningAutomaton, strategy: seq<real>, memory: seq<Record>,
                                basis: seq<seq<real>>, d: RoundDraws)
    reads c
  {
    && a.handle in c.agents
    && 1 <= a.parametersCount <= |strategy| && IsBasis(basis, a.parametersCount)
    && Signalled(c, c.SlotOf(a.handle), AfterOperate(a, memory, strategy, basis)[..a.parametersCount], d)
  }

  /** Once the operations are held and observed, every active slot carries the signal of the round. */
  lemma ObservedSignals(c: Correlation, automata: seq<seq<LearningAutomaton>>, types: seq<nat>,
                        bases: seq<seq<seq<real>>>, before: seq<Snapshot>, d: RoundDraws)
    requires Indexes(automata, types) && c.Valid() && Observed(c, d)
    requires OperationsHeld(c, automata, types, bases, before)
    ensures SignalledAll(c, automata, types, bases, before, d)
  {
    forall j | 0 <= j < |types|
      ensures var a := automata[j][types[j]];
              Signalled(c, c.SlotOf(a.handle), AfterOperate(a, before[j].memory, before[j].strategy, bases[j])[..a.parametersCount], d)
    {
      var a := automata[j][types[j]];
      assert c.agents[a.handle] < |c.order|;
    }
  }

  /**
   * An automaton that has played the round from the strategy `before`
   * reads the signal of its slot: its observable is the first maximum of
   * the weights of its local operation (classical), or its digit of the
   * measured index (quantum).
   */
  lemma RoundSignal(a: LearningAutomaton, before: seq<real>, memory: seq<Record>, played: nat, total: real,
                    operateBasis: seq<seq<real>>, chooseBasis: seq<seq<real>>, distribution: seq<real>, payoff: real,
                    d: RoundDraws)
    requires PlayedRound(a, before, memory, played, total, operateBasis, chooseBasis, distribution, payoff)
    requires a.handle in a.correlation.agents
    requires Signalled(a.correlation, a.correlation.SlotOf(a.handle),
                       AfterOperate(a, memory, before, operateBasis)[..a.parametersCount], d)
    ensures var c := a.correlation;
            var operation := AfterOperate(a, memory, before, operateBasis)[..a.parametersCount];
            && Holds(c, c.SlotOf(a.handle), operation)
            && (c.kind.Classical? ==> |d.register| == |operation| && IsFirstMax(Weights(d.register, operation), a.observable.value))
            && (c.kind.Quantum? ==>
                  a.observable.value == RegisterIndex.Digits(d.measurement, c.registerSize, |c.agents|)[c.SlotOf(a.handle)])
  {
    assert a.correlation.Observable(a.handle) == Ok(a.observable.value);
  }

  /** Only slot `slot` of the operations and of the matrices may differ from `operations` and `matrices`. */
  ghost predicate OthersKept(c: Correlation, operations: seq<seq<real>>, matrices: seq<Matrix>, slot: nat)
    reads c
  {
    && |c.operations| == |operations| && |c.matrices| == |matrices|
    && (forall s | 0 <= s < |operations| && s != slot :: c.operations[s] == operations[s])
    && (forall s | 0 <= s < |matrices| && s != slot :: c.matrices[s] == matrices[s])
  }

  /**
   * Choose has run for the first i active automata, from the snapshots
   * `before`, and returned choices[j] for each; the others still hold
   * their snapshot.
   */
  ghost predicate ChoseUpTo(automata: seq<seq<LearningAutomaton>>, correlation: Correlation, types: seq<nat>,
                            counts: seq<nat>, bases: seq<seq<seq<real>>>, before: seq<Snapshot>,
                            choices: seq<seq<real>>, i: nat)
    requires Indexes(automata, types)
    reads Active(automata, types), correlation
  {
    && |before| == |types| == |bases| == |counts| && i <= |types| && |choices| == i
    && (forall j | 0 <= j < i ::
          && automata[j][types[j]].correlation == correlation
          && ChoseFrom(automata[j][types[j]], before[j].strategy, before[j].memory, bases[j], choices[j])
          && |choices[j]| == counts[j]
          && (forall c | 0 <= c < |choices[j]| :: 0.0 <= choices[j][c])
          && Sum(AbsAll(choices[j])) == 1.0)
    && (forall j | i <= j < |types| :: Snap(automata[j][types[j]]) == before[j])
  }

  /**
   * Remember has run for the first i active automata, from the snapshots
   * `before`, with the components of `payoffs`; the others still hold
   * their snapshot.
   */
  ghost predicate RememberedUpTo(automata: seq<seq<LearningAutomaton>>, types: seq<nat>, before: seq<Snapshot>,
                                 payoffs: seq<real>, i: nat)
    requires Indexes(automata, types)
    reads Active(automata, types)
  {
    && |before| == |types| && i <= |types| && i <= |payoffs|
    && (forall j | 0 <= j < i ::
          RememberedFrom(automata[j][types[j]], before[j].memory, before[j].played, before[j].total, payoffs[j]))
    && (forall j | i <= j < |types| :: Snap(automata[j][types[j]]) == before[j])
  }

  /** One automaton's Operate, within the population. */
  method OperateOne(setup: Setup, correlation: Correlation, automata: seq<seq<LearningAutomaton>>,
                    a: LearningAutomaton, basis: seq<seq<real>>)
    returns (outcome: Outcome)
    requires Arranged(automata, correlation, setup) && a in Objects(automata)
    requires IsBasis(basis, ParametersCount(correlation.kind, correlation.registerSize))
    modifies a`strategy, correlation`operations, correlation`matrices
    ensures Arranged(automata, correlation, setup)
    ensures OperatedFrom(a, old(a.strategy), basis)
    ensures PreparedForAll(correlation) == old(PreparedForAll(correlation))
    ensures old(PreparedForAll(correlation)) ==> outcome.Pass?
    ensures a.handle in correlation.agents
    ensures OthersKept(correlation, old(correlation.operations), old(correlation.matrices), correlation.SlotOf(a.handle))
    ensures old(PreparedForAll(correlation)) ==>
              Holds(correlation, correlation.SlotOf(a.handle), a.strategy[..a.parametersCount])
  {
    outcome := a.Operate(basis);
    forall i, t | 0 <= i < |automata| && 0 <= t < |automata[i]|
      ensures automata[i][t].Valid()
    {
      var b := automata[i][t];
      assert b in Objects(automata);
      if b != a {
        assert old(b.Valid());
      }
    }
    assert correlation.agents[a.handle] < |correlation.agents|;
  }

  /** The Operate of player i's active automaton, once those before it have operated. */
  method OperateStep(setup: Setup, correlation: Correlation, automata: seq<seq<LearningAutomaton>>,
                     types: seq<nat>, bases: seq<seq<seq<real>>>, ghost before: seq<Snapshot>, i: nat)
    returns (outcome: Outcome)
    requires Arranged(automata, correlation, setup) && IsTypeCombination(types, setup.typesCount)
    requires i < |types| && OperatedUpTo(automata, types, bases, before, i)
    requires IsBasis(bases[i], ParametersCount(correlation.kind, correlation.registerSize))
    modifies {automata[i][types[i]]}`strategy, correlation`operations, correlation`matrices
    ensures Arranged(automata, correlation, setup)
    ensures OperatedUpTo(automata, types, bases, before, i + 1)
    ensures PreparedForAll(correlation) == old(PreparedForAll(correlation))
    ensures old(PreparedForAll(correlation)) ==> outcome.Pass?
    ensures var a := automata[i][types[i]];
            && a.handle in correlation.agents
            && OthersKept(correlation, old(correlation.operations), old(correlation.matrices), correlation.SlotOf(a.handle))
            && (old(PreparedForAll(correlation)) ==>
                  Holds(correlation, correlation.SlotOf(a.handle), a.strategy[..a.parametersCount]))
  {
    ActiveApart(automata, types, i);
    var a := automata[i][types[i]];
    outcome := OperateOne(setup, correlation, automata, a, bases[i]);
    forall j | 0 <= j < i + 1 ensures OperatedFrom(automata[j][types[j]], before[j].strategy, bases[j]) {
      var b := automata[j][types[j]];
      if j < i {
        assert b != a && old(OperatedFrom(b, before[j].strategy, bases[j]));
      } else {
        assert b == a && old(Snap(a)) == before[i];
      }
    }
    forall j | i + 1 <= j < |types| ensures Snap(automata[j][types[j]]) == before[j] {
      var b := automata[j][types[j]];
      assert b != a && old(Snap(b)) == before[j];
    }
  }

  /**
   * OperateStep, with the slots: player i's active automaton writes the
   * operation `operation` into its own slot, and the slots of the players
   * before it keep what they hold.
   */
  method OperateInTurn(setup: Setup, correlation: Correlation, automata: seq<seq<LearningAutomaton>>,
                       types: seq<nat>, bases: seq<seq<seq<real>>>, ghost before: seq<Snapshot>, i: nat,
                       ghost slots: seq<nat>, ghost operations: seq<seq<real>>)
    returns (outcome: Outcome, ghost operation: seq<real>)
    requires Arranged(automata, correlation, setup) && IsTypeCombination(types, setup.typesCount)
    requires i < |types| && OperatedUpTo(automata, types, bases, before, i)
    requires IsBasis(bases[i], ParametersCount(correlation.kind, correlation.registerSize))
    requires |slots| == |types| && |operations| == i
    requires automata[i][types[i]].handle in correlation.agents
    requires slots[i] == correlation.SlotOf(automata[i][types[i]].handle)
    requires forall j | 0 <= j < i :: slots[j] != slots[i]
    requires PreparedForAll(correlation) ==> SlotsHold(correlation, slots, operations, i)
    modifies {automata[i][types[i]]}`strategy, correlation`operations, correlation`matrices
    ensures Arranged(automata, correlation, setup)
    ensures OperatedUpTo(automata, types, bases, before, i + 1)
    ensures PreparedForAll(correlation) == old(PreparedForAll(correlation))
    ensures old(PreparedForAll(correlation)) ==> outcome.Pass?
    ensures var a := automata[i][types[i]];
            && 1 <= a.parametersCount <= |before[i].strategy| && IsBasis(bases[i], a.parametersCount)
            && operation == AfterOperate(a, before[i].memory, before[i].strategy, bases[i])[..a.parametersCount]
    ensures old(PreparedForAll(correlation)) ==> SlotsHold(correlation, slots, operations + [operation], i + 1)
  {
    var a := automata[i][types[i]];
    outcome := OperateStep(setup, correlation, automata, types, bases, before, i);
    operation := a.strategy[..a.parametersCount];
    assert old(Snap(a)) == before[i];
    if old(PreparedForAll(correlation)) {
      var grown := operations + [operation];
      forall j | 0 <= j < i + 1 ensures Holds(correlation, slots[j], grown[j]) {
        if j < i {
          assert old(Holds(correlation, slots[j], operations[j])) && grown[j] == operations[j];
        }
      }
    }
  }

  /** One automaton's Choose, within the population. */
  method ChooseOne(setup: Setup, correlation: Correlation, automata: seq<seq<LearningAutomaton>>,
                   a: LearningAutomaton, basis: seq<seq<real>>)
    returns (result: Result<seq<real>>)
    requires Arranged(automata, correlation, setup) && a in Objects(automata)
    requires IsBasis(basis, a.choicesCount)
    modifies a`observable, a`strategy
    ensures Arranged(automata, correlation, setup)
    ensures result.Ok? ==>
              && ChoseFrom(a, old(a.strategy), old(a.memory), basis, result.value)
              && |result.value| == a.choicesCount
              && (forall c | 0 <= c < |result.value| :: 0.0 <= result.value[c])
              && Sum(AbsAll(result.value)) == 1.0
    ensures |correlation.observables| == |correlation.agents| && a.choicesCount >= 1 ==> result.Ok?
  {
    assert correlation.agents[a.handle] < |correlation.agents|;
    result := a.Choose(basis);
    forall i, t | 0 <= i < |automata| && 0 <= t < |automata[i]|
      ensures automata[i][t].Valid()
    {
      var b := automata[i][t];
      assert b in Objects(automata);
      if b != a {
        assert old(b.Valid());
      }
    }
  }

  /** The Choose of player i's active automaton, once those before it have chosen. */
  method ChooseStep(setup: Setup, correlation: Correlation, automata: seq<seq<LearningAutomaton>>,
                    types: seq<nat>, bases: seq<seq<seq<real>>>, ghost before: seq<Snapshot>,
                    choices: seq<seq<real>>, i: nat)
    returns (result: Result<seq<real>>)
    requires Arranged(automata, correlation, setup) && IsTypeCombination(types, setup.typesCount)
    requires i < |types| && ChoseUpTo(automata, correlation, types, setup.choicesCount, bases, before, choices, i)
    requires IsBasis(bases[i], setup.choicesCount[i])
    modifies {automata[i][types[i]]}`observable, {automata[i][types[i]]}`strategy
    ensures Arranged(automata, correlation, setup)
    ensures result.Ok? ==> ChoseUpTo(automata, correlation, types, setup.choicesCount, bases, before, choices + [result.value], i + 1)
    ensures |correlation.observables| == |correlation.agents| && setup.choicesCount[i] >= 1 ==> result.Ok?
  {
    ActiveApart(automata, types, i);
    var a := automata[i][types[i]];
    result := ChooseOne(setup, correlation, automata, a, bases[i]);
    if result.Ok? {
      var after := choices + [result.value];
      forall j | 0 <= j < i + 1
        ensures && automata[j][types[j]].correlation == correlation
                && ChoseFrom(automata[j][types[j]], before[j].strategy, before[j].memory, bases[j], after[j])
                && |after[j]| == setup.choicesCount[j]
                && (forall c | 0 <= c < |after[j]| :: 0.0 <= after[j][c])
                && Sum(AbsAll(after[j])) == 1.0
      {
        var b := automata[j][types[j]];
        if j < i {
          assert b != a && after[j] == choices[j] && old(ChoseFrom(b, before[j].strategy, before[j].memory, bases[j], choices[j]));
        } else {
          assert b == a && old(Snap(a)) == before[i] && after[i] == result.value;
        }
      }
      forall j | i + 1 <= j < |types| ensures Snap(automata[j][types[j]]) == before[j] {
        var b := automata[j][types[j]];
        assert b != a && old(Snap(b)) == before[j];
      }
    }
  }

  /** One automaton's Remember, within the population. */
  method RememberOne(setup: Setup, correlation: Correlation, automata: seq<seq<LearningAutomaton>>,
                     a: LearningAutomaton, payoff: real)
    returns (outcome: Outcome)
    requires Arranged(automata, correlation, setup) && a in Objects(automata)
    modifies a`memory, a`totalPayoff, a`totalPlayed, a`history
    ensures Arranged(automata, correlation, setup)
    ensures outcome.Fail? <==> a.observable.None?
    ensures outcome.Pass? ==> RememberedFrom(a, old(a.memory), old(a.totalPlayed), old(a.totalPayoff), payoff)
  {
    outcome := a.Remember(payoff);
    forall i, t | 0 <= i < |automata| && 0 <= t < |automata[i]|
      ensures automata[i][t].Valid()
    {
      var b := automata[i][t];
      assert b in Objects(automata);
      if b != a {
        assert old(b.Valid());
      }
    }
  }

  /** The Remember of player i's active automaton, once those before it have remembered. */
  method RememberStep(setup: Setup, correlation: Correlation, automata: seq<seq<LearningAutomaton>>,
                      types: seq<nat>, ghost before: seq<Snapshot>, payoffs: seq<real>, i: nat)
    returns (outcome: Outcome)
    requires Arranged(automata, correlation, setup) && IsTypeCombination(types, setup.typesCount)
    requires i < |types| && i < |payoffs| && RememberedUpTo(automata, types, before, payoffs, i)
    modifies {automata[i][types[i]]}`memory, {automata[i][types[i]]}`totalPayoff
    modifies {automata[i][types[i]]}`totalPlayed, {automata[i][types[i]]}`history
    ensures Arranged(automata, correlation, setup)
    ensures outcome.Fail? <==> automata[i][types[i]].observable.None?
    ensures outcome.Pass? ==> RememberedUpTo(automata, types, before, payoffs, i + 1)
  {
    ActiveApart(automata, types, i);
    var a := automata[i][types[i]];
    outcome := RememberOne(setup, correlation, automata, a, payoffs[i]);
    if outcome.Pass? {
      forall j | 0 <= j < i + 1
        ensures RememberedFrom(automata[j][types[j]], before[j].memory, before[j].played, before[j].total, payoffs[j])
      {
        var b := automata[j][types[j]];
        if j < i {
          assert b != a && old(RememberedFrom(b, before[j].memory, before[j].played, before[j].total, payoffs[j]));
        } else {
          assert b == a && old(Snap(a)) == before[i];
        }
      }
      forall j | i + 1 <= j < |types| ensures Snap(automata[j][types[j]]) == before[j] {
        var b := automata[j][types[j]];
        assert b != a && old(Snap(b)) == before[j];
      }
    }
  }

  /**
   * Step 3 of a round: each active automaton climbs and applies its local
   * operation. Once the correlation is prepared for every agent, each
   * Operate finds its slot, so the step passes.
   */
  method OperateActive(setup: Setup, correlation: Correlation, automata: seq<seq<LearningAutomaton>>,
                       types: seq<nat>, bases: seq<seq<seq<real>>>)
    returns (outcome: Outcome)
    requires Arranged(automata, correlation, setup)
    requires IsTypeCombination(types, setup.typesCount)
    requires |bases| == setup.players
    requires forall i | 0 <= i < setup.players ::
               IsBasis(bases[i], ParametersCount(correlation.kind, correlation.registerSize))
    modifies Active(automata, types)`strategy, correlation`operations, correlation`matrices
    ensures Arranged(automata, correlation, setup)
    ensures PreparedForAll(correlation) == old(PreparedForAll(correlation))
    ensures old(PreparedForAll(correlation)) ==> outcome.Pass?
    ensures outcome.Pass? ==> forall i | 0 <= i < setup.players ::
              OperatedFrom(automata[i][types[i]], old(automata[i][types[i]].strategy), bases[i])
    ensures old(PreparedForAll(correlation)) ==>
              OperationsHeld(correlation, automata, types, bases, old(Snapshots(automata, types)))
  {
    ghost var before := Snapshots(automata, types);
    ghost var slots := ActiveSlots(automata, correlation, types);
    ghost var operations: seq<seq<real>> := [];
    var i := 0;
    while i < setup.players
      invariant 0 <= i <= setup.players && |operations| == i
      invariant Arranged(automata, correlation, setup)
      invariant PreparedForAll(correlation) == old(PreparedForAll(correlation))
      invariant OperatedUpTo(automata, types, bases, before, i)
      invariant correlation.agents == old(correlation.agents)
      invariant PreparedForAll(correlation) ==> SlotsHold(correlation, slots, operations, i)
      invariant OperationsUpTo(automata, types, bases, before, operations, i)
    {
      ghost var operation;
      outcome, operation := OperateInTurn(setup, correlation, automata, types, bases, before, i, slots, operations);
      if outcome.Fail? {
        return;
      }
      OperationsGrow(automata, types, bases, before, operations, operation, i);
      operations := operations + [operation];
      i := i + 1;
    }
    if PreparedForAll(correlation) {
      HeldOperations(correlation, automata, types, bases, before, slots, operations);
    }
    return Pass;
  }

  /**
   * Step 5 of a round: each active automaton reads its observable and
   * returns its mixed strategy. Once every agent has an observable and
   * every player a choice, each Choose returns a distribution.
   */
  method ChooseActive(setup: Setup, correlation: Correlation, automata: seq<seq<LearningAutomaton>>,
                      types: seq<nat>, bases: seq<seq<seq<real>>>)
    returns (result: Result<seq<seq<real>>>)
    requires Arranged(automata, correlation, setup)
    requires IsTypeCombination(types, setup.typesCount)
    requires |bases| == setup.players
    requires forall i | 0 <= i < setup.players :: IsBasis(bases[i], setup.choicesCount[i])
    modifies Active(automata, types)`observable, Active(automata, types)`strategy
    ensures Arranged(automata, correlation, setup)
    ensures (&& |correlation.observables| == |correlation.agents|
             && forall i | 0 <= i < setup.players :: setup.choicesCount[i] >= 1) ==> result.Ok?
    ensures result.Ok? ==>
              && |result.value| == setup.players
              && forall i | 0 <= i < setup.players ::
                   && ChoseFrom(automata[i][types[i]], old(automata[i][types[i]].strategy), old(automata[i][types[i]].memory),
                                bases[i], result.value[i])
                   && |result.value[i]| == setup.choicesCount[i]
                   && (forall c | 0 <= c < |result.value[i]| :: 0.0 <= result.value[i][c])
                   && Sum(AbsAll(result.value[i])) == 1.0
  {
    ghost var before := Snapshots(automata, types);
    var choices: seq<seq<real>> := [];
    var i := 0;
    while i < setup.players
      invariant 0 <= i <= setup.players
      invariant Arranged(automata, correlation, setup)
      invariant ChoseUpTo(automata, correlation, types, setup.choicesCount, bases, before, choices, i)
    {
      var chosen := ChooseStep(setup, correlation, automata, types, bases, before, choices, i);
      if chosen.Err? {
        return Err(chosen.error);
      }
      choices := choices + [chosen.value];
      i := i + 1;
    }
    return Ok(choices);
  }

  /**
   * Step 7 of a round: each active automaton records its component of the
   * expected payoffs. It passes once every active automaton has chosen
   * and there is a component for every player.
   */
  method RememberActive(setup: Setup, correlation: Correlation, automata: seq<seq<LearningAutomaton>>,
                        types: seq<nat>, payoffs: seq<real>)
    returns (outcome: Outcome)
    requires Arranged(automata, correlation, setup)
    requires IsTypeCombination(types, setup.typesCount)
    modifies Active(automata, types)`memory, Active(automata, types)`totalPayoff
    modifies Active(automata, types)`totalPlayed, Active(automata, types)`history
    ensures Arranged(automata, correlation, setup)
    ensures outcome.Pass? ==> |payoffs| >= setup.players
    ensures (&& |payoffs| >= setup.players
             && forall i | 0 <= i < setup.players :: automata[i][types[i]].observable.Some?) ==> outcome.Pass?
    ensures outcome.Pass? ==> forall i | 0 <= i < setup.players ::
              var a := automata[i][types[i]];
              RememberedFrom(a, old(a.memory), old(a.totalPlayed), old(a.totalPayoff), payoffs[i])
  {
    ghost var before := Snapshots(automata, types);
    var i := 0;
    while i < setup.players
      invariant 0 <= i <= setup.players && i <= |payoffs|
      invariant Arranged(automata, correlation, setup)
      invariant RememberedUpTo(automata, types, before, payoffs, i)
    {
      if i >= |payoffs| {
        return Fail(MalformedGame);
      }
      outcome := RememberStep(setup, correlation, automata, types, before, payoffs, i);
      if outcome.Fail? {
        return;
      }
      i := i + 1;
    }
    return Pass;
  }

  /** Step 1 of a round: the correlation's Prepare, by variant, with the classical register drawn. */
  method Prepare(correlation: Correlation, register: seq<real>) returns (outcome: Outcome)
    requires correlation.Valid()
    requires correlation.kind.Classical? ==> |register| == correlation.registerSize
    modifies correlation`prepared, correlation`operations, correlation`register
    modifies correlation`matrices, correlation`amplitudes
    ensures correlation.Valid()
    ensures correlation.kind.Classical? ==> outcome.Pass?
    ensures outcome.Pass? <==> correlation.kind.Classical? || |correlation.agents| >= 1
    ensures outcome.Pass? ==> PreparedForAll(correlation)
    ensures correlation.kind.Classical? ==>
              && correlation.register == register
              && forall slot | 0 <= slot < |correlation.operations| ::
                   correlation.operations[slot] == Uniform(correlation.registerSize)
    ensures correlation.kind.Quantum? ==> correlation.matrices == seq(|correlation.agents|, _ => Identity)
    ensures correlation.kind.Quantum? && outcome.Pass? ==>
              && |correlation.amplitudes| == RegisterIndex.Pow(correlation.registerSize, |correlation.agents|)
              && forall k | 0 <= k < |correlation.amplitudes| ::
                   correlation.amplitudes[k].RootInverse? <==>
                   RegisterIndex.AllEqual(RegisterIndex.Digits(k, correlation.registerSize, |correlation.agents|))
  {
    if correlation.kind.Classical? {
      correlation.PrepareClassical(register);
      outcome := Pass;
    } else {
      outcome := correlation.PrepareQuantum();
    }
  }

  /** Step 4 of a round: the correlation's Observe, by variant, with the quantum measurement drawn. */
  method Observe(correlation: Correlation, measurement: nat) returns (outcome: Outcome)
    requires correlation.Valid()
    modifies correlation`observables
    ensures correlation.Valid()
    ensures PreparedForAll(correlation) &&
            (correlation.kind.Quantum? ==> measurement < RegisterIndex.Pow(correlation.registerSize, |correlation.agents|)) ==>
              outcome.Pass? && |correlation.observables| == |correlation.agents|
    ensures correlation.kind.Classical? && correlation.prepared ==>
              && outcome.Pass? && |correlation.observables| == |correlation.operations|
              && forall slot | 0 <= slot < |correlation.observables| ::
                   IsFirstMax(Weights(correlation.register, correlation.operations[slot]), correlation.observables[slot])
    ensures correlation.kind.Quantum? && correlation.prepared && |correlation.matrices| == |correlation.agents| ==>
              correlation.observables == RegisterIndex.Digits(measurement, correlation.registerSize, |correlation.agents|)
  {
    if correlation.kind.Classical? {
      outcome := correlation.ObserveClassical();
    } else {
      outcome := correlation.ObserveQuantum(measurement);
    }
  }

  /** What one round leaves for the bookkeeping of play. */
  datatype RoundResult = RoundResult(types: seq<nat>, choices: seq<seq<real>>, payoffs: seq<real>)

  /**
   * One iteration of play's loop: Prepare, pick the types, Operate the
   * active automata, Observe, let them Choose, contract the payoffs of the
   * chosen types and let the automata Remember their components. On a
   * playable game with draws the random sources can return, the round
   * passes; each active automaton then has played the round, and the
   * other automata are untouched.
   */
  method PlayRound(setup: Setup, correlation: Correlation, automata: seq<seq<LearningAutomaton>>,
                   combos: seq<seq<nat>>, stats: seq<TypeStats>, adversarial: bool, d: RoundDraws)
    returns (result: Result<RoundResult>)
    requires Arranged(automata, correlation, setup)
    requires setup.players >= 1
    requires combos == AllTypes(setup.typesCount) && |stats| == |combos| >= 1
    requires DrawsFit(d, setup, correlation.kind, correlation.registerSize, |correlation.agents|)
    modifies Objects(automata)
    modifies correlation`prepared, correlation`operations, correlation`register
    modifies correlation`matrices, correlation`amplitudes, correlation`observables
    ensures Arranged(automata, correlation, setup)
    ensures Playable(setup) ==> result.Ok?
    ensures result.Ok? ==>
              && result.value.types == SelectTypes(adversarial, d.coin, combos, stats, d.randomTypes)
              && IsTypeCombination(result.value.types, setup.typesCount)
    ensures result.Ok? ==>
              && |result.value.choices| == setup.players
              && forall i | 0 <= i < setup.players ::
                   && |result.value.choices[i]| == setup.choicesCount[i]
                   && (forall c | 0 <= c < |result.value.choices[i]| :: 0.0 <= result.value.choices[i][c])
                   && Sum(AbsAll(result.value.choices[i])) == 1.0
    ensures result.Ok? ==>
              && Descend(setup.game, result.value.types).Ok?
              && Contract(Descend(setup.game, result.value.types).value, result.value.choices) == Ok(result.value.payoffs)
              && |result.value.payoffs| >= setup.players
    ensures result.Ok? ==> forall i | 0 <= i < setup.players ::
              var a := automata[i][result.value.types[i]];
              && PlayedRound(a, old(a.strategy), old(a.memory), old(a.totalPlayed), old(a.totalPayoff),
                             d.operateBases[i], d.chooseBases[i], result.value.choices[i], result.value.payoffs[i])
              && SignalledFrom(correlation, a, old(a.strategy), old(a.memory), d.operateBases[i], d)
    ensures var types := SelectTypes(adversarial, d.coin, combos, stats, d.randomTypes);
            forall i, t | 0 <= i < |automata| && i < |types| && 0 <= t < |automata[i]| && t != types[i] ::
              unchanged(automata[i][t])
  {
    var types := SelectTypes(adversarial, d.coin, combos, stats, d.randomTypes);
    if adversarial && d.coin > 0.01 {
      AllTypesMembers(setup.typesCount, types);
    }
    result := PlayActive(setup, correlation, automata, types, d);
    forall i, t | 0 <= i < |automata| && i < |types| && 0 <= t < |automata[i]| && t != types[i]
      ensures unchanged(automata[i][t])
    {
      InactiveOutside(automata, types, i, t);
    }
  }

  /**
   * Steps 1 to 3 of a round on the combination `types`: the correlation is
   * prepared and the active automata Operate. With the automata registered,
   * neither can fail.
   */
  method PrepareOperate(setup: Setup, correlation: Correlation, automata: seq<seq<LearningAutomaton>>,
                        types: seq<nat>, d: RoundDraws)
    requires Arranged(automata, correlation, setup) && setup.players >= 1
    requires IsTypeCombination(types, setup.typesCount)
    requires DrawsFit(d, setup, correlation.kind, correlation.registerSize, |correlation.agents|)
    modifies correlation`prepared, correlation`register, correlation`amplitudes
    modifies correlation`operations, correlation`matrices
    modifies Active(automata, types)`strategy
    ensures Arranged(automata, correlation, setup) && PreparedForAll(correlation)
    ensures forall i | 0 <= i < setup.players ::
              OperatedFrom(automata[i][types[i]], old(automata[i][types[i]].strategy), d.operateBases[i])
    ensures correlation.kind.Classical? ==> correlation.register == d.register
    ensures OperationsHeld(correlation, automata, types, d.operateBases, old(Snapshots(automata, types)))
  {
    SomeoneRegistered(automata, correlation, setup, types[0]);
    PrepareArranged(setup, correlation, automata, types, d.register);
    var outcome := OperateActive(setup, correlation, automata, types, d.operateBases);
    assert outcome.Pass?;
  }

  /** An automaton of the first player is registered, so the correlation has an agent. */
  lemma SomeoneRegistered(automata: seq<seq<LearningAutomaton>>, correlation: Correlation, setup: Setup, t: nat)
    requires Arranged(automata, correlation, setup) && setup.players >= 1 && t < setup.typesCount[0]
    ensures |correlation.agents| >= 1
  {
    var someone := automata[0][t];
    assert someone in Objects(automata);
    assert correlation.agents[someone.handle] < |correlation.agents|;
  }

  /** Prepare with at least one automaton registered: it passes, and the automata stay arranged. */
  method PrepareArranged(setup: Setup, correlation: Correlation, automata: seq<seq<LearningAutomaton>>,
                         types: seq<nat>, register: seq<real>)
    requires Arranged(automata, correlation, setup) && |correlation.agents| >= 1
    requires Indexes(automata, types)
    requires correlation.kind.Classical? ==> |register| == correlation.registerSize
    modifies correlation`prepared, correlation`operations, correlation`register
    modifies correlation`matrices, correlation`amplitudes
    ensures Arranged(automata, correlation, setup) && PreparedForAll(correlation)
    ensures correlation.kind.Classical? ==> correlation.register == register
    ensures Snapshots(automata, types) == old(Snapshots(automata, types))
  {
    var outcome := Prepare(correlation, register);
    assert outcome.Pass?;
  }

  /**
   * Steps 1 to 5 of a round on the combination `types` (the types do not
   * depend on the correlation, so they can be picked first): the
   * correlation is prepared, the active automata Operate, the correlation
   * is observed and the automata Choose. Each returned distribution is
   * the one Choose climbs to from the operated strategy.
   */
  method ActiveChoices(setup: Setup, correlation: Correlation, automata: seq<seq<LearningAutomaton>>,
                       types: seq<nat>, d: RoundDraws)
    returns (result: Result<seq<seq<real>>>)
    requires Arranged(automata, correlation, setup) && setup.players >= 1
    requires IsTypeCombination(types, setup.typesCount)
    requires DrawsFit(d, setup, correlation.kind, correlation.registerSize, |correlation.agents|)
    modifies correlation`prepared, correlation`register, correlation`amplitudes
    modifies correlation`operations, correlation`matrices, correlation`observables
    modifies Active(automata, types)`strategy, Active(automata, types)`observable
    ensures Arranged(automata, correlation, setup)
    ensures (forall i | 0 <= i < setup.players :: setup.choicesCount[i] >= 1) ==> result.Ok?
    ensures result.Ok? ==>
              && |result.value| == setup.players
              && forall i | 0 <= i < setup.players ::
                   && |result.value[i]| == setup.choicesCount[i]
                   && (forall c | 0 <= c < |result.value[i]| :: 0.0 <= result.value[i][c])
                   && Sum(AbsAll(result.value[i])) == 1.0
    ensures result.Ok? ==> var before := old(Snapshots(automata, types));
            forall i | 0 <= i < setup.players ::
              var a := automata[i][types[i]];
              && a.memory == before[i].memory && a.totalPlayed == before[i].played && a.totalPayoff == before[i].total
              && 1 <= a.parametersCount <= |before[i].strategy| && IsBasis(d.operateBases[i], a.parametersCount)
              && ChoseFrom(a, AfterOperate(a, before[i].memory, before[i].strategy, d.operateBases[i]), before[i].memory,
                           d.chooseBases[i], result.value[i])
    ensures result.Ok? ==> SignalledAll(correlation, automata, types, d.operateBases, old(Snapshots(automata, types)), d)
  {
    ghost var before := Snapshots(automata, types);
    PrepareOperate(setup, correlation, automata, types, d);
    assert correlation.kind.Quantum? ==>
             d.measurement < RegisterIndex.Pow(correlation.registerSize, |correlation.agents|);
    result := ChooseOperated(setup, correlation, automata, types, d, before);
    if result.Ok? {
      ObservedSignals(correlation, automata, types, d.operateBases, before, d);
    }
  }

  /**
   * Steps 4 and 5 of a round once the active automata have operated from
   * the snapshots `before`: the correlation is observed, and each active
   * automaton chooses from its operated strategy.
   */
  method ChooseOperated(setup: Setup, correlation: Correlation, automata: seq<seq<LearningAutomaton>>,
                        types: seq<nat>, d: RoundDraws, ghost before: seq<Snapshot>)
    returns (result: Result<seq<seq<real>>>)
    requires Arranged(automata, correlation, setup) && PreparedForAll(correlation)
    requires correlation.kind.Classical? ==> correlation.register == d.register
    requires correlation.kind.Quantum? ==> d.measurement < RegisterIndex.Pow(correlation.registerSize, |correlation.agents|)
    requires IsTypeCombination(types, setup.typesCount) && Indexes(automata, types)
    requires |d.chooseBases| == |d.operateBases| == |before| == setup.players
    requires forall i | 0 <= i < setup.players :: IsBasis(d.chooseBases[i], setup.choicesCount[i])
    requires forall i | 0 <= i < setup.players ::
               var a := automata[i][types[i]];
               && a.memory == before[i].memory && a.totalPlayed == before[i].played && a.totalPayoff == before[i].total
               && OperatedFrom(a, before[i].strategy, d.operateBases[i])
    requires OperationsHeld(correlation, automata, types, d.operateBases, before)
    modifies correlation`observables
    modifies Active(automata, types)`observable, Active(automata, types)`strategy
    ensures Arranged(automata, correlation, setup)
    ensures (forall i | 0 <= i < setup.players :: setup.choicesCount[i] >= 1) ==> result.Ok?
    ensures result.Ok? ==>
              && |result.value| == setup.players
              && forall i | 0 <= i < setup.players ::
                   && |result.value[i]| == setup.choicesCount[i]
                   && (forall c | 0 <= c < |result.value[i]| :: 0.0 <= result.value[i][c])
                   && Sum(AbsAll(result.value[i])) == 1.0
    ensures result.Ok? ==> forall i | 0 <= i < setup.players ::
              var a := automata[i][types[i]];
              && a.memory == before[i].memory && a.totalPlayed == before[i].played && a.totalPayoff == before[i].total
              && 1 <= a.parametersCount <= |before[i].strategy| && IsBasis(d.operateBases[i], a.parametersCount)
              && ChoseFrom(a, AfterOperate(a, before[i].memory, before[i].strategy, d.operateBases[i]), before[i].memory,
                           d.chooseBases[i], result.value[i])
    ensures Observed(correlation, d)
  {
    result := ObserveChoose(setup, correlation, automata, types, d);
  }

  /** Observe once prepared: it passes, and every agent has the observable its slot signals. */
  method ObserveArranged(setup: Setup, correlation: Correlation, automata: seq<seq<LearningAutomaton>>, d: RoundDraws)
    requires Arranged(automata, correlation, setup) && PreparedForAll(correlation)
    requires correlation.kind.Classical? ==> correlation.register == d.register
    requires correlation.kind.Quantum? ==> d.measurement < RegisterIndex.Pow(correlation.registerSize, |correlation.agents|)
    modifies correlation`observables
    ensures Arranged(automata, correlation, setup) && Observed(correlation, d)
  {
    var outcome := Observe(correlation, d.measurement);
    assert outcome.Pass?;
  }

  /** Steps 4 and 5 of a round: once prepared, Observe passes and the active automata Choose. */
  method ObserveChoose(setup: Setup, correlation: Correlation, automata: seq<seq<LearningAutomaton>>,
                       types: seq<nat>, d: RoundDraws)
    returns (result: Result<seq<seq<real>>>)
    requires Arranged(automata, correlation, setup) && PreparedForAll(correlation)
    requires correlation.kind.Classical? ==> correlation.register == d.register
    requires IsTypeCombination(types, setup.typesCount)
    requires correlation.kind.Quantum? ==> d.measurement < RegisterIndex.Pow(correlation.registerSize, |correlation.agents|)
    requires |d.chooseBases| == setup.players
    requires forall i | 0 <= i < setup.players :: IsBasis(d.chooseBases[i], setup.choicesCount[i])
    modifies correlation`observables
    modifies Active(automata, types)`observable, Active(automata, types)`strategy
    ensures Arranged(automata, correlation, setup)
    ensures (forall i | 0 <= i < setup.players :: setup.choicesCount[i] >= 1) ==> result.Ok?
    ensures result.Ok? ==>
              && |result.value| == setup.players
              && forall i | 0 <= i < setup.players ::
                   && ChoseFrom(automata[i][types[i]], old(automata[i][types[i]].strategy), old(automata[i][types[i]].memory),
                                d.chooseBases[i], result.value[i])
                   && |result.value[i]| == setup.choicesCount[i]
                   && (forall c | 0 <= c < |result.value[i]| :: 0.0 <= result.value[i][c])
                   && Sum(AbsAll(result.value[i])) == 1.0
    ensures Observed(correlation, d)
  {
    ObserveArranged(setup, correlation, automata, d);
    result := ChooseActive(setup, correlation, automata, types, d.chooseBases);
  }

  /**
   * A round on the combination `types`: the choices of ActiveChoices, then
   * the payoffs of the sub-game of `types` are contracted and each active
   * automaton Remembers its component.
   */
  method PlayActive(setup: Setup, correlation: Correlation, automata: seq<seq<LearningAutomaton>>,
                    types: seq<nat>, d: RoundDraws)
    returns (result: Result<RoundResult>)
    requires Arranged(automata, correlation, setup) && setup.players >= 1
    requires IsTypeCombination(types, setup.typesCount)
    requires DrawsFit(d, setup, correlation.kind, correlation.registerSize, |correlation.agents|)
    modifies correlation`prepared, correlation`register, correlation`amplitudes
    modifies correlation`operations, correlation`matrices, correlation`observables
    modifies Active(automata, types)`strategy, Active(automata, types)`observable
    modifies Active(automata, types)`memory, Active(automata, types)`totalPayoff
    modifies Active(automata, types)`totalPlayed, Active(automata, types)`history
    ensures Arranged(automata, correlation, setup)
    ensures Playable(setup) ==> result.Ok?
    ensures result.Ok? ==>
              && result.value.types == types
              && |result.value.choices| == setup.players
              && forall i | 0 <= i < setup.players ::
                   && |result.value.choices[i]| == setup.choicesCount[i]
                   && (forall c | 0 <= c < |result.value.choices[i]| :: 0.0 <= result.value.choices[i][c])
                   && Sum(AbsAll(result.value.choices[i])) == 1.0
    ensures result.Ok? ==>
              && Descend(setup.game, types).Ok?
              && Contract(Descend(setup.game, types).value, result.value.choices) == Ok(result.value.payoffs)
              && |result.value.payoffs| >= setup.players
    ensures result.Ok? ==> forall i | 0 <= i < setup.players ::
              var a := automata[i][types[i]];
              && PlayedRound(a, old(a.strategy), old(a.memory), old(a.totalPlayed), old(a.totalPayoff),
                             d.operateBases[i], d.chooseBases[i], result.value.choices[i], result.value.payoffs[i])
              && SignalledFrom(correlation, a, old(a.strategy), old(a.memory), d.operateBases[i], d)
  {
    ghost var before := Snapshots(automata, types);
    var choices := ActiveChoices(setup, correlation, automata, types, d);
    if choices.Err? {
      return Err(choices.error);
    }
    var payoffs := PayRound(setup, correlation, automata, types, d, before, choices.value);
    if payoffs.Err? {
      return Err(payoffs.error);
    }
    return Ok(RoundResult(types, choices.value, payoffs.value));
  }

  /**
   * Steps 6 and 7 of a round, once the active automata have operated and
   * chosen `choices` from the snapshots `before`: the payoffs of the
   * sub-game of `types` are contracted with the choices, and each active
   * automaton Remembers its component, which completes its round.
   */
  method PayRound(setup: Setup, correlation: Correlation, automata: seq<seq<LearningAutomaton>>,
                  types: seq<nat>, d: RoundDraws, ghost before: seq<Snapshot>, choices: seq<seq<real>>)
    returns (result: Result<seq<real>>)
    requires Arranged(automata, correlation, setup)
    requires IsTypeCombination(types, setup.typesCount)
    requires |before| == |choices| == |d.operateBases| == |d.chooseBases| == setup.players
    requires forall i | 0 <= i < setup.players :: |choices[i]| == setup.choicesCount[i]
    requires forall i | 0 <= i < setup.players ::
               var a := automata[i][types[i]];
               && a.memory == before[i].memory && a.totalPlayed == before[i].played && a.totalPayoff == before[i].total
               && 1 <= a.parametersCount <= |before[i].strategy| && IsBasis(d.operateBases[i], a.parametersCount)
               && ChoseFrom(a, AfterOperate(a, before[i].memory, before[i].strategy, d.operateBases[i]), before[i].memory,
                            d.chooseBases[i], choices[i])
    requires SignalledAll(correlation, automata, types, d.operateBases, before, d)
    modifies Active(automata, types)`memory, Active(automata, types)`totalPayoff
    modifies Active(automata, types)`totalPlayed, Active(automata, types)`history
    ensures Arranged(automata, correlation, setup)
    ensures Playable(setup) ==> result.Ok?
    ensures result.Ok? ==>
              && Descend(setup.game, types).Ok?
              && Contract(Descend(setup.game, types).value, choices) == Ok(result.value)
              && |result.value| >= setup.players
    ensures result.Ok? ==> forall i | 0 <= i < setup.players ::
              && PlayedRound(automata[i][types[i]], before[i].strategy, before[i].memory, before[i].played, before[i].total,
                             d.operateBases[i], d.chooseBases[i], choices[i], result.value[i])
              && SignalledFrom(correlation, automata[i][types[i]], before[i].strategy, before[i].memory, d.operateBases[i], d)
  {
    if Playable(setup) {
      RoundPayoffsShape(setup, types, choices);
    }
    var expected := RoundPayoffs(setup, types, choices);
    if expected.Err? {
      return Err(expected.error);
    }
    var outcome := RememberRound(setup, correlation, automata, types, d, before, choices, expected.value);
    if outcome.Fail? {
      return Err(outcome.error);
    }
    return Ok(expected.value);
  }

  /**
   * Step 6 of a round: the payoffs of the chosen types, contracted with the
   * distributions. On a playable game with one distribution per player,
   * each as long as the player's choices, this yields one payoff per player.
   */
  function RoundPayoffs(setup: Setup, types: seq<nat>, choices: seq<seq<real>>): (r: Result<seq<real>>)
    ensures r.Ok? ==> Descend(setup.game, types).Ok? && Contract(Descend(setup.game, types).value, choices) == r
  {
    var payoffs := Descend(setup.game, types);
    if payoffs.Err? then Err(payoffs.error) else Contract(payoffs.value, choices)
  }

  lemma RoundPayoffsShape(setup: Setup, types: seq<nat>, choices: seq<seq<real>>)
    requires Playable(setup) && IsTypeCombination(types, setup.typesCount) && Fits(choices, setup.choicesCount)
    ensures RoundPayoffs(setup, types, choices).Ok? && |RoundPayoffs(setup, types, choices).value| == setup.players
  {
    ContractShape(Descend(setup.game, types).value, setup.choicesCount, setup.players, choices);
  }

  /**
   * Step 7 of a round, once the active automata have operated and chosen
   * from the snapshots `before`: each Remembers its component of `payoffs`,
   * which completes its round.
   */
  method RememberRound(setup: Setup, correlation: Correlation, automata: seq<seq<LearningAutomaton>>,
                       types: seq<nat>, d: RoundDraws, ghost before: seq<Snapshot>,
                       choices: seq<seq<real>>, payoffs: seq<real>)
    returns (outcome: Outcome)
    requires Arranged(automata, correlation, setup)
    requires IsTypeCombination(types, setup.typesCount)
    requires |before| == |choices| == |d.operateBases| == |d.chooseBases| == setup.players
    requires forall i | 0 <= i < setup.players ::
               var a := automata[i][types[i]];
               && a.memory == before[i].memory && a.totalPlayed == before[i].played && a.totalPayoff == before[i].total
               && 1 <= a.parametersCount <= |before[i].strategy| && IsBasis(d.operateBases[i], a.parametersCount)
               && ChoseFrom(a, AfterOperate(a, before[i].memory, before[i].strategy, d.operateBases[i]), before[i].memory,
                            d.chooseBases[i], choices[i])
    modifies Active(automata, types)`memory, Active(automata, types)`totalPayoff
    modifies Active(automata, types)`totalPlayed, Active(automata, types)`history
    ensures Arranged(automata, correlation, setup)
    ensures outcome.Pass? <==> |payoffs| >= setup.players
    ensures outcome.Pass? ==> forall i | 0 <= i < setup.players ::
              PlayedRound(automata[i][types[i]], before[i].strategy, before[i].memory, before[i].played, before[i].total,
                          d.operateBases[i], d.chooseBases[i], choices[i], payoffs[i])
  {
    outcome := RememberActive(setup, correlation, automata, types, payoffs);
    if outcome.Pass? {
      forall i | 0 <= i < setup.players
        ensures PlayedRound(automata[i][types[i]], before[i].strategy, before[i].memory, before[i].played, before[i].total,
                            d.operateBases[i], d.chooseBases[i], choices[i], payoffs[i])
      {
        var a := automata[i][types[i]];
        var operated := AfterOperate(a, before[i].memory, before[i].strategy, d.operateBases[i]);
        assert ChoseFrom(a, operated, before[i].memory, d.chooseBases[i], choices[i]);
        RoundComposes(a, before[i].strategy, before[i].memory, before[i].played, before[i].total,
                      d.operateBases[i], d.chooseBases[i], choices[i], payoffs[i], operated);
      }
    }
  }

  /** types_stats after a round: the combination's payoffs are added and its plays counted. */
  function Tally(stats: seq<TypeStats>, k: nat, payoffs: seq<real>): (r: seq<TypeStats>)
    requires k < |stats|
    ensures |r| == |stats| && Plays(r) == Plays(stats) + 1
    ensures r[k].plays == stats[k].plays + 1 && r[k].total == stats[k].total + Sum(payoffs)
    ensures forall j | 0 <= j < |stats| && j != k :: r[j] == stats[j]
  {
    var r := stats[k := TypeStats(stats[k].total + Sum(payoffs), stats[k].plays + 1)];
    PlaysUpdate(stats, k, r[k]);
    r
  }

  /** The rounds types_stats has counted, over every combination. */
  function Plays(stats: seq<TypeStats>): nat
  {
    if stats == [] then 0 else Plays(stats[..|stats| - 1]) + stats[|stats| - 1].plays
  }

  lemma {:induction false} PlaysUpdate(stats: seq<TypeStats>, k: nat, x: TypeStats)
    requires k < |stats|
    ensures Plays(stats[k := x]) + stats[k].plays == Plays(stats) + x.plays
    decreases |stats|
  {
    var n := |stats|;
    var updated := stats[k := x];
    if k < n - 1 {
      assert updated[..n - 1] == stats[..n - 1][k := x];
      PlaysUpdate(stats[..n - 1], k, x);
    } else {
      assert updated[..n - 1] == stats[..n - 1];
    }
  }

  lemma {:induction false} PlaysOfUntried(n: nat)
    ensures Plays(seq(n, _ => TypeStats(0.0, 0))) == 0
  {
    if n > 0 {
      assert seq(n, _ => TypeStats(0.0, 0))[..n - 1] == seq(n - 1, _ => TypeStats(0.0, 0));
      PlaysOfUntried(n - 1);
    }
  }

  /** A new automaton: an all-zero strategy, nothing remembered, nothing observed, no plays. */
  ghost predicate Initial(a: LearningAutomaton)
    reads a
  {
    && a.strategy == seq(|a.strategy|, _ => 0.0)
    && a.memory == [] && a.history == [] && a.observable == None
    && a.totalPayoff == 0.0 && a.totalPlayed == 0
  }

  /** A fresh automaton for player i joins the population on the shared correlation. */
  method Spawn(correlation: Correlation, automata: seq<seq<LearningAutomaton>>, row: seq<LearningAutomaton>,
               choicesCount: seq<nat>, handle: int, memorySize: nat, learningRate: real)
    returns (a: LearningAutomaton)
    requires correlation.Valid() && |automata| < |choicesCount|
    requires Population(automata + [row], correlation, choicesCount) && Distinct(automata + [row])
    requires handle !in correlation.agents
    modifies correlation`agents, correlation`order
    ensures correlation.Valid() && fresh(a) && Initial(a)
    ensures Population(automata + [row + [a]], correlation, choicesCount) && Distinct(automata + [row + [a]])
    ensures Spawned(a, handle, memorySize, learningRate)
    ensures correlation.agents == old(correlation.agents)[handle := |old(correlation.agents)|]
  {
    a := new LearningAutomaton(correlation, handle, choicesCount[|automata|], memorySize, learningRate);
    var before: seq<seq<LearningAutomaton>> := automata + [row];
    var after: seq<seq<LearningAutomaton>> := automata + [row + [a]];
    forall i, t | 0 <= i < |after| && 0 <= t < |after[i]|
      ensures after[i][t].correlation == correlation && after[i][t].choicesCount == choicesCount[i]
      ensures after[i][t].Valid()
    {
      if i < |automata| || t < |row| {
        var b := after[i][t];
        assert b == before[i][t] && b in Objects(before);
        assert old(b.Valid());
      }
    }
    forall i, t | 0 <= i < |before| && 0 <= t < |before[i]| ensures before[i][t].handle != a.handle {
      assert before[i][t] in Objects(before);
      assert old(before[i][t].Valid());
    }
    DistinctAppend(automata, row, a);
  }

  /** A newcomer whose handle no automaton of the population has keeps the population Distinct. */
  lemma DistinctAppend(automata: seq<seq<LearningAutomaton>>, row: seq<LearningAutomaton>, a: LearningAutomaton)
    requires Distinct(automata + [row])
    requires forall i, t | 0 <= i < |automata + [row]| && 0 <= t < |(automata + [row])[i]| ::
               (automata + [row])[i][t].handle != a.handle
    ensures Distinct(automata + [row + [a]])
  {
    var before: seq<seq<LearningAutomaton>> := automata + [row];
    var after: seq<seq<LearningAutomaton>> := automata + [row + [a]];
    forall i, t, j, u ensures Apart(after, i, t, j, u) {
      var last := |automata|;
      if !(&& 0 <= i < |after| && 0 <= t < |after[i]| && 0 <= j < |after| && 0 <= u < |after[j]|
           && (i != j || t != u)) {
      } else if (i < last || t < |row|) && (j < last || u < |row|) {
        assert after[i][t] == before[i][t] && after[j][u] == before[j][u];
        assert Apart(before, i, t, j, u);
      } else if i < last || t < |row| {
        assert j == last && u == |row| && after[j] == row + [a];
        assert after[i][t] == before[i][t];
      } else {
        assert i == last && t == |row| && after[i] == row + [a];
        assert after[j][u] == before[j][u];
      }
    }
  }

  /** The automaton was created with this handle and these parameters. */
  predicate Spawned(a: LearningAutomaton, handle: int, memorySize: nat, learningRate: real)
  {
    a.handle == handle && a.memorySize == memorySize && a.learningRate == learningRate
  }

  /** The automata of one player, one per type, under the handles from next on. */
  method SpawnRow(setup: Setup, correlation: Correlation, automata: seq<seq<LearningAutomaton>>,
                  memorySize: nat, learningRate: real, handles: seq<int>, next: nat)
    returns (row: seq<LearningAutomaton>)
    requires |setup.typesCount| == setup.players && |setup.choicesCount| == setup.players
    requires |automata| < setup.players && next + setup.typesCount[|automata|] <= |handles|
    requires correlation.Valid() && Population(automata, correlation, setup.choicesCount) && Distinct(automata)
    requires forall k | next <= k < |handles| :: handles[k] !in correlation.agents
    requires forall k, l | 0 <= k < l < |handles| :: handles[k] != handles[l]
    modifies correlation`agents, correlation`order
    ensures correlation.Valid() && Population(automata + [row], correlation, setup.choicesCount)
    ensures Distinct(automata + [row])
    ensures |row| == setup.typesCount[|automata|]
    ensures forall t | 0 <= t < |row| :: fresh(row[t]) && Spawned(row[t], handles[next + t], memorySize, learningRate)
    ensures forall t | 0 <= t < |row| :: Initial(row[t])
    ensures forall k | next + |row| <= k < |handles| :: handles[k] !in correlation.agents
    ensures old(correlation.agents).Keys <= correlation.agents.Keys
    ensures |correlation.agents| == |old(correlation.agents)| + |row|
  {
    row := [];
    assert Population(automata + [row], correlation, setup.choicesCount);
    assert Distinct(automata + [row]) by {
      var empty := automata + [row];
      forall i, t, j, u ensures Apart(empty, i, t, j, u) {
        assert Apart(automata, i, t, j, u);
      }
    }
    while |row| < setup.typesCount[|automata|]
      invariant |row| <= setup.typesCount[|automata|]
      invariant correlation.Valid() && Population(automata + [row], correlation, setup.choicesCount)
      invariant Distinct(automata + [row])
      invariant forall t | 0 <= t < |row| :: Initial(row[t])
      invariant forall t | 0 <= t < |row| :: fresh(row[t]) && Spawned(row[t], handles[next + t], memorySize, learningRate)
      invariant forall k | next + |row| <= k < |handles| :: handles[k] !in correlation.agents
      invariant old(correlation.agents).Keys <= correlation.agents.Keys
      invariant |correlation.agents| == |old(correlation.agents)| + |row|
    {
      var a := Spawn(correlation, automata, row, setup.choicesCount, handles[next + |row|], memorySize, learningRate);
      row := row + [a];
    }
  }

  /**
   * Automaton t of player i was created under handle number
   * Total(counts[..i]) + t: players in order, types in order within a player.
   */
  ghost predicate RowsSpawned(automata: seq<seq<LearningAutomaton>>, counts: seq<nat>, handles: seq<int>,
                              memorySize: nat, learningRate: real)
  {
    && |automata| <= |counts|
    && forall i, t | 0 <= i < |automata| && 0 <= t < |automata[i]| ::
         && Total(counts[..i]) + t < |handles|
         && Spawned(automata[i][t], handles[Total(counts[..i]) + t], memorySize, learningRate)
  }

  lemma RowsSpawnedStep(automata: seq<seq<LearningAutomaton>>, row: seq<LearningAutomaton>, counts: seq<nat>,
                        handles: seq<int>, memorySize: nat, learningRate: real)
    requires RowsSpawned(automata, counts, handles, memorySize, learningRate) && |automata| < |counts|
    requires Total(counts[..|automata|]) + |row| <= |handles|
    requires forall t | 0 <= t < |row| ::
               Spawned(row[t], handles[Total(counts[..|automata|]) + t], memorySize, learningRate)
    ensures RowsSpawned(automata + [row], counts, handles, memorySize, learningRate)
  {
    var after := automata + [row];
    forall i, t | 0 <= i < |after| && 0 <= t < |after[i]|
      ensures Total(counts[..i]) + t < |handles|
      ensures Spawned(after[i][t], handles[Total(counts[..i]) + t], memorySize, learningRate)
    {
      if i < |automata| {
        assert after[i][t] == automata[i][t];
        assert Total(counts[..i]) + t < |handles|
               && Spawned(automata[i][t], handles[Total(counts[..i]) + t], memorySize, learningRate);
      } else {
        assert i == |automata| && after[i] == row;
        assert Total(counts[..i]) + t < Total(counts[..|automata|]) + |row|;
      }
    }
  }

  /** The first |automata| players have their automata, in order, on fresh handles. */
  ghost predicate Grown(automata: seq<seq<LearningAutomaton>>, correlation: Correlation, setup: Setup,
                        handles: seq<int>, memorySize: nat, learningRate: real)
    reads Objects(automata), correlation
  {
    && |setup.typesCount| == setup.players && |setup.choicesCount| == setup.players
    && |automata| <= setup.players && Total(setup.typesCount[..|automata|]) <= |handles|
    && correlation.Valid() && Population(automata, correlation, setup.choicesCount)
    && (forall i | 0 <= i < |automata| :: |automata[i]| == setup.typesCount[i])
    && RowsSpawned(automata, setup.typesCount, handles, memorySize, learningRate)
    && (forall k | Total(setup.typesCount[..|automata|]) <= k < |handles| :: handles[k] !in correlation.agents)
    && Distinct(automata)
    && forall i, t | 0 <= i < |automata| && 0 <= t < |automata[i]| :: Initial(automata[i][t])
  }

  /**
   * The automata of play, player by player and type by type, each
   * registered under the next handle.
   */
  method Populate(setup: Setup, correlation: Correlation, memorySize: nat, learningRate: real, handles: seq<int>)
    returns (automata: seq<seq<LearningAutomaton>>)
    requires |setup.typesCount| == setup.players && |setup.choicesCount| == setup.players
    requires correlation.Valid()
    requires |handles| >= Total(setup.typesCount)
    requires forall k, l | 0 <= k < l < |handles| :: handles[k] != handles[l]
    requires forall k | 0 <= k < |handles| :: handles[k] !in correlation.agents
    modifies correlation`agents, correlation`order
    ensures Arranged(automata, correlation, setup) && fresh(Objects(automata))
    ensures RowsSpawned(automata, setup.typesCount, handles, memorySize, learningRate)
    ensures forall i, t | 0 <= i < |automata| && 0 <= t < |automata[i]| :: Initial(automata[i][t])
    ensures old(correlation.agents).Keys <= correlation.agents.Keys
    ensures |correlation.agents| == |old(correlation.agents)| + Total(setup.typesCount)
  {
    automata := [];
    TotalPrefix(setup.typesCount, 0);
    assert Objects(automata) == {};
    while |automata| < setup.players
      invariant Grown(automata, correlation, setup, handles, memorySize, learningRate)
      invariant fresh(Objects(automata))
      invariant old(correlation.agents).Keys <= correlation.agents.Keys
      invariant |correlation.agents| == |old(correlation.agents)| + Total(setup.typesCount[..|automata|])
    {
      automata := AddRow(setup, correlation, automata, memorySize, learningRate, handles);
    }
    assert setup.typesCount[..|automata|] == setup.typesCount;
  }

  /** Populate's step: the automata of the next player join the population. */
  method AddRow(setup: Setup, correlation: Correlation, automata: seq<seq<LearningAutomaton>>,
                memorySize: nat, learningRate: real, handles: seq<int>)
    returns (grown: seq<seq<LearningAutomaton>>)
    requires Grown(automata, correlation, setup, handles, memorySize, learningRate)
    requires |automata| < setup.players && Total(setup.typesCount) <= |handles|
    requires forall k, l | 0 <= k < l < |handles| :: handles[k] != handles[l]
    modifies correlation`agents, correlation`order
    ensures Grown(grown, correlation, setup, handles, memorySize, learningRate)
    ensures |grown| == |automata| + 1
    ensures fresh(Objects(grown) - Objects(automata)) && Objects(automata) <= Objects(grown)
    ensures Total(setup.typesCount[..|grown|]) == Total(setup.typesCount[..|automata|]) + setup.typesCount[|automata|]
    ensures old(correlation.agents).Keys <= correlation.agents.Keys
    ensures |correlation.agents| == |old(correlation.agents)| + setup.typesCount[|automata|]
  {
    var i := |automata|;
    TotalStep(setup.typesCount, i);
    TotalPrefix(setup.typesCount, i + 1);
    var next := Total(setup.typesCount[..i]);
    var row := SpawnRow(setup, correlation, automata, memorySize, learningRate, handles, next);
    RowsSpawnedStep(automata, row, setup.typesCount, handles, memorySize, learningRate);
    grown := automata + [row];
    ObjectsAppend(automata, row);
    InitialAppend(automata, row);
  }

  lemma InitialAppend(automata: seq<seq<LearningAutomaton>>, row: seq<LearningAutomaton>)
    requires forall i, t | 0 <= i < |automata| && 0 <= t < |automata[i]| :: Initial(automata[i][t])
    requires forall t | 0 <= t < |row| :: Initial(row[t])
    ensures forall i, t | 0 <= i < |automata + [row]| && 0 <= t < |(automata + [row])[i]| ::
              Initial((automata + [row])[i][t])
  {
    var grown := automata + [row];
    forall j, t | 0 <= j < |grown| && 0 <= t < |grown[j]| ensures Initial(grown[j][t]) {
      if j < |automata| {
        assert grown[j][t] == automata[j][t];
      } else {
        assert grown[j][t] == row[t];
      }
    }
  }

  lemma ObjectsAppend(automata: seq<seq<LearningAutomaton>>, row: seq<LearningAutomaton>)
    ensures Objects(automata + [row]) == Objects(automata) + set t | 0 <= t < |row| :: row[t]
  {
    var grown := automata + [row];
    forall a | a in Objects(grown) ensures a in Objects(automata) || a in row {
      var i, t :| 0 <= i < |grown| && 0 <= t < |grown[i]| && grown[i][t] == a;
      if i < |automata| {
        assert automata[i][t] == a;
      }
    }
    forall a | a in Objects(automata) ensures a in Objects(grown) {
      var i, t :| 0 <= i < |automata| && 0 <= t < |automata[i]| && automata[i][t] == a;
      assert grown[i][t] == a;
    }
    forall t | 0 <= t < |row| ensures row[t] in Objects(grown) {
      assert grown[|automata|][t] == row[t];
    }
  }

  lemma TotalStep(counts: seq<nat>, i: nat)
    requires i < |counts|
    ensures Total(counts[..i + 1]) == Total(counts[..i]) + counts[i]
  {
    assert counts[..i + 1][..i] == counts[..i];
  }

  /**
   * The loop of play: the rounds, the types_stats bookkeeping and one
   * progress value per round, the mean payoff of the population once the
   * round is over. On a playable game every round passes.
   */
  method PlayRounds(setup: Setup, correlation: Correlation, automata: seq<seq<LearningAutomaton>>,
                    iterations: nat, adversarial: bool, draws: seq<RoundDraws>)
    returns (result: Result<seq<real>>)
    requires Arranged(automata, correlation, setup) && setup.players >= 1
    requires IsTypeCombination(seq(setup.players, _ => 0), setup.typesCount)
    requires |draws| == iterations
    requires forall r | 0 <= r < iterations ::
               DrawsFit(draws[r], setup, correlation.kind, correlation.registerSize, |correlation.agents|)
    modifies Objects(automata)
    modifies correlation`prepared, correlation`operations, correlation`register
    modifies correlation`matrices, correlation`amplitudes, correlation`observables
    ensures Arranged(automata, correlation, setup)
    ensures Playable(setup) ==> result.Ok?
    ensures result.Ok? ==> |result.value| == iterations
    ensures result.Ok? ==> EndsWithMean(result.value, automata, correlation, setup.choicesCount)
  {
    var combos := AllTypes(setup.typesCount);
    AllTypesMembers(setup.typesCount, seq(setup.players, _ => 0));
    var stats := seq(|combos|, _ => TypeStats(0.0, 0));
    PlaysOfUntried(|combos|);
    var progress: seq<real> := [];
    while |progress| < iterations
      invariant |progress| <= iterations
      invariant Arranged(automata, correlation, setup) && correlation.agents == old(correlation.agents)
      invariant |stats| == |combos| && Plays(stats) == |progress|
      invariant EndsWithMean(progress, automata, correlation, setup.choicesCount)
    {
      var tallied := TallyRound(setup, correlation, automata, combos, stats, adversarial, draws[|progress|]);
      if tallied.Err? {
        return Err(tallied.error);
      }
      stats := tallied.value.stats;
      progress := progress + [tallied.value.mean];
    }
    return Ok(progress);
  }

  /** What one pass of play's loop leaves: the new types_stats and the round's progress value. */
  datatype Tallied = Tallied(stats: seq<TypeStats>, mean: real)

  /** One pass of play's loop body: a round, then its payoffs are tallied under its combination. */
  method TallyRound(setup: Setup, correlation: Correlation, automata: seq<seq<LearningAutomaton>>,
                    combos: seq<seq<nat>>, stats: seq<TypeStats>, adversarial: bool, d: RoundDraws)
    returns (result: Result<Tallied>)
    requires Arranged(automata, correlation, setup)
    requires setup.players >= 1
    requires combos == AllTypes(setup.typesCount) && |stats| == |combos| >= 1
    requires DrawsFit(d, setup, correlation.kind, correlation.registerSize, |correlation.agents|)
    modifies Objects(automata)
    modifies correlation`prepared, correlation`operations, correlation`register
    modifies correlation`matrices, correlation`amplitudes, correlation`observables
    ensures Arranged(automata, correlation, setup)
    ensures Playable(setup) ==> result.Ok?
    ensures result.Ok? ==> |result.value.stats| == |stats| && Plays(result.value.stats) == Plays(stats) + 1
    ensures result.Ok? ==> result.value.mean == PopulationMean(automata, correlation, setup.choicesCount)
  {
    var round := PlayRound(setup, correlation, automata, combos, stats, adversarial, d);
    if round.Err? {
      return Err(round.error);
    }
    AllTypesMembers(setup.typesCount, round.value.types);
    var tallied := Tally(stats, IndexOf(combos, round.value.types), round.value.payoffs);
    return Ok(Tallied(tallied, PopulationMean(automata, correlation, setup.choicesCount)));
  }

  /**
   * play: infers the shape of the game, creates the automata and runs
   * the rounds; the result holds the population's mean payoff after each
   * round.
   */
  method Play(game: Tree, correlation: Correlation, learningRate: real, memorySize: nat, iterations: nat,
              adversarial: bool, handles: seq<int>, draws: seq<RoundDraws>)
    returns (result: Result<seq<real>>)
    requires correlation.Valid()
    requires forall k, l | 0 <= k < l < |handles| :: handles[k] != handles[l]
    requires forall k | 0 <= k < |handles| :: handles[k] !in correlation.agents
    requires InferShape(game).Ok? ==>
               && |handles| >= Total(InferShape(game).value.typesCount)
               && |draws| == iterations
               && forall r | 0 <= r < iterations ::
                    DrawsFit(draws[r], InferShape(game).value, correlation.kind, correlation.registerSize,
                             |correlation.agents| + Total(InferShape(game).value.typesCount))
    modifies correlation
    ensures InferShape(game).Err? ==> result == Err(InferShape(game).error) && unchanged(correlation)
    ensures InferShape(game).Ok? && Playable(InferShape(game).value) ==> result.Ok?
    ensures result.Ok? ==> InferShape(game).Ok? && |result.value| == iterations
    ensures result.Ok? ==>
              |correlation.agents| == |old(correlation.agents)| + Total(InferShape(game).value.typesCount)
  {
    var shape := InferShape(game);
    if shape.Err? {
      return Err(shape.error);
    }
    var setup := shape.value;
    ShapeCountsPositive(game);
    var automata := Populate(setup, correlation, memorySize, learningRate, handles);
    result := PlayRounds(setup, correlation, automata, iterations, adversarial, draws);
  }
}