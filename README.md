# Correlated learning automata, modelled in Dafny

This project models the core of `CorrelatedAutomata.py`. The module lets
learning automata play repeated games while they share a *correlation*, a
public signal. The correlation is either classical (a shared random
register) or quantum (an entangled state that each agent rotates with a
local unitary before measurement). The model covers:

- **the correlation** (`correlation.dfy`, module `Correlations`). One
  class with a `kind` stands for the two Python subclasses. It covers:
  - registering agents into insertion-ordered slots;
  - `Prepare`, `LocalOperation`, `Observe` and `Observable`.

  For the quantum state the model keeps the *support* of the amplitude
  vector (the indices that are non-zero), not the irrational values.
  Measurement turns the measured joint index into base-R digits, one per
  slot.
- **the numeric helpers** (`numeric.dfy`, module `Numeric`):
  `NormalizedToOne`, `WeightedChoice` (with the uniform draw given),
  Python's `max()`, which keeps the first maximum, and sums as left folds.
- **the base-R index arithmetic** (`register_index.dfy`, module
  `RegisterIndex`). It covers:
  - digits with the least significant first;
  - the stride `Σ R^a` of the entangled state;
  - proof that the slice `[::step]` has exactly R positions, and that those
    positions are exactly the indices whose digits are all equal.
- **the learning automaton** (`automaton.dfy`, module `Automata`). It
  covers:
  - the two nearest-neighbour payoff predictors, including the rule for
    coincident matches;
  - hill climbing in `Operate` and `Choose` over a given basis of search
    directions, where the first best candidate wins;
  - slice updates of the strategy;
  - the bounded memory, the running totals and `MeanPayoff`.
- **the games** (`games.dfy`, module `Games`). A game is a nested list,
  modelled as a `Tree`. The module covers:
  - `Coordinated`;
  - inferring the shape from the nesting depth;
  - `all_types` in lexicographic order;
  - the adversarial `min()` over the type statistics;
  - the multilinear contraction `ExpectedPayoffs`.
- **`play`** (`play.dfy`, module `Playing`). It infers the shape, creates
  one automaton per player and type, and runs the rounds with the
  `types_stats` bookkeeping. It returns one progress value per round.

Every random value is an input of the model:
- the register draw of the classical `Prepare`;
- the measured index of the quantum `Observe`;
- the bases of `RandomBasis`;
- the adversarial coin and the uniformly drawn types.

The handles that `id(self)` supplies in Python are an input of `Play`.
They are distinct and not yet registered, as object identities are.

Python exceptions become `Err`/`Fail` values of the `Error` datatype in
`wrappers.dfy`, one constructor per failing `assert` or runtime error.
The correlation, automaton and game operations state when they fail and
when they succeed. The phases of `play` state that they succeed on a
playable game (`Playable`: every choice count at least 1 and every type
combination indexing a payoff tensor of the inferred shape) with draws
the random sources can return (`DrawsFit`).

## Model

| member | source | states |
|---|---|---|
| Numeric.NormalizedToOne | CorrelatedAutomata.py:64-73 | non-empty input (the assert); the length is kept |
| Numeric.NormalizedToOneSumsToOne | CorrelatedAutomata.py:64-73 | the absolute values of the result sum to 1; uniform 1/len when Σ\|w\| < EPSILON, otherwise each entry times Σ\|w\| gives back the weight; non-negative weights stay non-negative |
| Numeric.WeightedChoice | CorrelatedAutomata.py:75-84 | for a draw 0 ≤ r ≤ Σw it returns an index exactly when there are weights ("Random overflow" only for the empty list), and that index is the first whose running sum reaches r |
| Numeric.ArgMaxFirst | CorrelatedAutomata.py:285 | `max(range(R), key=…)`: the index holds the largest value and every earlier index holds a smaller one |
| Numeric.FirstMaxUnique | CorrelatedAutomata.py:285 | the first maximum is unique, so equal weight vectors give the same observable |
| RegisterIndex.DigitsBelow | CorrelatedAutomata.py:345-348 | each of the n base-R digits of m (least significant first) is below R |
| RegisterIndex.SliceHasRegisterSizePositions | CorrelatedAutomata.py:301-304 | for n ≥ 1 agents the stride Σ R^a satisfies (R-1)·step < R^n ≤ R·step, so `[::step]` over R^n entries has exactly R positions and the assignment of R values is well formed |
| RegisterIndex.SupportIsDiagonal | CorrelatedAutomata.py:301-304 | an index below R^n is a multiple of the stride exactly when its n digits are all equal |
| RegisterIndex.ValueOfDigits | CorrelatedAutomata.py:345-349 | for m < R^n the digits give back m: Σ obs[k]·R^k = m |
| RegisterIndex.DigitsOfValue | CorrelatedAutomata.py:345-349 | digits of the value of digits below R are those digits (the decomposition is a bijection) |
| RegisterIndex.ShiftVanishes | CorrelatedAutomata.py:346-349 | after n divisions by R the rest is 0 exactly when m < R^n, which is the final assert |
| Correlations.Correlation.constructor | CorrelatedAutomata.py:183-189 | a correlation with no agents and nothing prepared |
| Correlations.Correlation.RegisterAgent | CorrelatedAutomata.py:191-198 | a new handle gets slot \|agents\|, the next in registration order; an already registered handle fails with DuplicateAgent and changes nothing |
| Correlations.Correlation.PrepareClassical | CorrelatedAutomata.py:245-253 | one operation per agent, each the uniform weights 1/R; the register is the draw |
| Correlations.Correlation.PrepareQuantum | CorrelatedAutomata.py:289-304 | all matrices reset to the identity; with n ≥ 1 agents the state has R^n entries and is non-zero exactly at the indices whose digits are all equal; with no agents the stride is 0 and the slice assignment fails |
| Correlations.Correlation.LocalOperationParametersCount | CorrelatedAutomata.py:255-262 | R weights for the classical kind (255-262), R·R unitary parameters for the quantum one (306-312), as Times(R, R), which TimesIsProduct shows is the product |
| Correlations.Correlation.LocalOperation | CorrelatedAutomata.py:214-221 | unknown handle fails with UnknownAgent, a parameter count other than R (classical) or R² (quantum) fails with IncorrectLocalOperation, a slot missing from the prepared state fails; on success only the agent's slot changes (the weights, or the unitary of the parameters) |
| Correlations.Correlation.ObserveClassical | CorrelatedAutomata.py:275-285 | one observable per slot in slot order, each the first index maximising register[i]·\|op[i]\|; slots with equal operations get equal observables; before any Prepare it fails (AttributeError) |
| Correlations.Correlation.ObserveQuantum | CorrelatedAutomata.py:325-349 | with the measured index given: slot k observes the k-th digit from the least significant end; the result passes exactly when m < R^n and then Σ obs[k]·R^k = m; unprepared or mismatched state fails |
| Correlations.Correlation.Observable | CorrelatedAutomata.py:234-240 | Ok exactly for a registered handle whose slot has been observed, and then the slot's observable, below R; an unknown handle fails with UnknownAgent |
| Automata.Absorb | CorrelatedAutomata.py:497-503 | one loop step keeps the coincident list and, while it is empty, the weighted sums equal to those of all records seen |
| Automata.Conclude | CorrelatedAutomata.py:504 | the value returned after the loop is the estimate of all records seen |
| Automata.MixedChoiceSamplesStep | CorrelatedAutomata.py:512-516 | a record under another observable adds nothing; one under the same observable adds the sample whose distance is the mixed-choice distance plus the local-operation distance |
| Automata.AppendSample | CorrelatedAutomata.py:497-503 | the step Absorb's invariant needs: one more sample extends the coincident list (distance² < EPSILON), or, while that list is empty, the weighted sums by payoff/d² and 1/d² |
| Automata.Estimate | CorrelatedAutomata.py:497-504 | with nothing remembered the prediction is 0 (the sums stay 0 and the denominator is EPSILON); its other properties are the lemmas below |
| Automata.EstimateBetween | CorrelatedAutomata.py:504 | with payoffs in [lo, hi] around 0, the prediction stays in [lo, hi] |
| Automata.CoincidentDominates | CorrelatedAutomata.py:497-504 | once a coincident record is seen, later distant records do not change the prediction |
| Automata.EstimateOfRepeatedPlay | CorrelatedAutomata.py:497-504 | if every coincident record has payoff p, the prediction is p |
| Automata.Candidates | CorrelatedAutomata.py:537-540 | two candidates per search direction |
| Automata.CandidateShape | CorrelatedAutomata.py:537-540 | each candidate has the length of the strategy part it moves |
| Automata.CandidateDistance | CorrelatedAutomata.py:537-540 | a candidate lies at squared distance rate²·\|dir\|² from the current strategy |
| Automata.Splice | CorrelatedAutomata.py:553-556 | the slice assignment keeps the length, puts the block at its offset and leaves every other entry unchanged |
| Automata.Keep | CorrelatedAutomata.py:576 | `[-MemorySize:]`: everything for MemorySize 0, else the last min(MemorySize, len) records, as a suffix in order |
| Automata.KeepAppend | CorrelatedAutomata.py:570-576 | truncating after every append equals truncating the whole history once |
| Automata.MeanBetween | CorrelatedAutomata.py:581-585 | the mean payoff of a non-empty history lies between its smallest and largest payoff |
| Automata.BestLocalOperation | CorrelatedAutomata.py:537-540 | with a basis of the strategy part's dimension, the chosen candidate has that part's length |
| Automata.BestLocalOperationIsFirstBest | CorrelatedAutomata.py:537-540 | whichever candidate is the first to reach the highest local-operation prediction is the one chosen |
| Automata.BestMixedChoice | CorrelatedAutomata.py:555-558 | with a basis of dimension C, the chosen block has C entries |
| Automata.BestMixedChoiceIsFirstBest | CorrelatedAutomata.py:555-558 | whichever candidate is the first to reach the highest mixed-choice prediction is the one chosen |
| Correlations.TimesIsProduct | CorrelatedAutomata.py:312 | the repeated addition used for R·R and R·C lengths is the product |
| Automata.BlockInside | CorrelatedAutomata.py:553-554 | the block of any observable below R lies inside the strategy of length P + R·C |
| Automata.LearningAutomaton.constructor | CorrelatedAutomata.py:449-484 | registers the handle with the correlation in the next slot; empty memory, zero totals, all-zero strategy of length P + R·C |
| Automata.LearningAutomaton.PredictLocalOperationPayoff | CorrelatedAutomata.py:486-504 | the loop computes the estimate over every record: the mean of the coincident payoffs, else Σ payoff/d² / max(Σ 1/d², EPSILON) |
| Automata.LearningAutomaton.PredictMixedChoicePayoff | CorrelatedAutomata.py:506-526 | the loop computes the estimate over the records under the current observable, with the local-operation prefix distance added |
| Automata.LearningAutomaton.SelectLocalOperation | CorrelatedAutomata.py:537-540 | the loop over the candidates returns BestLocalOperation, the first best |
| Automata.LearningAutomaton.SelectMixedChoice | CorrelatedAutomata.py:555-558 | the loop over the candidates returns BestMixedChoice, the first best |
| Automata.LearningAutomaton.Operate | CorrelatedAutomata.py:528-542 | only the prefix of length P changes, to the first best candidate; exactly that prefix is passed to the correlation, whose own slot alone changes |
| Automata.LearningAutomaton.Place | CorrelatedAutomata.py:553-556 | `_Strategy[a:b] = block` on the current observable's block: the strategy becomes the splice and the automaton stays well formed |
| Automata.LearningAutomaton.SelectClimbedBlock | CorrelatedAutomata.py:555-558 | the max() over the candidates around the observable's block is the block ClimbedFrom names, with C entries |
| Automata.LearningAutomaton.Distribute | CorrelatedAutomata.py:559 | normalize_to_one of the absolute block values: C non-negative entries summing to 1, and the climb is complete |
| Automata.LearningAutomaton.ClimbBlock | CorrelatedAutomata.py:553-558 | only the block of the observable changes, to the first best candidate; the result has C non-negative entries with absolute sum 1 |
| Automata.LearningAutomaton.Choose | CorrelatedAutomata.py:544-562 | reads the observable (an unknown or unobserved agent fails and changes nothing); no choices fails; otherwise the strategy keeps its length and the result is a distribution over the C choices |
| Automata.LearningAutomaton.Play | CorrelatedAutomata.py:570-575 | the record Remember appends: the observable below R, the P-prefix and the C-block of that observable |
| Automata.LearningAutomaton.Remember | CorrelatedAutomata.py:564-579 | appends the record, keeps the last MemorySize records, adds the payoff to the total and counts one more play; without a prior Choose it fails (AttributeError) |
| Automata.LearningAutomaton.MeanPayoff | CorrelatedAutomata.py:581-585 | 0 before any play, else mean × played = total |
| Games.Descend | CorrelatedAutomata.py:632-633 | indexing by the empty path leaves the game as it is |
| Games.DescendAppend | CorrelatedAutomata.py:632-633 | indexing by path + [k] is indexing by the path and then by k; a failure on the way is kept |
| Games.NestLengths | CorrelatedAutomata.py:606-609 | the lengths along the first children, each at least 1; an empty list fails |
| Games.Replicated | CorrelatedAutomata.py:61 | the lambda `u` makes a list of every node: n copies for a number, one child per child for a list |
| Games.Coordinated | CorrelatedAutomata.py:50-62 | succeeds exactly when the nesting can be measured (no empty list on the first-child path), and then adds one nest level whose length is the depth N |
| Games.ReplicatedShape | CorrelatedAutomata.py:61-62 | Coordinated keeps every list with its length, and each number becomes a list of n copies |
| Games.ReplicatedLeaf | CorrelatedAutomata.py:61 | every copy of a leaf is the original number |
| Games.NestLengthsReplicated | CorrelatedAutomata.py:56-62 | replication adds one level of length n below the original nest lengths |
| Games.CoordinatedIsPlayable | CorrelatedAutomata.py:50-62 | a coordinated game of depth N is a game without types for N players whose choices are the original nest lengths |
| Games.InferShape | CorrelatedAutomata.py:606-620 | N is the last nest length; depth N+1 gives types all 1 with the game wrapped N times and choices the first N lengths; depth 2N+1 splits types and choices; any other depth fails with MisdefinedGame(lengths); an empty list fails |
| Games.NonBayesianShape | CorrelatedAutomata.py:612-615 | a game without types is played through N extra levels of index 0 |
| Games.InferShapeStable | CorrelatedAutomata.py:612-618 | the wrapped game has the Bayesian shape and infers the same setup again |
| Games.AllTypes | CorrelatedAutomata.py:622 | `all_types(0)` has Π types_count combinations; which they are and their order are the two lemmas below |
| Games.AllTypesMembers | CorrelatedAutomata.py:622 | a sequence is listed exactly when it is a type combination (one index below each count) |
| Games.AllTypesSorted | CorrelatedAutomata.py:622 | the combinations are listed in strictly increasing lexicographic order, so without repetition |
| Games.AdversarialIndex | CorrelatedAutomata.py:627-628 | the `min()` over the type statistics with key -inf for untried combinations and mean payoff otherwise: a position no key is below, with every earlier key strictly above |
| Games.ArgMinFirst | CorrelatedAutomata.py:628 | `min()` picks an index no key is below, and every earlier key is above it |
| Games.AdversarialPrefersUntried | CorrelatedAutomata.py:627-628 | when a combination is untried, the pick is the first untried one (-inf key) |
| Games.AdversarialPicksLowestMean | CorrelatedAutomata.py:627-628 | when every combination has been tried, the pick has the lowest mean payoff and is the first with it |
| Games.Contract | CorrelatedAutomata.py:636-637 | ExpectedPayoffs: a contraction that succeeds over a non-empty first distribution descends a list with at least that many children (`pp[c]` never reads past the end) |
| Games.ContractShape | CorrelatedAutomata.py:636-637 | on a well-formed game with distributions of the right lengths, ExpectedPayoffs succeeds with one entry per player |
| Games.ContractPure | CorrelatedAutomata.py:636-637 | with one-hot distributions, ExpectedPayoffs is the payoff leaf at those choices |
| Playing.PopulationMean | CorrelatedAutomata.py:643 | the progress value: Σ MeanPayoff over every automaton divided by their number; 0 for no automata |
| Playing.SelectTypes | CorrelatedAutomata.py:626-630 | in adversarial mode with coin > 0.01 the combination at `AdversarialIndex` of types_stats (the first with the least mean payoff, untried ones first), otherwise the drawn one |
| Playing.IndexOf | CorrelatedAutomata.py:641-642 | the position of the round's combination in types_stats |
| Playing.ShapeCountsPositive | CorrelatedAutomata.py:606-620 | every inferred type and choice count is at least 1 |
| Playing.Tally | CorrelatedAutomata.py:641-642 | the round's combination gets its payoff sum added and one more play; the others are unchanged; total plays grow by 1 |
| Playing.Spawn | CorrelatedAutomata.py:621 | a new automaton with the given handle, memory size and learning rate (`Spawned`) registers under the next slot, starts with empty memory, an all-zero strategy, no plays and zero total; the existing ones stay valid and every handle stays distinct |
| Playing.Populate | CorrelatedAutomata.py:621 | one fresh automaton per player and type, in order, on the correlation with the player's choice count, each in its initial state; Σ types_count agents registered |
| Playing.OperateActive | CorrelatedAutomata.py:631 | on a prepared correlation it passes, and each active automaton's strategy becomes its old strategy with the local-operation prefix moved to the first best candidate; the automaton's slot of the correlation then holds that prefix (classical) or its `Unitary` (quantum) (`OperationsHeld`); the population stays well formed |
| Playing.ChooseActive | CorrelatedAutomata.py:633 | once every slot is observed and every choice count is at least 1 it succeeds; choices[i] is the distribution Choose climbs to for player i's active automaton from its old strategy and memory, with that player's choice count, non-negative and summing to 1 |
| Playing.RememberActive | CorrelatedAutomata.py:640 | passes when the payoffs have at least N entries and every active automaton has an observable; a shorter payoff vector fails (IndexError); then each active automaton's memory is Keep(old memory + [its record], MemorySize), with one more play and the payoff added to the total |
| Playing.Prepare | CorrelatedAutomata.py:626 | the correlation's Prepare (245-253, 289-304): the classical kind always passes, the quantum kind exactly when an agent is registered, and then every slot is prepared; classical: the register is the drawn one and every operation is the uniform 1/R vector; quantum: every matrix is the identity, and the state has R^n amplitudes, non-zero exactly at the indices whose n digits are all equal |
| Playing.Observe | CorrelatedAutomata.py:632 | on a prepared correlation, with a measured index below R^n for the quantum kind, Observe passes with one observable per slot; classical: slot k's observable is the first index maximising register[i]·\|operations[k][i]\|; quantum: the observables are the base-R digits of the measured index, least significant first |
| Playing.PlayActive | CorrelatedAutomata.py:631-640 | the round after the types are picked: on a playable game it succeeds; the payoffs are ExpectedPayoffs of the chosen sub-game; each active automaton has operated, chosen and remembered that round (PlayedRound), and its slot carries the round's signal for the local operation it computed (`SignalledFrom`): the slot holds that operation, and the observable it read is the first maximum of register[i]·\|operation[i]\| over the drawn register (classical) or its digit of the measured index (quantum) |
| Playing.RoundSignal | CorrelatedAutomata.py:631-633 | an automaton that has played the round on a signalled slot read, as its observable, the first maximum of the weights of its own local operation over the drawn register (classical), or its slot's digit of the measured index (quantum) |
| Playing.ObservedSignals | CorrelatedAutomata.py:275-285 | once every active slot holds its automaton's operation and the correlation is observed, every active slot carries the round's signal |
| Playing.RoundPayoffsShape | CorrelatedAutomata.py:634-637 | on a playable game, for any type combination and distributions of the choice counts, the payoffs exist with one entry per player |
| Playing.PlayRound | CorrelatedAutomata.py:626-640 | one round: on a playable game with fitting draws it succeeds; the combination is SelectTypes's and a type combination; the choices are distributions; the payoffs are ExpectedPayoffs of the chosen sub-game with at least N entries; each active automaton has played the round (Operate, then Choose from the operated strategy, then Remember of its component) and its slot carries the round's signal for the local operation it computed (`SignalledFrom`); every other automaton is unchanged |
| Playing.AddRow | CorrelatedAutomata.py:621 | one more player's row of fresh automata, registered under the next types_count handles |
| Playing.TallyRound | CorrelatedAutomata.py:626-643 | one pass of the loop body: on a playable game it succeeds, types_stats gains one play, and the progress value is PopulationMean of the automata after the round |
| Playing.PlayRounds | CorrelatedAutomata.py:623-645 | on a playable game every round succeeds; the population stays well formed; one progress value is appended per round and the last is the population mean after the last round |
| Playing.Play | CorrelatedAutomata.py:587-645 | a shape error is returned with nothing registered; a playable game succeeds; then Σ types_count agents are registered and one progress value per iteration is returned |

## Left out

- `Unitary` is not modelled. It uses complex exponentials and trigonometry. A quantum local operation stores `Unitary(parameters)` as an uninterpreted matrix value.
- The quantum `Observe` tensor contraction and its probabilities are not modelled (`CorrelatedAutomata.py:334-344`). They are complex floating-point work. The measured index is an input, and only its digit decomposition is modelled. The contraction loop pairs slot `a` with digit `n-1-a`, while the observables give slot k digit k. The model states the observables as written and says nothing about the contraction.
- `RandomBasis` and every `random.*` call are not modelled. Their results are inputs: bases, register draw, measured index, coin and drawn types. `DrawsFit` states what those sources can return, including that the quantum measurement is an index below R^n, as `WeightedChoice` over R^n probabilities returns.
- `id(self)` is replaced by explicit integer handles. `Play` requires them distinct and unregistered.
- Floating point is modelled as exact `real` arithmetic. Rounding is not modelled.
- `test_unitary`, `test_correlations` and `chsh.py` are demonstrations and a driver, and are not modelled.
- Convergence of the learning and Bell-inequality violations are statistical claims, not properties of single runs, and are not modelled.
- Playing.PlayRounds states the last progress value as `PopulationMean`; each earlier value is stated by `TallyRound` for its own round and is not restated about the final list.
- Playing.Play states how many progress values there are; their values are stated by `PlayRounds`, because the automata are local to `Play`.
- Playing.PopulationMean returns 0 for an empty population, where Python divides by zero; `play` always has at least one automaton.
- Numeric.WeightedChoice requires the draw to lie in [0, Σw], as `random.uniform(0, sum(weights))` returns. With negative weights in Python, the bounds can be swapped.
- Correlations.Correlation.constructor requires RegisterSize ≥ 1. With R = 0 the Python code fails later on `max()` of an empty range or on `0**-0.5`.
