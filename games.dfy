/**
 * The pure side of `play` and `Coordinated` in CorrelatedAutomata.py: a game
 * is a nested list whose deepest lists are payoff vectors, one payoff per
 * player. This module infers a game's shape from its nesting, lists the type
 * combinations, picks the adversarial one, and contracts the payoff tensor
 * against the players' mixed strategies.
 */
module Games {
  import opened Wrappers
  import opened Numeric

  /** A Python number, or a list of nested lists and numbers. */
  datatype Tree = Leaf(value: real) | Node(children: seq<Tree>)

  /** game[p0][p1]...: the subtree at a path of indices. */
  function Descend(game: Tree, path: seq<nat>): (r: Result<Tree>)
    ensures path == [] ==> r == Ok(game)
  {
    if path == [] then Ok(game)
    else match game
      case Leaf(_) => Err(MalformedGame)
      case Node(children) =>
        if path[0] < |children| then Descend(children[path[0]], path[1..]) else Err(MalformedGame)
  }

  /**
   * The lengths met while descending through the first elements until a
   * number is reached. An empty list on the way raises an IndexError.
   */
  function NestLengths(game: Tree): (r: Result<seq<nat>>)
    ensures r.Ok? ==> forall i | 0 <= i < |r.value| :: r.value[i] >= 1
    ensures r.Err? ==> r.error == EmptyNesting
  {
    match game
    case Leaf(_) => Ok([])
    case Node(children) =>
      if children == [] then Err(EmptyNesting)
      else match NestLengths(children[0])
        case Err(e) => Err(e)
        case Ok(lengths) => Ok([|children|] + lengths)
  }

  // ---------------------------------------------------------------------
  // Coordinated
  // ---------------------------------------------------------------------

  /** The inner lambda u of Coordinated: every number x becomes the list [x]*n. */
  function Replicated(game: Tree, n: nat): (r: Tree)
    ensures r.Node?
    ensures game.Leaf? ==> |r.children| == n
    ensures game.Node? ==> |r.children| == |game.children|
  {
    match game
    case Leaf(x) => Node(seq(n, _ => Leaf(x)))
    case Node(children) => Node(seq(|children|, k requires 0 <= k < |children| => Replicated(children[k], n)))
  }

  /**
   * Coordinated: the common-payoff game as an N-player game, N being the
   * nesting depth along the first elements.
   */
  function Coordinated(game: Tree): (r: Result<Tree>)
    ensures r.Ok? <==> NestLengths(game).Ok?
    ensures r.Ok? && NestLengths(game).value != [] ==>
              NestLengths(r.value) == Ok(NestLengths(game).value + [|NestLengths(game).value|])
  {
    match NestLengths(game)
    case Err(e) => Err(e)
    case Ok(lengths) =>
      if lengths != [] then NestLengthsReplicated(game, |lengths|); Ok(Replicated(game, |lengths|))
      else Ok(Replicated(game, |lengths|))
  }

  /**
   * Replication keeps the shape: every list is still there with the same
   * length, and every number x is now a list of n copies of x.
   */
  lemma {:induction false} ReplicatedShape(game: Tree, n: nat, path: seq<nat>)
    ensures Descend(game, path).Ok? && Descend(game, path).value.Leaf? ==>
              Descend(Replicated(game, n), path) == Ok(Node(seq(n, _ => Descend(game, path).value)))
    ensures Descend(game, path).Ok? && Descend(game, path).value.Node? ==>
              && Descend(Replicated(game, n), path).Ok?
              && Descend(Replicated(game, n), path).value.Node?
              && |Descend(Replicated(game, n), path).value.children| == |Descend(game, path).value.children|
  {
    if path != [] {
      match game
      case Leaf(x) =>
        assert Descend(game, path) == Err(MalformedGame);
      case Node(children) =>
        if path[0] < |children| {
          ReplicatedShape(children[path[0]], n, path[1..]);
        }
    }
  }

  /** Every number x of the game reappears n times, one level deeper. */
  lemma ReplicatedLeaf(game: Tree, n: nat, path: seq<nat>, k: nat)
    requires Descend(game, path).Ok? && Descend(game, path).value.Leaf?
    requires k < n
    ensures Descend(Replicated(game, n), path + [k]) == Descend(game, path)
  {
    ReplicatedShape(game, n, path);
    DescendAppend(Replicated(game, n), path, k);
  }

  /** One more index after a path descends into the list the path reaches. */
  lemma {:induction false} DescendAppend(game: Tree, path: seq<nat>, k: nat)
    ensures Descend(game, path + [k]) ==
              match Descend(game, path)
              case Err(e) => Err(e)
              case Ok(t) => Descend(t, [k])
  {
    if path == [] {
      assert path + [k] == [k];
    } else {
      match game
      case Leaf(_) =>
      case Node(children) =>
        assert (path + [k])[0] == path[0] && (path + [k])[1..] == path[1..] + [k];
        if path[0] < |children| {
          DescendAppend(children[path[0]], path[1..], k);
        }
    }
  }

  /** Replicating adds one last level, of length n, to the nest lengths. */
  lemma {:induction false} NestLengthsReplicated(game: Tree, n: nat)
    requires n >= 1
    ensures NestLengths(Replicated(game, n)) ==
              match NestLengths(game)
              case Err(e) => Err(e)
              case Ok(lengths) => Ok(lengths + [n])
  {
    match game
    case Leaf(x) =>
      var copies := Replicated(game, n);
      assert copies.children == seq(n, _ => Leaf(x));
      assert copies.children[0] == Leaf(x);
      assert NestLengths(copies) == Ok([n] + []);
      var none: seq<nat> := [];
      assert [n] + none == none + [n];
    case Node(children) =>
      if children != [] {
        NestLengthsReplicated(children[0], n);
        assert Replicated(game, n).children[0] == Replicated(children[0], n);
        match NestLengths(children[0])
        case Err(_) =>
        case Ok(lengths) =>
          assert [|children|] + (lengths + [n]) == ([|children|] + lengths) + [n];
      }
  }

  // ---------------------------------------------------------------------
  // The shape play infers
  // ---------------------------------------------------------------------

  /**
   * What play works with: the game in its Bayesian form (types first, then
   * choices), the number of players, and each player's number of types and
   * of choices.
   */
  datatype Setup = Setup(game: Tree, players: nat, typesCount: seq<nat>, choicesCount: seq<nat>)

  /** for _ in range(k): Game = [Game] */
  function Wrap(game: Tree, k: nat): Tree
  {
    if k == 0 then game else Node([Wrap(game, k - 1)])
  }

  function Ones(k: nat): (ones: seq<nat>)
    ensures |ones| == k && forall i | 0 <= i < k :: ones[i] == 1
  {
    seq(k, _ => 1)
  }

  /** N = the length of the payoff vectors, the last of the nest lengths. */
  function Players(lengths: seq<nat>): nat
    requires lengths != []
  {
    lengths[|lengths| - 1]
  }

  /**
   * The shape inference of play: with N players a depth of N + 1 is a game
   * without types (each player gets one type, and the game is wrapped N
   * times), a depth of 2N + 1 a Bayesian game; any other depth is an error.
   */
  function InferShape(game: Tree): (r: Result<Setup>)
    ensures NestLengths(game).Err? || NestLengths(game) == Ok([]) ==> r == Err(EmptyNesting)
    ensures r.Ok? <==>
              && NestLengths(game).Ok? && NestLengths(game).value != []
              && var lengths := NestLengths(game).value;
                 |lengths| == Players(lengths) + 1 || |lengths| == 2 * Players(lengths) + 1
    ensures r.Err? && NestLengths(game).Ok? && NestLengths(game).value != [] ==>
              r == Err(MisdefinedGame(NestLengths(game).value))
    ensures r.Ok? ==>
              && r.value.players >= 1
              && |r.value.typesCount| == r.value.players && |r.value.choicesCount| == r.value.players
              && NestLengths(r.value.game) == Ok(r.value.typesCount + r.value.choicesCount + [r.value.players])
  {
    match NestLengths(game)
    case Err(e) => Err(e)
    case Ok(lengths) =>
      if lengths == [] then Err(EmptyNesting)
      else
        var n := Players(lengths);
        if |lengths| == n + 1 then
          NestLengthsWrap(game, n);
          assert lengths[..n] + [n] == lengths;
          assert Ones(n) + lengths == Ones(n) + lengths[..n] + [n];
          Ok(Setup(Wrap(game, n), n, Ones(n), lengths[..n]))
        else if |lengths| == 2 * n + 1 then
          assert lengths[..n] + lengths[n..2 * n] + [n] == lengths;
          Ok(Setup(game, n, lengths[..n], lengths[n..2 * n]))
        else
          Err(MisdefinedGame(lengths))
  }

  /** Each wrapping adds a leading list of length one. */
  lemma {:induction false} NestLengthsWrap(game: Tree, k: nat)
    ensures NestLengths(Wrap(game, k)) ==
              match NestLengths(game)
              case Err(e) => Err(e)
              case Ok(lengths) => Ok(Ones(k) + lengths)
  {
    if k > 0 {
      NestLengthsWrap(game, k - 1);
      assert Wrap(game, k) == Node([Wrap(game, k - 1)]);
      match NestLengths(game)
      case Err(_) =>
      case Ok(lengths) =>
        assert NestLengths(Wrap(game, k)) == Ok([1] + (Ones(k - 1) + lengths));
        assert [1] + (Ones(k - 1) + lengths) == Ones(k) + lengths;
    } else {
      match NestLengths(game)
      case Err(_) =>
      case Ok(lengths) =>
        assert Ones(0) + lengths == lengths;
    }
  }

  /** Under the k wrapping lists, type 0 of every player leads back to the game. */
  lemma {:induction false} DescendWrap(game: Tree, k: nat, path: seq<nat>)
    ensures Descend(Wrap(game, k), seq(k, _ => 0) + path) == Descend(game, path)
  {
    if k > 0 {
      var zeros := seq(k, _ => 0);
      assert (zeros + path)[0] == 0;
      assert (zeros + path)[1..] == seq(k - 1, _ => 0) + path;
      DescendWrap(game, k - 1, path);
    } else {
      assert seq(k, _ => 0) + path == path;
    }
  }

  /** The Bayesian form play builds is itself a game of the same shape. */
  lemma InferShapeStable(game: Tree)
    requires InferShape(game).Ok?
    ensures InferShape(InferShape(game).value.game) == InferShape(game)
  {
    var s := InferShape(game).value;
    var lengths := s.typesCount + s.choicesCount + [s.players];
    var n := s.players;
    assert Players(lengths) == n && |lengths| == 2 * n + 1;
    assert lengths[..n] == s.typesCount;
    assert lengths[n..2 * n] == s.choicesCount;
  }

  /** A game without types: every player has one type, and type 0 leads back to the game itself. */
  lemma NonBayesianShape(game: Tree)
    requires NestLengths(game).Ok? && NestLengths(game).value != []
    requires |NestLengths(game).value| == Players(NestLengths(game).value) + 1
    ensures InferShape(game).Ok?
    ensures var s := InferShape(game).value;
            && s.typesCount == Ones(s.players)
            && s.choicesCount == NestLengths(game).value[..s.players]
            && forall path :: Descend(s.game, seq(s.players, _ => 0) + path) == Descend(game, path)
  {
    var s := InferShape(game).value;
    forall path ensures Descend(s.game, seq(s.players, _ => 0) + path) == Descend(game, path) {
      DescendWrap(game, s.players, path);
    }
  }

  /**
   * Coordinated turns a common-payoff game of depth N >= 1 into a game
   * without types for N players, whose choices are the original nest lengths.
   */
  lemma CoordinatedIsPlayable(game: Tree)
    requires NestLengths(game).Ok? && NestLengths(game).value != []
    ensures Coordinated(game).Ok?
    ensures var depth := |NestLengths(game).value|;
            && InferShape(Coordinated(game).value).Ok?
            && InferShape(Coordinated(game).value).value.players == depth
            && InferShape(Coordinated(game).value).value.typesCount == Ones(depth)
            && InferShape(Coordinated(game).value).value.choicesCount == NestLengths(game).value
  {
    var lengths := NestLengths(game).value;
    var depth := |lengths|;
    NestLengthsReplicated(game, depth);
    var all := lengths + [depth];
    assert Players(all) == depth && |all| == depth + 1;
    assert all[..depth] == lengths;
  }

  // ---------------------------------------------------------------------
  // all_types: the type combinations in lexicographic order
  // ---------------------------------------------------------------------

  /** The tuples (a,)+b for a in range(n) for b in rest, in that order. */
  function Prefixed(n: nat, rest: seq<seq<nat>>): seq<seq<nat>>
  {
    if n == 0 then []
    else Prefixed(n - 1, rest) + seq(|rest|, k requires 0 <= k < |rest| => [n - 1] + rest[k])
  }

  /** all_types(0) for the given types counts: there are as many combinations as their product. */
  function AllTypes(counts: seq<nat>): (r: seq<seq<nat>>)
    requires |counts| >= 1
    ensures |r| == Product(counts)
    decreases |counts|
  {
    if |counts| == 1 then
      assert Product(counts[1..]) == 1;
      seq(counts[0], a => [a])
    else
      var rest := AllTypes(counts[1..]);
      PrefixedCount(counts[0], rest);
      Prefixed(counts[0], rest)
  }

  /** One type per player, each below that player's number of types. */
  ghost predicate IsTypeCombination(t: seq<nat>, counts: seq<nat>)
  {
    |t| == |counts| && forall i | 0 <= i < |t| :: t[i] < counts[i]
  }

  /** Python's tuple order. */
  predicate LexLess(x: seq<nat>, y: seq<nat>)
  {
    x != [] && y != [] && (x[0] < y[0] || (x[0] == y[0] && LexLess(x[1..], y[1..])))
  }

  ghost predicate StrictlySorted(ts: seq<seq<nat>>)
  {
    forall i, j | 0 <= i < j < |ts| :: LexLess(ts[i], ts[j])
  }

  lemma {:induction false} PrefixedMembers(n: nat, rest: seq<seq<nat>>, t: seq<nat>)
    ensures t in Prefixed(n, rest) <==> |t| >= 1 && t[0] < n && t[1..] in rest
  {
    if n > 0 {
      PrefixedMembers(n - 1, rest, t);
      var block := seq(|rest|, k requires 0 <= k < |rest| => [n - 1] + rest[k]);
      if t in block {
        var k :| 0 <= k < |rest| && block[k] == t;
        assert t[1..] == rest[k];
      }
      if |t| >= 1 && t[0] == n - 1 && t[1..] in rest {
        var k :| 0 <= k < |rest| && rest[k] == t[1..];
        assert block[k] == t;
      }
    }
  }

  /** all_types lists exactly the type combinations. */
  lemma {:induction false} AllTypesMembers(counts: seq<nat>, t: seq<nat>)
    requires |counts| >= 1
    ensures t in AllTypes(counts) <==> IsTypeCombination(t, counts)
    decreases |counts|
  {
    if |counts| == 1 {
      if t in AllTypes(counts) {
        var a :| 0 <= a < counts[0] && AllTypes(counts)[a] == t;
      }
      if IsTypeCombination(t, counts) {
        assert AllTypes(counts)[t[0]] == [t[0]] == t;
      }
    } else {
      PrefixedMembers(counts[0], AllTypes(counts[1..]), t);
      if |t| >= 1 {
        AllTypesMembers(counts[1..], t[1..]);
        if IsTypeCombination(t[1..], counts[1..]) && t[0] < counts[0] {
          forall i | 0 <= i < |t| ensures t[i] < counts[i] {
            if i > 0 { assert t[i] == t[1..][i - 1]; }
          }
        }
        if IsTypeCombination(t, counts) {
          forall i | 0 <= i < |t| - 1 ensures t[1..][i] < counts[1..][i] {
            assert t[1..][i] == t[i + 1];
          }
        }
      }
    }
  }

  lemma {:induction false} PrefixedSorted(n: nat, rest: seq<seq<nat>>)
    requires StrictlySorted(rest)
    ensures StrictlySorted(Prefixed(n, rest))
  {
    if n > 0 {
      PrefixedSorted(n - 1, rest);
      var front := Prefixed(n - 1, rest);
      var block := seq(|rest|, k requires 0 <= k < |rest| => [n - 1] + rest[k]);
      var all := front + block;
      forall i, j | 0 <= i < j < |all| ensures LexLess(all[i], all[j]) {
        if j < |front| {
          assert all[i] == front[i] && all[j] == front[j];
        } else if |front| <= i {
          var a, b := i - |front|, j - |front|;
          assert all[i] == block[a] && all[j] == block[b];
          assert block[a][1..] == rest[a] && block[b][1..] == rest[b];
        } else {
          assert all[i] == front[i] && front[i] in front;
          PrefixedMembers(n - 1, rest, front[i]);
          assert all[j] == block[j - |front|];
        }
      }
    }
  }

  /**
   * all_types lists the combinations in strictly increasing tuple order,
   * so each appears once and the dictionary built from it iterates in
   * that order.
   */
  lemma {:induction false} AllTypesSorted(counts: seq<nat>)
    requires |counts| >= 1
    ensures StrictlySorted(AllTypes(counts))
    decreases |counts|
  {
    if |counts| == 1 {
      var ts := AllTypes(counts);
      forall i, j | 0 <= i < j < |ts| ensures LexLess(ts[i], ts[j]) {
        assert ts[i] == [i] && ts[j] == [j];
      }
    } else {
      AllTypesSorted(counts[1..]);
      PrefixedSorted(counts[0], AllTypes(counts[1..]));
    }
  }

  function Product(counts: seq<nat>): nat
  {
    if counts == [] then 1 else counts[0] * Product(counts[1..])
  }

  lemma {:induction false} PrefixedCount(n: nat, rest: seq<seq<nat>>)
    ensures |Prefixed(n, rest)| == n * |rest|
  {
    if n > 0 {
      PrefixedCount(n - 1, rest);
      assert n * |rest| == (n - 1) * |rest| + |rest|;
    }
  }

  // ---------------------------------------------------------------------
  // Adversarial selection
  // ---------------------------------------------------------------------

  /** types_stats[t]: the total of the payoff sums and the number of plays. */
  datatype TypeStats = TypeStats(total: real, plays: nat)

  /** The key min() compares: -inf for an untried combination, else the mean. */
  datatype Key = NegInf | Finite(mean: real)

  function KeyOf(stats: TypeStats): Key
  {
    if stats.plays == 0 then NegInf else Finite(stats.total / stats.plays as real)
  }

  predicate KeyLess(a: Key, b: Key)
  {
    (a.NegInf? && b.Finite?) || (a.Finite? && b.Finite? && a.mean < b.mean)
  }

  /** Python's min(): the first key no other key is below. */
  function ArgMinFirst(keys: seq<Key>): (i: nat)
    requires |keys| >= 1
    ensures i < |keys|
    ensures forall j | 0 <= j < |keys| :: !KeyLess(keys[j], keys[i])
    ensures forall j | 0 <= j < i :: KeyLess(keys[i], keys[j])
  {
    if |keys| == 1 then 0
    else
      var k := ArgMinFirst(keys[..|keys| - 1]);
      if KeyLess(keys[|keys| - 1], keys[k]) then |keys| - 1 else k
  }

  /** The position, in all_types order, of the combination the adversary picks. */
  function AdversarialIndex(stats: seq<TypeStats>): (i: nat)
    requires |stats| >= 1
    ensures i < |stats|
    ensures forall j | 0 <= j < |stats| :: !KeyLess(KeyOf(stats[j]), KeyOf(stats[i]))
    ensures forall j | 0 <= j < i :: KeyLess(KeyOf(stats[i]), KeyOf(stats[j]))
  {
    var keys := seq(|stats|, k requires 0 <= k < |stats| => KeyOf(stats[k]));
    assert forall k | 0 <= k < |stats| :: keys[k] == KeyOf(stats[k]);
    ArgMinFirst(keys)
  }

  /** While some combination is untried, the adversary picks the first untried one. */
  lemma AdversarialPrefersUntried(stats: seq<TypeStats>, u: nat)
    requires u < |stats| && stats[u].plays == 0
    ensures var i := AdversarialIndex(stats);
            i <= u && stats[i].plays == 0 && forall j | 0 <= j < i :: stats[j].plays >= 1
  {
    var keys := seq(|stats|, i requires 0 <= i < |stats| => KeyOf(stats[i]));
    var i := AdversarialIndex(stats);
    assert !KeyLess(keys[u], keys[i]);
    forall j | 0 <= j < i ensures stats[j].plays >= 1 {
      assert KeyLess(keys[i], keys[j]);
    }
  }

  /** Once every combination was tried, the adversary picks the first one of lowest mean payoff. */
  lemma AdversarialPicksLowestMean(stats: seq<TypeStats>)
    requires |stats| >= 1
    requires forall j | 0 <= j < |stats| :: stats[j].plays >= 1
    ensures var i := AdversarialIndex(stats);
            && i < |stats|
            && (forall j | 0 <= j < |stats| ::
                  stats[i].total / stats[i].plays as real <= stats[j].total / stats[j].plays as real)
            && (forall j | 0 <= j < i ::
                  stats[i].total / stats[i].plays as real < stats[j].total / stats[j].plays as real)
  {
    var keys := seq(|stats|, i requires 0 <= i < |stats| => KeyOf(stats[i]));
    var i := AdversarialIndex(stats);
    forall j | 0 <= j < |stats|
      ensures stats[i].total / stats[i].plays as real <= stats[j].total / stats[j].plays as real
    {
      assert !KeyLess(keys[j], keys[i]);
    }
    forall j | 0 <= j < i
      ensures stats[i].total / stats[i].plays as real < stats[j].total / stats[j].plays as real
    {
      assert KeyLess(keys[i], keys[j]);
    }
  }

  // ---------------------------------------------------------------------
  // ExpectedPayoffs: the contraction against the mixed strategies
  // ---------------------------------------------------------------------

  /** [p*Pr for p in v] */
  function Scale(v: seq<real>, pr: real): (r: seq<real>)
    ensures |r| == |v|
  {
    seq(|v|, k requires 0 <= k < |v| => v[k] * pr)
  }

  /** The length of the shortest vector, where zip stops. */
  function MinLength(vs: seq<seq<real>>): (m: nat)
    requires |vs| >= 1
    ensures forall c | 0 <= c < |vs| :: m <= |vs[c]|
    ensures exists c | 0 <= c < |vs| :: m == |vs[c]|
  {
    if |vs| == 1 then |vs[0]|
    else
      var m := MinLength(vs[..|vs| - 1]);
      assert forall c | 0 <= c < |vs| - 1 :: vs[..|vs| - 1][c] == vs[c];
      if |vs[|vs| - 1]| < m then |vs[|vs| - 1]| else m
  }

  /** The k-th entries of all the vectors. */
  function Column(vs: seq<seq<real>>, k: nat): seq<real>
    requires forall c | 0 <= c < |vs| :: k < |vs[c]|
  {
    seq(|vs|, c requires 0 <= c < |vs| => vs[c][k])
  }

  /** map(sum, zip(*vs)) */
  function SumVectors(vs: seq<seq<real>>): (r: seq<real>)
  {
    if vs == [] then []
    else seq(MinLength(vs), k requires 0 <= k < MinLength(vs) => Sum(Column(vs, k)))
  }

  /** The payoff vector at the bottom of the game: a list of numbers. */
  function LeafVector(t: Tree): Result<seq<real>>
  {
    if t.Node? && forall k | 0 <= k < |t.children| :: t.children[k].Leaf? then
      Ok(seq(|t.children|, k requires 0 <= k < |t.children| => t.children[k].value))
    else Err(MalformedGame)
  }

  /** The payoff vector at a path of choices. */
  function PayoffAt(game: Tree, path: seq<nat>): Result<seq<real>>
  {
    match Descend(game, path)
    case Err(e) => Err(e)
    case Ok(t) => LeafVector(t)
  }

  /**
   * ExpectedPayoffs(i, pp): for player i, the sum over its choices c of
   * Pr[c] times the expected payoffs of pp[c] under the later players'
   * distributions; below the last player, the payoff vector itself.
   */
  function Contract(game: Tree, distributions: seq<seq<real>>): (r: Result<seq<real>>)
    ensures r.Ok? && distributions != [] && distributions[0] != [] ==>
              game.Node? && |distributions[0]| <= |game.children|
    decreases |distributions|
  {
    if distributions == [] then LeafVector(game)
    else if distributions[0] == [] then Ok([])
    else match game
      case Leaf(_) => Err(MalformedGame)
      case Node(children) =>
        var pr := distributions[0];
        if |children| < |pr| then Err(MalformedGame)
        else
          var parts := seq(|pr|, c requires 0 <= c < |pr| => Contract(children[c], distributions[1..]));
          if exists c | 0 <= c < |parts| :: parts[c].Err? then Err(MalformedGame)
          else Ok(SumVectors(seq(|parts|, c requires 0 <= c < |parts| => Scale(parts[c].value, pr[c]))))
  }

  /** A game tensor: lists of the given lengths, over payoff vectors of the given width. */
  ghost predicate Tensor(game: Tree, dims: seq<nat>, width: nat)
    decreases |dims|
  {
    && game.Node?
    && (dims == [] ==> |game.children| == width && forall k | 0 <= k < width :: game.children[k].Leaf?)
    && (dims != [] ==>
          && |game.children| == dims[0]
          && forall k | 0 <= k < dims[0] :: Tensor(game.children[k], dims[1..], width))
  }

  /** Distributions with as many entries as each player has choices. */
  ghost predicate Fits(distributions: seq<seq<real>>, dims: seq<nat>)
  {
    |distributions| == |dims| && forall i | 0 <= i < |dims| :: |distributions[i]| == dims[i] >= 1
  }

  lemma FitsTail(distributions: seq<seq<real>>, dims: seq<nat>)
    requires Fits(distributions, dims) && dims != []
    ensures Fits(distributions[1..], dims[1..])
  {
    forall i | 0 <= i < |dims| - 1 ensures |distributions[1..][i]| == dims[1..][i] >= 1 {
      assert distributions[1..][i] == distributions[i + 1] && dims[1..][i] == dims[i + 1];
    }
  }

  /** On a game tensor the contraction succeeds and yields one payoff per player. */
  lemma {:induction false} ContractShape(game: Tree, dims: seq<nat>, width: nat, distributions: seq<seq<real>>)
    requires Tensor(game, dims, width) && Fits(distributions, dims)
    ensures Contract(game, distributions).Ok? && |Contract(game, distributions).value| == width
    decreases |dims|
  {
    if dims != [] {
      FitsTail(distributions, dims);
      var pr := distributions[0];
      var parts := seq(|pr|, c requires 0 <= c < |pr| => Contract(game.children[c], distributions[1..]));
      forall c | 0 <= c < |parts| ensures parts[c].Ok? && |parts[c].value| == width {
        ContractShape(game.children[c], dims[1..], width, distributions[1..]);
      }
      var vs := seq(|parts|, c requires 0 <= c < |parts| => Scale(parts[c].value, pr[c]));
      assert |vs[0]| == width;
      assert MinLength(vs) == width;
    }
  }

  function OneHot(n: nat, choice: nat): seq<real>
  {
    seq(n, k => if k == choice then 1.0 else 0.0)
  }

  function OneHots(dims: seq<nat>, choices: seq<nat>): seq<seq<real>>
    requires |choices| == |dims|
  {
    seq(|dims|, i requires 0 <= i < |dims| => OneHot(dims[i], choices[i]))
  }

  lemma {:induction false} SumSingle(s: seq<real>, choice: nat)
    requires choice < |s|
    requires forall c | 0 <= c < |s| && c != choice :: s[c] == 0.0
    ensures Sum(s) == s[choice]
  {
    var init := s[..|s| - 1];
    if choice < |s| - 1 {
      SumSingle(init, choice);
    } else {
      SumZeros(init);
    }
  }

  lemma {:induction false} SumZeros(s: seq<real>)
    requires forall c | 0 <= c < |s| :: s[c] == 0.0
    ensures Sum(s) == 0.0
  {
    if s != [] {
      SumZeros(s[..|s| - 1]);
    }
  }

  /** Adding vectors of one width, all but one of them zero, gives that one. */
  lemma SumVectorsSingle(vs: seq<seq<real>>, width: nat, choice: nat)
    requires choice < |vs| && forall c | 0 <= c < |vs| :: |vs[c]| == width
    requires forall c, k | 0 <= c < |vs| && c != choice && 0 <= k < width :: vs[c][k] == 0.0
    ensures SumVectors(vs) == vs[choice]
  {
    assert MinLength(vs) == width;
    var sum := SumVectors(vs);
    forall k | 0 <= k < width ensures sum[k] == vs[choice][k] {
      SumSingle(Column(vs, k), choice);
    }
  }

  /**
   * One level of the contraction against a pure strategy: the weighted sum
   * keeps only the chosen child's expected payoffs.
   */
  lemma ContractPureStep(game: Tree, distributions: seq<seq<real>>, width: nat, choice: nat)
    requires distributions != [] && choice < |distributions[0]|
    requires distributions[0] == OneHot(|distributions[0]|, choice)
    requires game.Node? && |distributions[0]| <= |game.children|
    requires forall c | 0 <= c < |distributions[0]| ::
               Contract(game.children[c], distributions[1..]).Ok?
               && |Contract(game.children[c], distributions[1..]).value| == width
    ensures Contract(game, distributions) == Contract(game.children[choice], distributions[1..])
  {
    var pr := distributions[0];
    var parts := seq(|pr|, c requires 0 <= c < |pr| => Contract(game.children[c], distributions[1..]));
    assert !exists c | 0 <= c < |parts| :: parts[c].Err?;
    var vs := seq(|parts|, c requires 0 <= c < |parts| => Scale(parts[c].value, pr[c]));
    assert Contract(game, distributions) == Ok(SumVectors(vs));
    forall c, k | 0 <= c < |vs| && c != choice && 0 <= k < width ensures vs[c][k] == 0.0 {
      assert pr[c] == 0.0;
    }
    SumVectorsSingle(vs, width, choice);
    assert pr[choice] == 1.0;
    assert vs[choice] == parts[choice].value;
  }

  /**
   * With pure strategies (every distribution puts all its weight on one
   * choice) the expected payoffs are the payoff vector at those choices.
   */
  lemma {:induction false} ContractPure(game: Tree, dims: seq<nat>, width: nat, choices: seq<nat>)
    requires Tensor(game, dims, width)
    requires |choices| == |dims| && forall i | 0 <= i < |dims| :: choices[i] < dims[i]
    ensures PayoffAt(game, choices).Ok?
    ensures Contract(game, OneHots(dims, choices)) == PayoffAt(game, choices)
    decreases |dims|
  {
    var dists := OneHots(dims, choices);
    if dims == [] {
      assert dists == [];
    } else {
      assert Fits(dists, dims);
      FitsTail(dists, dims);
      var rest := dists[1..];
      assert rest == OneHots(dims[1..], choices[1..]);
      var ch := choices[0];
      ContractPure(game.children[ch], dims[1..], width, choices[1..]);
      forall c | 0 <= c < dims[0]
        ensures Contract(game.children[c], rest).Ok? && |Contract(game.children[c], rest).value| == width
      {
        ContractShape(game.children[c], dims[1..], width, rest);
      }
      ContractPureStep(game, dists, width, ch);
      assert PayoffAt(game, choices) == PayoffAt(game.children[ch], choices[1..]);
    }
  }
}
