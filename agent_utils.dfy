// Agent primitives of recsim/agents/agent_utils.py: the walker that applies a
// leaf operator to every Box and Discrete space in a Dict/Tuple space tree,
// and the two exploration rules over an enumeration of (slate, index) pairs.
module AgentUtils {
  import opened Basics
  import opened Spaces
  import opened Ranking

  // ---------------------------------------------------------------------
  // The space walker.
  // ---------------------------------------------------------------------

  /** A leaf operator: a flat list for a basic space and the observations of it. */
  type LeafOp<T> = (Space, seq<Value>) -> Result<seq<T>>

  /** One step into a container observation: a dict key or a tuple position. */
  datatype PathStep = KeyStep(key: string) | IndexStep(index: nat)

  type Path = seq<PathStep>

  /** `observation[key]` or `observation[i]`. */
  function Select(v: Value, step: PathStep): (r: Result<Value>)
    ensures step.KeyStep? ==> r == Field(v, step.key)
    ensures step.IndexStep? ==> r == Item(v, step.index)
  {
    match step
    case KeyStep(key) => Field(v, key)
    case IndexStep(i) => Item(v, i)
  }

  /** `[observation[step] for observation in observations]`: the first failure raises. */
  function SelectAll(obs: seq<Value>, step: PathStep): (r: Result<seq<Value>>)
    ensures r.Ok? <==> forall j :: 0 <= j < |obs| ==> Select(obs[j], step).Ok?
    ensures r.Ok? ==> |r.value| == |obs| && forall j :: 0 <= j < |obs| ==> Select(obs[j], step) == Ok(r.value[j])
  {
    if obs == [] then Ok([])
    else
      var v :- Select(obs[0], step);
      var rest :- SelectAll(obs[1..], step);
      Ok([v] + rest)
  }

  /**
   * `_descend_and_flatten`: the leaf operator's lists for the space's Box
   * and Discrete leaves, concatenated in the order of the Dict fields and
   * Tuple positions; NotImplementedError at any other space kind.
   */
  function Walk<T>(space: Space, obs: seq<Value>, leaf: LeafOp<T>): (r: Result<seq<T>>)
    ensures (space.Box? || space.Discrete?) ==> r == leaf(space, obs)
    ensures (space.MultiBinary? || space.MultiDiscrete?) ==> r == Err(NotImplementedError)
    decreases space, 1, 0
  {
    match space
    case DictSpace(fields) => WalkFields(space, 0, obs, leaf)
    case TupleSpace(parts) => WalkParts(space, 0, obs, leaf)
    case Box(_, _, _) => leaf(space, obs)
    case Discrete(_) => leaf(space, obs)
    case _ => Err(NotImplementedError)
  }

  /** The Dict fields from the `i`-th on. */
  function WalkFields<T>(space: Space, i: nat, obs: seq<Value>, leaf: LeafOp<T>): (r: Result<seq<T>>)
    requires space.DictSpace? && i <= |space.fields|
    decreases space, 0, |space.fields| - i
  {
    if i == |space.fields| then Ok([])
    else
      assert space.fields[i] in space.fields;
      var sub :- SelectAll(obs, KeyStep(space.fields[i].0));
      var head :- Walk(space.fields[i].1, sub, leaf);
      var rest :- WalkFields(space, i + 1, obs, leaf);
      Ok(head + rest)
  }

  /** The Tuple positions from the `i`-th on. */
  function WalkParts<T>(space: Space, i: nat, obs: seq<Value>, leaf: LeafOp<T>): (r: Result<seq<T>>)
    requires space.TupleSpace? && i <= |space.parts|
    decreases space, 0, |space.parts| - i
  {
    if i == |space.parts| then Ok([])
    else
      assert space.parts[i] in space.parts;
      var sub :- SelectAll(obs, IndexStep(i));
      var head :- Walk(space.parts[i], sub, leaf);
      var rest :- WalkParts(space, i + 1, obs, leaf);
      Ok(head + rest)
  }

  /** `GymSpaceWalker(gym_space, leaf_op)`. */
  datatype SpaceWalker<T> = SpaceWalker(space: Space, leafOp: LeafOp<T>)
  {
    function ApplyAndFlatten(obs: seq<Value>): (r: Result<seq<T>>)
      ensures r.Ok? ==> Leaves(space).Some? && r == Applied(obs, Leaves(space).value, leafOp)
    {
      WalkIsApplied(space, obs, leafOp);
      Walk(space, obs, leafOp)
    }
  }

  /** Every path in `leaves`, behind one more step. */
  function Prefixed(step: PathStep, leaves: seq<(Path, Space)>): (r: seq<(Path, Space)>)
    ensures |r| == |leaves|
  {
    if leaves == [] then [] else [([step] + leaves[0].0, leaves[0].1)] + Prefixed(step, leaves[1..])
  }

  /**
   * The basic spaces of a space tree with the path to each, in traversal
   * order; nothing when the tree holds a space kind the walker does not
   * handle.
   */
  function Leaves(space: Space): Option<seq<(Path, Space)>>
    decreases space, 1, 0
  {
    match space
    case DictSpace(fields) => FieldLeaves(space, 0)
    case TupleSpace(parts) => PartLeaves(space, 0)
    case Box(_, _, _) => Some([([], space)])
    case Discrete(_) => Some([([], space)])
    case _ => None
  }

  function FieldLeaves(space: Space, i: nat): Option<seq<(Path, Space)>>
    requires space.DictSpace? && i <= |space.fields|
    decreases space, 0, |space.fields| - i
  {
    if i == |space.fields| then Some([])
    else
      assert space.fields[i] in space.fields;
      var head := Leaves(space.fields[i].1);
      var rest := FieldLeaves(space, i + 1);
      if head.None? || rest.None? then None
      else Some(Prefixed(KeyStep(space.fields[i].0), head.value) + rest.value)
  }

  function PartLeaves(space: Space, i: nat): Option<seq<(Path, Space)>>
    requires space.TupleSpace? && i <= |space.parts|
    decreases space, 0, |space.parts| - i
  {
    if i == |space.parts| then Some([])
    else
      assert space.parts[i] in space.parts;
      var head := Leaves(space.parts[i]);
      var rest := PartLeaves(space, i + 1);
      if head.None? || rest.None? then None
      else Some(Prefixed(IndexStep(i), head.value) + rest.value)
  }

  /** The observations' values at the end of a path. */
  function FollowAll(obs: seq<Value>, path: Path): Result<seq<Value>>
    decreases path
  {
    if path == [] then Ok(obs)
    else
      var next :- SelectAll(obs, path[0]);
      FollowAll(next, path[1..])
  }

  /** The leaf operator applied at one leaf, to the observations' values there. */
  function AppliedAt<T>(obs: seq<Value>, at: (Path, Space), leaf: LeafOp<T>): Result<seq<T>>
  {
    var vs :- FollowAll(obs, at.0);
    leaf(at.1, vs)
  }

  /** The leaf operator applied at every leaf, its lists concatenated in order. */
  function Applied<T>(obs: seq<Value>, leaves: seq<(Path, Space)>, leaf: LeafOp<T>): Result<seq<T>>
  {
    if leaves == [] then Ok([])
    else
      var out :- AppliedAt(obs, leaves[0], leaf);
      var rest :- Applied(obs, leaves[1..], leaf);
      Ok(out + rest)
  }

  lemma {:induction false} AppliedAppend<T>(obs: seq<Value>, a: seq<(Path, Space)>, b: seq<(Path, Space)>, leaf: LeafOp<T>)
    requires Applied(obs, a, leaf).Ok? && Applied(obs, b, leaf).Ok?
    ensures Applied(obs, a + b, leaf) == Ok(Applied(obs, a, leaf).value + Applied(obs, b, leaf).value)
  {
    var y := Applied(obs, b, leaf).value;
    if a == [] {
      assert a + b == b && [] + y == y;
    } else {
      assert (a + b)[0] == a[0] && (a + b)[1..] == a[1..] + b;
      AppliedAppend(obs, a[1..], b, leaf);
      var out := AppliedAt(obs, a[0], leaf).value;
      var x := Applied(obs, a[1..], leaf).value;
      assert out + (x + y) == (out + x) + y;
    }
  }

  lemma {:induction false} AppliedPrefixed<T>(obs: seq<Value>, step: PathStep, sub: seq<Value>, leaves: seq<(Path, Space)>, leaf: LeafOp<T>)
    requires SelectAll(obs, step) == Ok(sub)
    ensures Applied(obs, Prefixed(step, leaves), leaf) == Applied(sub, leaves, leaf)
  {
    if leaves != [] {
      var p := [step] + leaves[0].0;
      assert p[0] == step && p[1..] == leaves[0].0;
      AppliedPrefixed(obs, step, sub, leaves[1..], leaf);
    }
  }

  /**
   * A walk that succeeds applies the leaf operator at every leaf of the
   * space, to the observations' values there, and concatenates the lists
   * in traversal order.
   */
  lemma {:induction false} WalkIsApplied<T>(space: Space, obs: seq<Value>, leaf: LeafOp<T>)
    ensures Walk(space, obs, leaf).Ok? ==>
      Leaves(space).Some? && Applied(obs, Leaves(space).value, leaf) == Walk(space, obs, leaf)
    decreases space, 1, 0
  {
    match space
    case DictSpace(fields) => WalkFieldsIsApplied(space, 0, obs, leaf);
    case TupleSpace(parts) => WalkPartsIsApplied(space, 0, obs, leaf);
    case Box(_, _, _) =>
      var r := leaf(space, obs);
      if r.Ok? {
        assert r.value + [] == r.value;
      }
    case Discrete(_) =>
      var r := leaf(space, obs);
      if r.Ok? {
        assert r.value + [] == r.value;
      }
    case _ =>
  }

  lemma {:induction false} WalkFieldsIsApplied<T>(space: Space, i: nat, obs: seq<Value>, leaf: LeafOp<T>)
    requires space.DictSpace? && i <= |space.fields|
    ensures WalkFields(space, i, obs, leaf).Ok? ==>
      FieldLeaves(space, i).Some? && Applied(obs, FieldLeaves(space, i).value, leaf) == WalkFields(space, i, obs, leaf)
    decreases space, 0, |space.fields| - i
  {
    if i < |space.fields| && WalkFields(space, i, obs, leaf).Ok? {
      assert space.fields[i] in space.fields;
      var step := KeyStep(space.fields[i].0);
      var sub := SelectAll(obs, step).value;
      WalkIsApplied(space.fields[i].1, sub, leaf);
      WalkFieldsIsApplied(space, i + 1, obs, leaf);
      AppliedPrefixed(obs, step, sub, Leaves(space.fields[i].1).value, leaf);
      AppliedAppend(obs, Prefixed(step, Leaves(space.fields[i].1).value), FieldLeaves(space, i + 1).value, leaf);
    }
  }

  lemma {:induction false} WalkPartsIsApplied<T>(space: Space, i: nat, obs: seq<Value>, leaf: LeafOp<T>)
    requires space.TupleSpace? && i <= |space.parts|
    ensures WalkParts(space, i, obs, leaf).Ok? ==>
      PartLeaves(space, i).Some? && Applied(obs, PartLeaves(space, i).value, leaf) == WalkParts(space, i, obs, leaf)
    decreases space, 0, |space.parts| - i
  {
    if i < |space.parts| && WalkParts(space, i, obs, leaf).Ok? {
      assert space.parts[i] in space.parts;
      var step := IndexStep(i);
      var sub := SelectAll(obs, step).value;
      WalkIsApplied(space.parts[i], sub, leaf);
      WalkPartsIsApplied(space, i + 1, obs, leaf);
      AppliedPrefixed(obs, step, sub, Leaves(space.parts[i]).value, leaf);
      AppliedAppend(obs, Prefixed(step, Leaves(space.parts[i]).value), PartLeaves(space, i + 1).value, leaf);
    }
  }

  // ---------------------------------------------------------------------
  // Exploration over an enumeration of (slate, index) pairs.
  // ---------------------------------------------------------------------

  /** `counts_function.get(index, 0)`. */
  function CountOf<K>(counts: map<K, int>, k: K): int
  {
    if k in counts then counts[k] else 0
  }

  /** The counts of the enumerated pairs, in order. */
  function PairCounts<K>(pairs: seq<(seq<int>, K)>, counts: map<K, int>): (cs: seq<int>)
    ensures |cs| == |pairs| && forall j :: 0 <= j < |pairs| ==> cs[j] == CountOf(counts, pairs[j].1)
  {
    if pairs == [] then [] else PairCounts(pairs[..|pairs| - 1], counts) + [CountOf(counts, pairs[|pairs| - 1].1)]
  }

  /** How many pairs the minimum-count loop looks at: up to and including the first with count 0. */
  function Examined(cs: seq<int>): (n: nat)
    ensures n <= |cs| && (cs != [] ==> n > 0)
    ensures forall j :: 0 <= j < n - 1 ==> cs[j] != 0
    ensures n < |cs| ==> cs[n - 1] == 0
  {
    if cs == [] then 0
    else if cs[0] == 0 then 1
    else 1 + Examined(cs[1..])
  }

  /** The first position of a minimal value. */
  function FirstMin(xs: seq<int>): (i: nat)
    requires |xs| > 0
    ensures i < |xs|
  {
    if |xs| == 1 then 0
    else
      var i := FirstMin(xs[..|xs| - 1]);
      if xs[|xs| - 1] < xs[i] then |xs| - 1 else i
  }

  /** The first minimum is no larger than any value, and smaller than every value before it. */
  lemma {:induction false} FirstMinIsFirstMinimum(xs: seq<int>)
    requires |xs| > 0
    ensures forall j :: 0 <= j < |xs| ==> xs[FirstMin(xs)] <= xs[j]
    ensures forall j :: 0 <= j < FirstMin(xs) ==> xs[FirstMin(xs)] < xs[j]
  {
    if |xs| > 1 {
      var init := xs[..|xs| - 1];
      FirstMinIsFirstMinimum(init);
      assert forall j :: 0 <= j < |init| ==> init[j] == xs[j];
    }
  }

  /** A position that is minimal and before which everything is larger is the first minimum. */
  lemma {:induction false} FirstMinUnique(xs: seq<int>, p: nat)
    requires p < |xs|
    requires forall j :: 0 <= j < |xs| ==> xs[p] <= xs[j]
    requires forall j :: 0 <= j < p ==> xs[p] < xs[j]
    ensures FirstMin(xs) == p
  {
    FirstMinIsFirstMinimum(xs);
  }

  /**
   * `min_count_exploration`: the pair with the smallest count (a pair
   * without a count has count 0), the earliest on ties, among the pairs up
   * to the first with count 0; `([], None)` for no pairs.
   */
  method MinCountExploration<K>(pairs: seq<(seq<int>, K)>, counts: map<K, int>) returns (slate: seq<int>, index: Option<K>)
    ensures pairs == [] ==> slate == [] && index == None
    ensures pairs != [] ==>
      var p := FirstMin(PairCounts(pairs, counts)[..Examined(PairCounts(pairs, counts))]);
      slate == pairs[p].0 && index == Some(pairs[p].1)
  {
    ghost var cs := PairCounts(pairs, counts);
    slate := [];
    index := None;
    if pairs == [] {
      return;
    }
    var best := 0;
    var minCount := 0;
    var i := 0;
    while i < |pairs|
      invariant 0 <= i <= |pairs|
      invariant forall j :: 0 <= j < i ==> cs[j] != 0
      invariant i > 0 ==> best == FirstMin(cs[..i]) && minCount == cs[best]
      invariant i > 0 ==> slate == pairs[best].0 && index == Some(pairs[best].1)
    {
      var count := CountOf(counts, pairs[i].1);
      assert count == cs[i];
      FirstMinStep(cs, i);
      if i == 0 || count < minCount {
        slate := pairs[i].0;
        index := Some(pairs[i].1);
        minCount := count;
        best := i;
      }
      i := i + 1;
      if count == 0 {
        ExaminedAt(cs, i - 1);
        break;
      }
    }
    if i == |pairs| && cs[i - 1] != 0 {
      ExaminedAt(cs, i);
    }
  }

  /** One more count: the first minimum moves to it exactly when it is smaller than the minimum so far. */
  lemma {:induction false} FirstMinStep(cs: seq<int>, i: nat)
    requires i < |cs|
    ensures i == 0 ==> FirstMin(cs[..i + 1]) == 0
    ensures i > 0 ==> FirstMin(cs[..i + 1]) == if cs[i] < cs[FirstMin(cs[..i])] then i else FirstMin(cs[..i])
  {
    if i > 0 {
      assert cs[..i + 1][..i] == cs[..i];
    }
  }

  /** The loop stops after the first zero count, or after all pairs when there is none. */
  lemma {:induction false} ExaminedAt(cs: seq<int>, m: nat)
    requires m <= |cs| && forall j :: 0 <= j < m ==> cs[j] != 0
    requires m == |cs| || cs[m] == 0
    ensures Examined(cs) == if m == |cs| then m else m + 1
  {
    if m > 0 {
      ExaminedAt(cs[1..], m - 1);
    }
  }

  /**
   * With counts that are never negative, stopping at the first zero count
   * changes nothing: the choice is the earliest pair of least count among
   * all pairs.
   */
  lemma {:induction false} StoppingAtZeroKeepsMinimum(cs: seq<int>)
    requires cs != [] && forall j :: 0 <= j < |cs| ==> cs[j] >= 0
    ensures FirstMin(cs[..Examined(cs)]) == FirstMin(cs)
  {
    var n := Examined(cs);
    if n < |cs| {
      FirstZeroIsMinimum(cs, n - 1);
    } else {
      assert cs[..n] == cs;
    }
  }

  /** A zero count after only positive ones is the first minimum of every prefix that holds it. */
  lemma {:induction false} FirstZeroIsMinimum(cs: seq<int>, p: nat)
    requires p < |cs| && cs[p] == 0
    requires forall j :: 0 <= j < |cs| ==> cs[j] >= 0
    requires forall j :: 0 <= j < p ==> cs[j] != 0
    ensures FirstMin(cs[..p + 1]) == p && FirstMin(cs) == p
  {
    var prefix := cs[..p + 1];
    forall j | 0 <= j < p + 1
      ensures prefix[p] <= prefix[j] && (j < p ==> prefix[p] < prefix[j])
    {
      assert prefix[j] == cs[j] && prefix[p] == cs[p];
    }
    FirstMinUnique(prefix, p);
    FirstMinUnique(cs, p);
  }

  /** `q_function.get(index, 0)`. */
  function QValue<K>(q: map<K, real>, k: K): real
  {
    if k in q then q[k] else 0.0
  }

  /** The Q-values of the enumerated pairs, in order. */
  function PairValues<K>(pairs: seq<(seq<int>, K)>, q: map<K, real>): (qs: seq<real>)
    ensures |qs| == |pairs| && forall j :: 0 <= j < |pairs| ==> qs[j] == QValue(q, pairs[j].1)
  {
    if pairs == [] then [] else PairValues(pairs[..|pairs| - 1], q) + [QValue(q, pairs[|pairs| - 1].1)]
  }

  /**
   * The reservoir's choice among `n` pairs, where the pair at position `j`
   * (1-based count `j + 1`) replaces the reservoir when it is the first or
   * when draw number `j - 1` is below `1/(j + 1)`: the last pair that did.
   */
  function ReservoirPick(draws: nat -> Unit, n: nat): (r: nat)
    requires n > 0
    ensures r < n
    ensures r == 0 || draws(r - 1) < 1.0 / (r + 1) as real
    ensures forall j: nat :: r <= j < n - 1 ==> draws(j) >= 1.0 / (j + 2) as real
  {
    if n == 1 then 0
    else if draws(n - 2) < 1.0 / n as real then n - 1
    else ReservoirPick(draws, n - 1)
  }

  /** The draw that decides between the random and the greedy pair: the one after the reservoir's draws. */
  function DecidingDraw(n: nat): nat
  {
    if n == 0 then 0 else n - 1
  }

  /** The position epsilon-greedy exploration picks among `qs`. */
  function EpsilonGreedyPick(qs: seq<real>, epsilon: real, draws: nat -> Unit): (p: nat)
    requires qs != []
    ensures p < |qs|
  {
    if draws(DecidingDraw(|qs|)) <= epsilon then ReservoirPick(draws, |qs|) else FirstMax(qs)
  }

  /**
   * `epsilon_greedy_exploration` with the global generator's draws from
   * this call on given as `draws`: draw number `c - 2` for the pair counted
   * `c >= 2`, then one more that picks the reservoir's pair when at most
   * `epsilon` and otherwise the earliest pair of largest Q-value (a pair
   * without a Q-value has value 0).
   */
  method EpsilonGreedyExploration<K>(pairs: seq<(seq<int>, K)>, q: map<K, real>, epsilon: real, draws: nat -> Unit)
    returns (slate: seq<int>, index: Option<K>)
    ensures pairs == [] ==> slate == [] && index == None
    ensures pairs != [] ==>
      var p := EpsilonGreedyPick(PairValues(pairs, q), epsilon, draws);
      slate == pairs[p].0 && index == Some(pairs[p].1)
  {
    if pairs == [] {
      // Neither running choice is ever set: both are the empty slate and None.
      return [], None;
    }
    var best, pick := ScanPairs(pairs, q, draws);
    if draws(DecidingDraw(|pairs|)) <= epsilon {
      slate, index := pairs[pick].0, Some(pairs[pick].1);
    } else {
      slate, index := pairs[best].0, Some(pairs[best].1);
    }
  }

  /**
   * The loop of `epsilon_greedy_exploration` over a non-empty enumeration:
   * the position of the running best pair and of the reservoir's pair.
   */
  method ScanPairs<K>(pairs: seq<(seq<int>, K)>, q: map<K, real>, draws: nat -> Unit) returns (best: nat, pick: nat)
    requires pairs != []
    ensures best == FirstMax(PairValues(pairs, q))
    ensures pick == ReservoirPick(draws, |pairs|)
  {
    ghost var qs := PairValues(pairs, q);
    var maxQ := QValue(q, pairs[0].1);
    best, pick := 0, 0;
    var i := 1;
    while i < |pairs|
      invariant 1 <= i <= |pairs|
      invariant best == FirstMax(qs[..i]) && maxQ == qs[best]
      invariant pick == ReservoirPick(draws, i)
    {
      var value := QValue(q, pairs[i].1);
      assert value == qs[i];
      FirstMaxStep(qs, i);
      if value > maxQ {
        maxQ := value;
        best := i;
      }
      if draws(i - 1) < 1.0 / (i + 1) as real {
        pick := i;
      }
      i := i + 1;
    }
    assert qs[..i] == qs;
  }

  /**
   * The pick is the reservoir's pair when the deciding draw is at most
   * `epsilon` and the first best pair otherwise; so with `epsilon >= 1`
   * it is always the reservoir's and with `epsilon < 0` always the best.
   */
  lemma {:induction false} EpsilonExtremes(qs: seq<real>, epsilon: real, draws: nat -> Unit)
    requires qs != []
    ensures epsilon >= 1.0 ==> EpsilonGreedyPick(qs, epsilon, draws) == ReservoirPick(draws, |qs|)
    ensures epsilon < 0.0 ==> EpsilonGreedyPick(qs, epsilon, draws) == FirstMax(qs)
    ensures forall j :: 0 <= j < |qs| ==>
      qs[j] <= qs[EpsilonGreedyPick(qs, epsilon, draws)] || draws(DecidingDraw(|qs|)) <= epsilon
  {
  }
}
