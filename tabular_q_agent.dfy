// The tabular Q-learning agent of recsim/agents/tabular_q_agent.py. A state
// and a slate together are discretized into one flat key (the user's
// observation, the slate's document features and optionally the response,
// every continuous value binned as `np.digitize` does); the agent keeps a
// Q-value and a visit count per key, updates the previous key's value with
// the Q-learning rule, and explores by epsilon-greedy or minimum-count
// selection over all slates of distinct documents.
module TabularQAgent {
  import opened Basics
  import opened Spaces
  import opened Agent
  import opened AgentUtils
  import opened Ranking

  // ---------------------------------------------------------------------
  // Discretization of continuous values.
  // ---------------------------------------------------------------------

  /** How many bins are at most `x`. */
  function CountAtMost(x: real, bins: seq<real>): (n: nat)
    ensures n <= |bins|
  {
    if bins == [] then 0
    else CountAtMost(x, bins[..|bins| - 1]) + (if bins[|bins| - 1] <= x then 1 else 0)
  }

  /** How many bins are above `x`. */
  function CountAbove(x: real, bins: seq<real>): (n: nat)
    ensures n <= |bins|
  {
    if bins == [] then 0
    else CountAbove(x, bins[..|bins| - 1]) + (if bins[|bins| - 1] > x then 1 else 0)
  }

  predicate NonDecreasing(bins: seq<real>)
  {
    forall i, j :: 0 <= i <= j < |bins| ==> bins[i] <= bins[j]
  }

  predicate NonIncreasingBins(bins: seq<real>)
  {
    forall i, j :: 0 <= i <= j < |bins| ==> bins[i] >= bins[j]
  }

  /**
   * The direction numpy finds in `np.linspace(lo, hi, num=n)`: rising unless
   * a later point is below an earlier one, which happens only for `lo > hi`
   * with at least two points.
   */
  function BinsRise(lo: real, hi: real, n: nat): (rising: bool)
    ensures rising ==> NonDecreasing(Linspace(lo, hi, n))
    ensures !rising ==> NonIncreasingBins(Linspace(lo, hi, n))
  {
    LinspaceMonotone(lo, hi, n);
    n <= 1 || lo <= hi
  }

  /**
   * `np.digitize(x, bins)` (right=False) for monotonic bins: the number of
   * rising bins at most `x`, or of falling bins above `x`.
   */
  function Digitize(x: real, bins: seq<real>, rising: bool): (i: nat)
    ensures i <= |bins|
  {
    if rising then CountAtMost(x, bins) else CountAbove(x, bins)
  }

  /** For rising bins, the index `i` is the one with `bins[i-1] <= x < bins[i]`. */
  lemma {:induction false} DigitizeRising(x: real, bins: seq<real>)
    requires NonDecreasing(bins)
    ensures var i := Digitize(x, bins, true);
      (i == 0 || bins[i - 1] <= x) && (i == |bins| || x < bins[i])
  {
    if bins != [] {
      var init := bins[..|bins| - 1];
      DigitizeRising(x, init);
      var c := CountAtMost(x, init);
    }
  }

  /** For falling bins, the index `i` is the one with `bins[i-1] > x >= bins[i]`. */
  lemma {:induction false} DigitizeFalling(x: real, bins: seq<real>)
    requires NonIncreasingBins(bins)
    ensures var i := Digitize(x, bins, false);
      (i == 0 || bins[i - 1] > x) && (i == |bins| || x >= bins[i])
  {
    if bins != [] {
      var init := bins[..|bins| - 1];
      DigitizeFalling(x, init);
      var c := CountAbove(x, init);
    }
  }

  /** A larger value never falls into an earlier rising bin nor a later falling one. */
  lemma {:induction false} DigitizeMonotone(x: real, y: real, bins: seq<real>)
    requires x <= y
    ensures Digitize(x, bins, true) <= Digitize(y, bins, true)
    ensures Digitize(x, bins, false) >= Digitize(y, bins, false)
  {
    if bins != [] {
      DigitizeMonotone(x, y, bins[..|bins| - 1]);
    }
  }

  /** `np.digitize` of every element. */
  function DigitizeAll(xs: seq<real>, bins: seq<real>, rising: bool): (ds: seq<int>)
    ensures |ds| == |xs| && forall k :: 0 <= k < |xs| ==> ds[k] == Digitize(xs[k], bins, rising)
  {
    if xs == [] then [] else DigitizeAll(xs[..|xs| - 1], bins, rising) + [Digitize(xs[|xs| - 1], bins, rising)]
  }

  /** `np.array(v).flatten()` of a scalar or a vector; other values are not modelled as numeric arrays. */
  function Flatten(v: Value): (r: Result<seq<real>>)
    ensures r.Ok? <==> v.VInt? || v.VReal? || v.VArray?
    ensures v.VArray? ==> r == Ok(v.reals)
    ensures (v.VInt? || v.VReal?) ==> r == Ok([AsReal(v).value])
  {
    match v
    case VInt(i) => Ok([i as real])
    case VReal(x) => Ok([x])
    case VArray(xs) => Ok(xs)
    case _ => Err(TypeError)
  }

  /**
   * The key part of one observation of a leaf space: the bin of every
   * element of a Box observation, or a Discrete observation itself;
   * NotImplementedError for any other space kind.
   */
  function LeafIndex(space: Space, v: Value, bins: seq<real>, rising: bool): (r: Result<seq<int>>)
    ensures space.Box? && r.Ok? ==> forall k :: 0 <= k < |r.value| ==> 0 <= r.value[k] <= |bins|
    ensures space.Discrete? ==> (r.Ok? <==> v.VInt?) && (r.Ok? ==> r.value == [v.i])
    ensures !space.Box? && !space.Discrete? ==> r == Err(NotImplementedError)
  {
    match space
    case Box(_, _, _) =>
      var xs :- Flatten(v);
      Ok(DigitizeAll(xs, bins, rising))
    case Discrete(_) => if v.VInt? then Ok([v.i]) else Err(TypeError)
    case _ => Err(NotImplementedError)
  }

  /** `f` repeated `m` times, end to end. */
  function Repeated(f: seq<int>, m: nat): (r: seq<int>)
    ensures forall k :: 0 <= k < |r| ==> r[k] in f
    ensures m == 1 ==> r == f
  {
    if m == 0 then [] else Repeated(f, m - 1) + f
  }

  /**
   * `_discretize_gym_leaf`: one pass per observation, each of which
   * discretizes the FIRST observation, so that the result is the first
   * observation's key part repeated once per observation.
   */
  function DiscretizeLeaf(bins: seq<real>, rising: bool, space: Space, obs: seq<Value>): (r: Result<seq<int>>)
    ensures obs == [] ==> r == Ok([])
    ensures obs != [] ==> (r.Ok? <==> LeafIndex(space, obs[0], bins, rising).Ok?)
    ensures |obs| == 1 ==> r == LeafIndex(space, obs[0], bins, rising)
  {
    if obs == [] then Ok([])
    else
      var f :- LeafIndex(space, obs[0], bins, rising);
      Ok(Repeated(f, |obs|))
  }

  /** A Box leaf discretizes into bin numbers `0..|bins|`. */
  lemma {:induction false} BoxLeafInRange(bins: seq<real>, rising: bool, space: Space, obs: seq<Value>)
    requires space.Box? && DiscretizeLeaf(bins, rising, space, obs).Ok?
    ensures forall k :: 0 <= k < |DiscretizeLeaf(bins, rising, space, obs).value| ==>
      0 <= DiscretizeLeaf(bins, rising, space, obs).value[k] <= |bins|
  {
    if obs != [] {
      var f := LeafIndex(space, obs[0], bins, rising).value;
      var r := DiscretizeLeaf(bins, rising, space, obs).value;
      assert r == Repeated(f, |obs|);
      RepeatedWithin(f, |obs|, |bins|);
    }
  }

  /** Repeating a list keeps its values within the bounds of its elements. */
  lemma {:induction false} RepeatedWithin(f: seq<int>, m: nat, hi: int)
    requires forall i :: 0 <= i < |f| ==> 0 <= f[i] <= hi
    ensures forall k :: 0 <= k < |Repeated(f, m)| ==> 0 <= Repeated(f, m)[k] <= hi
  {
    if m > 0 {
      RepeatedWithin(f, m - 1, hi);
      var p := Repeated(f, m - 1);
      var r := Repeated(f, m);
      assert r == p + f;
      forall k | 0 <= k < |r|
        ensures 0 <= r[k] <= hi
      {
        if k >= |p| {
          assert r[k] == f[k - |p|];
        }
      }
    }
  }

  /** The loop of `_discretize_gym_leaf`, as written. */
  method DiscretizeGymLeaf(bins: seq<real>, rising: bool, space: Space, obs: seq<Value>) returns (r: Result<seq<int>>)
    ensures r == DiscretizeLeaf(bins, rising, space, obs)
  {
    var index: seq<int> := [];
    var n := 0;
    while n < |obs|
      invariant 0 <= n <= |obs|
      invariant n > 0 ==> LeafIndex(space, obs[0], bins, rising).Ok?
      invariant n > 0 ==> index == Repeated(LeafIndex(space, obs[0], bins, rising).value, n)
      invariant n == 0 ==> index == []
    {
      var v := obs[0];
      var part;
      if space.Box? {
        var xs :- Flatten(v);
        part := DigitizeAll(xs, bins, rising);
      } else if space.Discrete? {
        if !v.VInt? {
          return Err(TypeError);
        }
        part := [v.i];
      } else {
        return Err(NotImplementedError);
      }
      assert part == LeafIndex(space, obs[0], bins, rising).value;
      index := index + part;
      n := n + 1;
    }
    return Ok(index);
  }

  // ---------------------------------------------------------------------
  // Slates and the state-action enumeration.
  // ---------------------------------------------------------------------

  /** Every list in `cs` behind `x`. */
  function PrependAll(x: int, cs: seq<seq<int>>): (r: seq<seq<int>>)
    ensures |r| == |cs| && forall i :: 0 <= i < |cs| ==> r[i] == [x] + cs[i]
  {
    if cs == [] then [] else PrependAll(x, cs[..|cs| - 1]) + [[x] + cs[|cs| - 1]]
  }

  /** Every position of the slate is one of `n` documents. */
  predicate ValidSlate(slate: seq<int>, n: int)
  {
    forall i :: 0 <= i < |slate| ==> 0 <= slate[i] < n
  }

  lemma {:induction false} PrependAllMember(x: int, cs: seq<seq<int>>, t: seq<int>)
    requires t in cs
    ensures [x] + t in PrependAll(x, cs)
  {
    var m :| 0 <= m < |cs| && cs[m] == t;
    assert PrependAll(x, cs)[m] == [x] + t;
  }

  /** Strictly increasing positions, each in `lo..n-1`. */
  predicate IncreasingIn(c: seq<int>, lo: int, n: int)
  {
    ValidSlate(c, n) &&
    (forall i :: 0 <= i < |c| ==> lo <= c[i]) &&
    (forall i, j :: 0 <= i < j < |c| ==> c[i] < c[j])
  }

  /**
   * `itertools.combinations(range(lo, n), k)`: the increasing `k`-lists of
   * positions in `lo..n-1`, in lexicographic order.
   */
  function Combos(lo: nat, n: nat, k: nat): (r: seq<seq<int>>)
    ensures forall i :: 0 <= i < |r| ==> |r[i]| == k
    decreases n - lo
  {
    if k == 0 then [[]]
    else if lo >= n then []
    else PrependAll(lo, Combos(lo + 1, n, k - 1)) + Combos(lo + 1, n, k)
  }

  /** Every combination is an increasing list of positions in `lo..n-1`. */
  lemma {:induction false} CombosSound(lo: nat, n: nat, k: nat)
    ensures forall i :: 0 <= i < |Combos(lo, n, k)| ==> IncreasingIn(Combos(lo, n, k)[i], lo, n)
    decreases n - lo
  {
    if k > 0 && lo < n {
      var with := Combos(lo + 1, n, k - 1);
      var without := Combos(lo + 1, n, k);
      var front := PrependAll(lo, with);
      var r := Combos(lo, n, k);
      assert r == front + without;
      CombosSound(lo + 1, n, k - 1);
      CombosSound(lo + 1, n, k);
      forall i | 0 <= i < |r|
        ensures IncreasingIn(r[i], lo, n)
      {
        if i < |front| {
          assert r[i] == [lo] + with[i];
          assert IncreasingIn(with[i], lo + 1, n);
        } else {
          assert r[i] == without[i - |front|];
        }
      }
    }
  }

  /** The combinations of `lo..n-1` are those that start with `lo`, then those that do not. */
  lemma {:induction false} CombosSplit(lo: nat, n: nat, k: nat)
    requires k > 0 && lo < n
    ensures Combos(lo, n, k) == PrependAll(lo, Combos(lo + 1, n, k - 1)) + Combos(lo + 1, n, k)
  {
  }

  /** What follows the first position of an increasing list lies above it. */
  lemma {:induction false} TailIncreasing(c: seq<int>, lo: int, n: int)
    requires |c| > 0 && IncreasingIn(c, lo, n)
    ensures IncreasingIn(c[1..], c[0] + 1, n)
  {
    var tail := c[1..];
    forall i | 0 <= i < |tail|
      ensures c[0] + 1 <= tail[i]
    {
      assert tail[i] == c[i + 1];
    }
  }

  /** An increasing list that does not start at `lo` starts above it. */
  lemma {:induction false} RaiseFloor(c: seq<int>, lo: int, n: int)
    requires |c| > 0 && IncreasingIn(c, lo, n) && c[0] != lo
    ensures IncreasingIn(c, lo + 1, n)
  {
    forall i | 0 <= i < |c|
      ensures lo + 1 <= c[i]
    {
      if i > 0 {
        assert c[0] < c[i];
      }
    }
  }

  lemma {:induction false} InEither<T>(a: seq<T>, b: seq<T>, x: T)
    requires x in a || x in b
    ensures x in a + b
  {
    if x !in a {
      var m :| 0 <= m < |b| && b[m] == x;
      assert (a + b)[|a| + m] == x;
    }
  }

  /** A list led by `x` whose rest is in `cs` is among the lists `cs` led by `x`. */
  lemma {:induction false} LeadingIn(x: int, cs: seq<seq<int>>, others: seq<seq<int>>, c: seq<int>)
    requires |c| > 0 && c[0] == x && c[1..] in cs
    ensures c in PrependAll(x, cs) + others
  {
    PrependAllMember(x, cs, c[1..]);
    assert c == [x] + c[1..];
    InEither(PrependAll(x, cs), others, c);
  }

  /** Every increasing `k`-list of positions in `lo..n-1` is a combination. */
  lemma {:induction false} CombosComplete(lo: nat, n: nat, k: nat, c: seq<int>)
    requires |c| == k && IncreasingIn(c, lo, n)
    ensures c in Combos(lo, n, k)
    decreases n - lo
  {
    if k > 0 {
      assert lo <= c[0] < n;
      var with := Combos(lo + 1, n, k - 1);
      var without := Combos(lo + 1, n, k);
      CombosSplit(lo, n, k);
      if c[0] == lo {
        TailIncreasing(c, lo, n);
        CombosComplete(lo + 1, n, k - 1, c[1..]);
        LeadingIn(lo, with, without, c);
      } else {
        RaiseFloor(c, lo, n);
        CombosComplete(lo + 1, n, k, c);
        InEither(PrependAll(lo, with), without, c);
      }
    }
  }

  /** No combination is enumerated twice. */
  lemma {:induction false} CombosDistinct(lo: nat, n: nat, k: nat)
    ensures Distinct(Combos(lo, n, k))
    decreases n - lo
  {
    if k > 0 && lo < n {
      var with := Combos(lo + 1, n, k - 1);
      var without := Combos(lo + 1, n, k);
      var r := Combos(lo, n, k);
      var front := PrependAll(lo, with);
      assert r == front + without;
      CombosDistinct(lo + 1, n, k - 1);
      CombosDistinct(lo + 1, n, k);
      CombosSound(lo + 1, n, k);
      forall i, j | 0 <= i < j < |r|
        ensures r[i] != r[j]
      {
        if j < |front| {
          assert r[i][1..] == with[i] && r[j][1..] == with[j];
        } else if i >= |front| {
          assert r[i] == without[i - |front|] && r[j] == without[j - |front|];
        } else {
          assert r[i][0] == lo;
          assert r[j] == without[j - |front|];
          assert r[j][0] >= lo + 1;
        }
      }
    }
  }

  /** The values of a dict, in order. */
  function Values(entries: seq<(string, Value)>): (vs: seq<Value>)
    ensures |vs| == |entries| && forall i :: 0 <= i < |entries| ==> vs[i] == entries[i].1
  {
    if entries == [] then [] else Values(entries[..|entries| - 1]) + [entries[|entries| - 1].1]
  }

  /** The documents' features at the slate's positions. */
  function SlateFeatures(docs: seq<Value>, slate: seq<int>): (fs: seq<Value>)
    requires ValidSlate(slate, |docs|)
    ensures |fs| == |slate| && forall i :: 0 <= i < |slate| ==> fs[i] == docs[slate[i]]
  {
    if slate == [] then []
    else SlateFeatures(docs, slate[..|slate| - 1]) + [docs[slate[|slate| - 1]]]
  }

  /**
   * The agent's fixed parameters: the slate size, the learning constants,
   * the mode, the discretization bins with their direction, the name of the
   * exploration policy and the joint state-action space.
   */
  datatype QConfig = QConfig(
    slateSize: nat,
    gamma: real,
    learningRate: real,
    evalMode: bool,
    ignoreResponse: bool,
    bins: seq<real>,
    rising: bool,
    explorationPolicy: string,
    stateActionSpace: Space)

  /** The leaf operator the agent's walker applies. */
  function Leaf(c: QConfig): LeafOp<int>
  {
    (space, obs) => DiscretizeLeaf(c.bins, c.rising, space, obs)
  }

  /**
   * The state-action pair of a slate: the user observation, the slate's
   * document features and, unless ignored, the response.
   */
  function PairValue(c: QConfig, observation: Value, docs: seq<Value>, slate: seq<int>): (r: Result<Value>)
    requires ValidSlate(slate, |docs|)
    ensures r.Ok? <==> Field(observation, "user").Ok? && (c.ignoreResponse || Field(observation, "response").Ok?)
  {
    var user :- Field(observation, "user");
    var action := VTuple(SlateFeatures(docs, slate));
    if c.ignoreResponse then Ok(VDict([("user", user), ("action", action)]))
    else
      var response :- Field(observation, "response");
      Ok(VDict([("user", user), ("action", action), ("response", response)]))
  }

  /** The key of a slate in the current state: the walker's flat discretization of its pair. */
  function StateActionIndex(c: QConfig, observation: Value, docs: seq<Value>, slate: seq<int>): (r: Result<StateAction>)
    requires ValidSlate(slate, |docs|)
    ensures r.Ok? ==> PairValue(c, observation, docs, slate).Ok?
  {
    var pair :- PairValue(c, observation, docs, slate);
    SpaceWalker(c.stateActionSpace, Leaf(c)).ApplyAndFlatten([pair])
  }

  /**
   * A slate's key is the concatenation, over the leaves of the state-action
   * space in walking order, of the discretized value at each leaf's path in
   * the slate's pair.
   */
  lemma {:induction false} StateActionIndexIsApplied(c: QConfig, observation: Value, docs: seq<Value>, slate: seq<int>)
    requires ValidSlate(slate, |docs|) && StateActionIndex(c, observation, docs, slate).Ok?
    ensures Leaves(c.stateActionSpace).Some?
    ensures StateActionIndex(c, observation, docs, slate)
      == Applied([PairValue(c, observation, docs, slate).value], Leaves(c.stateActionSpace).value, Leaf(c))
  {
    var pair := PairValue(c, observation, docs, slate).value;
    assert StateActionIndex(c, observation, docs, slate) == SpaceWalker(c.stateActionSpace, Leaf(c)).ApplyAndFlatten([pair]);
  }

  /** The key of every slate, in order. */
  function SlateKeys(c: QConfig, observation: Value, docs: seq<Value>, slates: seq<seq<int>>): (keys: seq<Result<StateAction>>)
    requires forall j :: 0 <= j < |slates| ==> ValidSlate(slates[j], |docs|)
    ensures |keys| == |slates| && forall j :: 0 <= j < |slates| ==> keys[j] == StateActionIndex(c, observation, docs, slates[j])
  {
    seq(|slates|, j requires 0 <= j < |slates| => StateActionIndex(c, observation, docs, slates[j]))
  }

  /**
   * The (slate, key) pairs of the slates from the `i`-th on, as the
   * generator yields them: the first key that fails raises its error.
   */
  function Keyed(slates: seq<seq<int>>, keys: seq<Result<StateAction>>, i: nat): (r: Result<seq<(seq<int>, StateAction)>>)
    requires |keys| == |slates| && i <= |slates|
    ensures r.Ok? <==> forall j :: i <= j < |slates| ==> keys[j].Ok?
    ensures r.Ok? ==> |r.value| == |slates| - i && forall j :: 0 <= j < |r.value| ==> r.value[j] == (slates[i + j], keys[i + j].value)
    ensures r.Err? ==> exists j :: i <= j < |slates| && keys[j] == Err(r.error) && forall m :: i <= m < j ==> keys[m].Ok?
    decreases |slates| - i
  {
    if i == |slates| then Ok([])
    else
      var index :- keys[i];
      var rest :- Keyed(slates, keys, i + 1);
      Ok([(slates[i], index)] + rest)
  }

  /**
   * `_enumerate_state_action_indices`: every combination of `slateSize`
   * distinct documents of `observation['doc']`, in lexicographic order,
   * with its key.
   */
  function Enumerate(c: QConfig, observation: Value): (r: Result<seq<(seq<int>, StateAction)>>)
    ensures r.Ok? ==> Field(observation, "doc").Ok? && Field(observation, "doc").value.VDict?
    ensures r.Ok? ==>
      var slates := Combos(0, |Field(observation, "doc").value.entries|, c.slateSize);
      |r.value| == |slates| && forall j :: 0 <= j < |slates| ==> r.value[j].0 == slates[j]
  {
    var doc :- Field(observation, "doc");
    if !doc.VDict? then Err(AttributeError)
    else
      var docs := Values(doc.entries);
      var slates := Combos(0, |docs|, c.slateSize);
      CombosSound(0, |docs|, c.slateSize);
      Keyed(slates, SlateKeys(c, observation, docs, slates), 0)
  }

  // ---------------------------------------------------------------------
  // The Q-learning step.
  // ---------------------------------------------------------------------

  /** The agent's learned state: Q-values, visit counts and the key of the previous choice. */
  datatype QState = QState(qTable: map<StateAction, real>, counts: map<StateAction, int>, previous: Option<StateAction>)

  /** `lr * (reward + gamma * maxQ) + (1 - lr) * current`. */
  function QUpdate(c: QConfig, current: real, reward: real, maxQNext: real): real
  {
    c.learningRate * (reward + c.gamma * maxQNext) + (1.0 - c.learningRate) * current
  }

  /**
   * The update of the previous choice's Q-value towards the reward plus the
   * discounted best next value, and of its count; nothing without a
   * previous choice.
   */
  function Updated(c: QConfig, s: QState, reward: real, maxQNext: real): (t: QState)
    ensures t.previous == s.previous
    ensures s.previous.None? ==> t == s
  {
    match s.previous
    case None => s
    case Some(p) =>
      QState(
        s.qTable[p := QUpdate(c, QValue(s.qTable, p), reward, maxQNext)],
        s.counts[p := CountOf(s.counts, p) + 1],
        s.previous)
  }

  /** The first enumerated pair of largest Q-value (a missing value counting as 0). */
  function Greedy(ps: seq<(seq<int>, StateAction)>, q: map<StateAction, real>): (m: nat)
    requires ps != []
    ensures m < |ps|
    ensures forall j :: 0 <= j < |ps| ==> QValue(q, ps[j].1) <= QValue(q, ps[m].1)
    ensures forall j :: 0 <= j < m ==> QValue(q, ps[j].1) < QValue(q, ps[m].1)
  {
    var qs := PairValues(ps, q);
    assert forall j :: 0 <= j < |ps| ==> qs[j] == QValue(q, ps[j].1);
    FirstMax(qs)
  }

  /** The largest Q-value of any enumerated pair (a missing value counting as 0). */
  function MaxQ(ps: seq<(seq<int>, StateAction)>, q: map<StateAction, real>): (v: real)
    requires ps != []
    ensures forall j :: 0 <= j < |ps| ==> QValue(q, ps[j].1) <= v
    ensures exists j :: 0 <= j < |ps| && v == QValue(q, ps[j].1)
  {
    QValue(q, ps[Greedy(ps, q)].1)
  }

  /**
   * The training choice after the update: the exploration policy named in
   * the configuration picks a pair, whose key becomes the previous choice;
   * a name that is neither `epsilon_greedy` nor `min_count` raises KeyError.
   */
  function Exploration(c: QConfig, t: QState, temperature: real, ps: seq<(seq<int>, StateAction)>, draws: nat -> Unit)
    : (r: (Result<Slate>, QState))
    requires ps != []
    ensures r.1.qTable == t.qTable && r.1.counts == t.counts
    ensures r.0.Ok? ==> r.1.previous.Some? && (r.0.value, r.1.previous.value) in ps
    ensures r.0.Err? ==> r == (Err(KeyError), t)
  {
    if c.explorationPolicy == "epsilon_greedy" then
      var p := EpsilonGreedyPick(PairValues(ps, t.qTable), temperature, draws);
      (Ok(ps[p].0), t.(previous := Some(ps[p].1)))
    else if c.explorationPolicy == "min_count" then
      var cs := PairCounts(ps, t.counts);
      var p := FirstMin(cs[..Examined(cs)]);
      (Ok(ps[p].0), t.(previous := Some(ps[p].1)))
    else (Err(KeyError), t)
  }

  /**
   * A step over a non-empty enumeration: the update with the largest
   * Q-value before it, then the exploration (training) or the greedy pair
   * (evaluation).
   */
  function StepOn(c: QConfig, s: QState, temperature: real, reward: real, ps: seq<(seq<int>, StateAction)>, draws: nat -> Unit)
    : (Result<Slate>, QState)
    requires ps != []
  {
    var t := Updated(c, s, reward, MaxQ(ps, s.qTable));
    if c.evalMode then (Ok(ps[Greedy(ps, s.qTable)].0), t) else Exploration(c, t, temperature, ps, draws)
  }

  /**
   * `step(reward, observation)` with the global generator's draws given as
   * `draws`: the slate returned (or the error raised) and the new state.
   */
  function StepOutcome(c: QConfig, s: QState, temperature: real, reward: real, observation: Value, draws: nat -> Unit)
    : (Result<Slate>, QState)
  {
    var pairs := Enumerate(c, observation);
    if pairs.Err? then (Err(pairs.error), s)
    else if pairs.value == [] then (Err(ValueError), s)
    else StepOn(c, s, temperature, reward, pairs.value, draws)
  }

  /**
   * The step's Q-learning update: the previous choice's value moves to
   * `lr * (reward + gamma * maxQ) + (1 - lr) * old`, with `maxQ` the largest
   * Q-value of any enumerated pair before the update, and its count grows
   * by one; no other key's value or count changes. This happens even when
   * the exploration policy then turns out to be unknown.
   */
  lemma {:induction false} StepUpdatesPrevious(c: QConfig, s: QState, temperature: real, reward: real, ps: seq<(seq<int>, StateAction)>, draws: nat -> Unit)
    requires s.previous.Some? && ps != []
    ensures var t := StepOn(c, s, temperature, reward, ps, draws).1;
      var p := s.previous.value;
      p in t.qTable && t.qTable[p] == QUpdate(c, QValue(s.qTable, p), reward, MaxQ(ps, s.qTable)) &&
      p in t.counts && t.counts[p] == CountOf(s.counts, p) + 1
    ensures var t := StepOn(c, s, temperature, reward, ps, draws).1;
      var p := s.previous.value;
      (forall k :: k in s.qTable && k != p ==> k in t.qTable && t.qTable[k] == s.qTable[k]) &&
      (forall k :: k in s.counts && k != p ==> k in t.counts && t.counts[k] == s.counts[k])
  {
    var t := Updated(c, s, reward, MaxQ(ps, s.qTable));
    var out := StepOn(c, s, temperature, reward, ps, draws);
    assert out.1.qTable == t.qTable && out.1.counts == t.counts;
  }

  /** Without a previous choice (a new episode), a step learns nothing. */
  lemma {:induction false} StepWithoutPreviousKeepsTables(c: QConfig, s: QState, temperature: real, reward: real, ps: seq<(seq<int>, StateAction)>, draws: nat -> Unit)
    requires s.previous.None? && ps != []
    ensures var t := StepOn(c, s, temperature, reward, ps, draws).1;
      t.qTable == s.qTable && t.counts == s.counts
  {
  }

  /**
   * In evaluation mode a step returns the first slate of largest Q-value
   * and keeps the previous choice; since a fresh agent has none, it never
   * learns.
   */
  lemma {:induction false} EvalStepIsGreedy(c: QConfig, s: QState, temperature: real, reward: real, ps: seq<(seq<int>, StateAction)>, draws: nat -> Unit)
    requires c.evalMode && ps != []
    ensures var out := StepOn(c, s, temperature, reward, ps, draws);
      out.1.previous == s.previous &&
      exists m :: 0 <= m < |ps| && out.0 == Ok(ps[m].0) &&
        (forall j :: 0 <= j < |ps| ==> QValue(s.qTable, ps[j].1) <= QValue(s.qTable, ps[m].1)) &&
        (forall j :: 0 <= j < m ==> QValue(s.qTable, ps[j].1) < QValue(s.qTable, ps[m].1))
  {
    var best := Greedy(ps, s.qTable);
    assert StepOn(c, s, temperature, reward, ps, draws).0 == Ok(ps[best].0);
  }

  /**
   * A training step that returns a slate returns an enumerated slate and
   * remembers that slate's key as the previous choice; one that fails
   * keeps the updated tables and the previous choice.
   */
  lemma {:induction false} TrainingStepRemembersChoice(c: QConfig, s: QState, temperature: real, reward: real, ps: seq<(seq<int>, StateAction)>, draws: nat -> Unit)
    requires !c.evalMode && ps != []
    ensures var out := StepOn(c, s, temperature, reward, ps, draws);
      out.0.Ok? ==> out.1.previous.Some? && (out.0.value, out.1.previous.value) in ps
    ensures var out := StepOn(c, s, temperature, reward, ps, draws);
      out.0.Err? ==> out.0.error == KeyError && out.1.previous == s.previous
  {
  }

  /**
   * A step whose enumeration fails, or is empty, raises and changes
   * nothing; a step that returns a slate returns `slateSize` distinct
   * documents in increasing order.
   */
  lemma {:induction false} StepOutcomeSlates(c: QConfig, s: QState, temperature: real, reward: real, observation: Value, draws: nat -> Unit)
    ensures var out := StepOutcome(c, s, temperature, reward, observation, draws);
      (Enumerate(c, observation).Err? || Enumerate(c, observation).value == []) ==> out.0.Err? && out.1 == s
    ensures var out := StepOutcome(c, s, temperature, reward, observation, draws);
      out.0.Ok? ==> (Enumerate(c, observation).Ok? &&
        |out.0.value| == c.slateSize && IncreasingIn(out.0.value, 0, |Field(observation, "doc").value.entries|))
  {
    var out := StepOutcome(c, s, temperature, reward, observation, draws);
    var ps := Enumerate(c, observation);
    if ps.Ok? && ps.value != [] && out.0.Ok? {
      var m := StepOnPair(c, s, temperature, reward, ps.value, draws);
      var slates := Combos(0, |Field(observation, "doc").value.entries|, c.slateSize);
      CombosSound(0, |Field(observation, "doc").value.entries|, c.slateSize);
      assert ps.value[m].0 == slates[m];
    }
  }

  /** The position of the enumerated pair whose slate a successful step returns. */
  lemma {:induction false} StepOnPair(c: QConfig, s: QState, temperature: real, reward: real, ps: seq<(seq<int>, StateAction)>, draws: nat -> Unit)
    returns (m: nat)
    requires ps != [] && StepOn(c, s, temperature, reward, ps, draws).0.Ok?
    ensures m < |ps| && StepOn(c, s, temperature, reward, ps, draws).0.value == ps[m].0
  {
    var out := StepOn(c, s, temperature, reward, ps, draws);
    if c.evalMode {
      m := Greedy(ps, s.qTable);
    } else {
      var best := Greedy(ps, s.qTable);
      var t := Updated(c, s, reward, QValue(s.qTable, ps[best].1));
      assert out == Exploration(c, t, temperature, ps, draws);
      var i :| 0 <= i < |ps| && ps[i] == (out.0.value, out.1.previous.value);
      m := i;
    }
  }

  /** With a learning rate in [0, 1], the new Q-value lies between the current one and the target. */
  lemma {:induction false} QUpdateBetween(c: QConfig, current: real, reward: real, maxQNext: real)
    requires 0.0 <= c.learningRate <= 1.0
    ensures var target := reward + c.gamma * maxQNext;
      var v := QUpdate(c, current, reward, maxQNext);
      (current <= target ==> current <= v <= target) && (target <= current ==> target <= v <= current)
  {
    var target := reward + c.gamma * maxQNext;
    var lr := c.learningRate;
    assert QUpdate(c, current, reward, maxQNext) == current + lr * (target - current);
    FractionOfWidth(target - current, lr);
    assert Mul(target - current, lr) == lr * (target - current);
    if target <= current {
      FractionOfWidth(current - target, lr);
      assert Mul(current - target, lr) == lr * (current - target);
    }
  }

  // ---------------------------------------------------------------------
  // The agent.
  // ---------------------------------------------------------------------

  const QTableKey: string := "q_value_table"
  const CountsKey: string := "sa_count"

  /** The agent's bundle: its Q-table and its counts (the episode counter is not in it). */
  function QBundle(q: map<StateAction, real>, counts: map<StateAction, int>): (b: Bundle)
    ensures Keys(b) == [QTableKey, CountsKey]
  {
    [(QTableKey, CTable(q)), (CountsKey, CCounts(counts))]
  }

  /**
   * What `unbundle` restores: nothing without a Q-table; otherwise the
   * Q-table and the counts, which default to empty when missing. A value of
   * the wrong kind is read as an empty table.
   */
  function RestoredTables(b: Bundle): (r: Option<(map<StateAction, real>, map<StateAction, int>)>)
    ensures r.None? <==> QTableKey !in Keys(b)
    ensures r.Some? && CountsKey !in Keys(b) ==> r.value.1 == map[]
  {
    var q := Lookup(b, QTableKey);
    if q.Err? then None
    else
      var counts := Lookup(b, CountsKey);
      Some((if q.value.CTable? then q.value.table else map[],
            if counts.Ok? && counts.value.CCounts? then counts.value.counts else map[]))
  }

  /** Unbundling the agent's own bundle restores both tables. */
  lemma {:induction false} QBundleRoundTrip(q: map<StateAction, real>, counts: map<StateAction, int>)
    ensures RestoredTables(QBundle(q, counts)) == Some((q, counts))
  {
    assert QBundle(q, counts)[0].0 != CountsKey;
  }

  /** `TabularQAgent`, with the global random generator's draws supplied to each step. */
  class TabularQAgent {
    const config: QConfig
    const baseTemperature: real
    var episodeNum: int
    var qTable: map<StateAction, real>
    var counts: map<StateAction, int>
    var previous: Option<StateAction>
    var temperature: real

    /** A new agent: no episode, empty tables, no previous choice, the base temperature. */
    constructor (config: QConfig, temperature: real)
      ensures this.config == config && baseTemperature == temperature && this.temperature == temperature
      ensures episodeNum == 0 && qTable == map[] && counts == map[] && previous == None
    {
      this.config := config;
      baseTemperature := temperature;
      this.temperature := temperature;
      episodeNum := 0;
      qTable := map[];
      counts := map[];
      previous := None;
    }

    function State(): QState
      reads this
    {
      QState(qTable, counts, previous)
    }

    method Step(reward: real, observation: Value, draws: nat -> Unit) returns (r: Result<Slate>)
      modifies this
      ensures (r, State()) == StepOutcome(config, old(State()), temperature, reward, observation, draws)
      ensures temperature == old(temperature) && episodeNum == old(episodeNum)
    {
      var enumerated := Enumerate(config, observation);
      if enumerated.Err? {
        return Err(enumerated.error);
      }
      var pairs := enumerated.value;
      if pairs == [] {
        // `max` of an empty enumeration.
        return Err(ValueError);
      }
      r := Learn(reward, pairs, draws);
    }

    /** The step over a non-empty enumeration: the update, then the choice. */
    method Learn(reward: real, pairs: seq<(seq<int>, StateAction)>, draws: nat -> Unit) returns (r: Result<Slate>)
      requires pairs != []
      modifies this
      ensures (r, State()) == StepOn(config, old(State()), temperature, reward, pairs, draws)
      ensures temperature == old(temperature) && episodeNum == old(episodeNum)
    {
      ghost var before := State();
      var best := Greedy(pairs, qTable);
      var maxQNext := QValue(qTable, pairs[best].1);
      assert maxQNext == MaxQ(pairs, qTable);
      if previous.Some? {
        var p := previous.value;
        qTable := qTable[p := QUpdate(config, QValue(qTable, p), reward, maxQNext)];
        counts := counts[p := CountOf(counts, p) + 1];
        assert State() == Updated(config, before, reward, maxQNext);
      }
      if !config.evalMode {
        r := Explore(pairs, draws);
      } else {
        r := Ok(pairs[best].0);
      }
    }

    /** The exploration policy's pick, remembered as the previous choice. */
    method Explore(pairs: seq<(seq<int>, StateAction)>, draws: nat -> Unit) returns (r: Result<Slate>)
      requires pairs != []
      modifies this
      ensures (r, State()) == Exploration(config, old(State()), temperature, pairs, draws)
      ensures temperature == old(temperature) && episodeNum == old(episodeNum)
    {
      if config.explorationPolicy == "epsilon_greedy" {
        var slate, index := EpsilonGreedyExploration(pairs, qTable, temperature, draws);
        previous := index;
        r := Ok(slate);
      } else if config.explorationPolicy == "min_count" {
        var slate, index := MinCountExploration(pairs, counts);
        previous := index;
        r := Ok(slate);
      } else {
        r := Err(KeyError);
      }
    }

    /** Counts the episode, then steps with reward 0. */
    method BeginEpisode(observation: Value, draws: nat -> Unit) returns (r: Result<Slate>)
      modifies this
      ensures episodeNum == old(episodeNum) + 1 && temperature == old(temperature)
      ensures (r, State()) == StepOutcome(config, old(State()), temperature, 0.0, observation, draws)
    {
      episodeNum := episodeNum + 1;
      r := Step(0.0, observation, draws);
    }

    /** Cools the exploration temperature by the base temperature and forgets the previous choice. */
    method EndEpisode(reward: real, observation: Value)
      modifies this
      ensures temperature == old(temperature) * baseTemperature
      ensures previous == None
      ensures qTable == old(qTable) && counts == old(counts) && episodeNum == old(episodeNum)
    {
      temperature := temperature * baseTemperature;
      previous := None;
    }

    method BundleAndCheckpoint() returns (b: Bundle)
      ensures b == QBundle(qTable, counts)
    {
      b := [(QTableKey, CTable(qTable))];
      b := b + [(CountsKey, CCounts(counts))];
    }

    /** Restores both tables when the bundle has a Q-table; otherwise reports failure and changes nothing. */
    method Unbundle(b: Bundle) returns (ok: bool)
      modifies this
      ensures ok == RestoredTables(b).Some?
      ensures ok ==> (qTable, counts) == RestoredTables(b).value
      ensures !ok ==> qTable == old(qTable) && counts == old(counts)
      ensures previous == old(previous) && temperature == old(temperature) && episodeNum == old(episodeNum)
    {
      if QTableKey !in Keys(b) {
        return false;
      }
      var q := Lookup(b, QTableKey);
      qTable := if q.value.CTable? then q.value.table else map[];
      var stored := Lookup(b, CountsKey);
      counts := if stored.Ok? && stored.value.CCounts? then stored.value.counts else map[];
      ok := true;
    }
  }

  /**
   * The joint state-action space: a Dict (its keys sorted, as gym sorts
   * them) of the slate as a Tuple of `slateSize` copies of the first
   * document's space, the response space unless ignored, and the user space.
   */
  function StateActionSpace(observationSpace: Space, slateSize: nat, ignoreResponse: bool): (r: Result<Space>)
    ensures r.Ok? ==> r.value.DictSpace?
    ensures r.Ok? ==> Keys(r.value.fields) == if ignoreResponse then ["action", "user"] else ["action", "response", "user"]
    ensures r.Ok? ==> (SpaceField(observationSpace, "doc").Ok? && SpaceField(observationSpace, "doc").value.DictSpace? &&
      SpaceField(observationSpace, "doc").value.fields != [] &&
      r.value.fields[0] == ("action", TupleSpace(Repeat(SpaceField(observationSpace, "doc").value.fields[0].1, slateSize))))
  {
    var docSpace :- SpaceField(observationSpace, "doc");
    if !docSpace.DictSpace? then Err(AttributeError)
    else if docSpace.fields == [] then Err(IndexError)
    else
      var action := TupleSpace(Repeat(docSpace.fields[0].1, slateSize));
      var user :- SpaceField(observationSpace, "user");
      if ignoreResponse then Ok(DictSpace(JointFields(action, None, user)))
      else
        var response :- SpaceField(observationSpace, "response");
        Ok(DictSpace(JointFields(action, Some(response), user)))
  }

  /** The joint space's fields in sorted key order. */
  function JointFields(action: Space, response: Option<Space>, user: Space): (fields: seq<(string, Space)>)
    ensures Keys(fields) == if response.None? then ["action", "user"] else ["action", "response", "user"]
    ensures fields[0] == ("action", action)
  {
    match response
    case None => [("action", action), ("user", user)]
    case Some(r) => [("action", action), ("response", r), ("user", user)]
  }

  /**
   * `TabularQAgent(observation_space, action_space, ...)`: fails without a
   * slate size, with a negative number of bins, or when the observation
   * space lacks the document, user or (when used) response spaces.
   */
  method NewTabularQAgent(
    observationSpace: Space, actionSpace: Space, evalMode: bool, ignoreResponse: bool,
    low: real, high: real, numberBins: int, explorationPolicy: string,
    explorationTemperature: real, learningRate: real, gamma: real)
    returns (r: Result<TabularQAgent>)
    ensures r.Ok? <==> (SlateSize(actionSpace).Ok? && numberBins >= 0 &&
      StateActionSpace(observationSpace, SlateSize(actionSpace).value, ignoreResponse).Ok?)
    ensures r.Ok? ==> fresh(r.value) && r.value.config == QConfig(
      SlateSize(actionSpace).value, gamma, learningRate, evalMode, ignoreResponse,
      Linspace(low, high, numberBins), BinsRise(low, high, numberBins), explorationPolicy,
      StateActionSpace(observationSpace, SlateSize(actionSpace).value, ignoreResponse).value)
    ensures r.Ok? ==> r.value.State() == QState(map[], map[], None) && r.value.episodeNum == 0
    ensures r.Ok? ==> r.value.temperature == explorationTemperature == r.value.baseTemperature
  {
    var slateSize :- SlateSize(actionSpace);
    if numberBins < 0 {
      // `np.linspace` refuses a negative number of samples.
      return Err(ValueError);
    }
    var bins := Linspace(low, high, numberBins);
    var space :- StateActionSpace(observationSpace, slateSize, ignoreResponse);
    var config := QConfig(slateSize, gamma, learningRate, evalMode, ignoreResponse,
      bins, BinsRise(low, high, numberBins), explorationPolicy, space);
    var agent := new TabularQAgent(config, explorationTemperature);
    return Ok(agent);
  }
}
