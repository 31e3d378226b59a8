// Shared vocabulary of the RecSim model: Python's exceptions as an error kind,
// Option/Result, sums over reals, a seeded random state, and Python's
// sequence indexing.
module Basics {

  datatype Option<T> = None | Some(value: T)

  /** The exception kinds raised by the modelled code. */
  datatype Error =
    | TypeError
    | ValueError
    | AssertionError
    | KeyError
    | IndexError
    | AttributeError
    | NotImplementedError
    | ZeroDivisionError
    /** A bare `Exception`. */
    | Exception

  /** The outcome of an operation that may raise. */
  datatype Result<T> = Ok(value: T) | Err(error: Error)
  {
    predicate IsFailure() { Err? }

    function PropagateFailure<U>(): Result<U>
      requires Err?
    {
      Err(error)
    }

    function Extract(): T
      requires Ok?
    {
      value
    }
  }

  /** Sum of a sequence of reals, accumulated from the left as Python's `sum` does. */
  function Sum(s: seq<real>): real
  {
    if s == [] then 0.0 else Sum(s[..|s| - 1]) + s[|s| - 1]
  }

  lemma {:induction false} SumAppend(a: seq<real>, b: seq<real>)
    ensures Sum(a + b) == Sum(a) + Sum(b)
    decreases |b|
  {
    if b != [] {
      assert (a + b)[..|a + b| - 1] == a + b[..|b| - 1];
      SumAppend(a, b[..|b| - 1]);
    } else {
      assert a + b == a;
    }
  }

  lemma {:induction false} SumNonNegative(s: seq<real>)
    requires forall i :: 0 <= i < |s| ==> s[i] >= 0.0
    ensures Sum(s) >= 0.0
    decreases |s|
  {
    if s != [] {
      SumNonNegative(s[..|s| - 1]);
    }
  }

  /** Every term of a non-negative sequence is at most its sum. */
  lemma {:induction false} TermAtMostSum(s: seq<real>, k: nat)
    requires forall i :: 0 <= i < |s| ==> s[i] >= 0.0
    requires k < |s|
    ensures s[k] <= Sum(s)
    decreases |s|
  {
    SumNonNegative(s[..|s| - 1]);
    if k < |s| - 1 {
      TermAtMostSum(s[..|s| - 1], k);
    }
  }

  /** A sequence of zeros sums to zero. */
  lemma {:induction false} SumOfZeros(s: seq<real>)
    requires forall i :: 0 <= i < |s| ==> s[i] == 0.0
    ensures Sum(s) == 0.0
    decreases |s|
  {
    if s != [] {
      SumOfZeros(s[..|s| - 1]);
    }
  }

  /** `n` copies of `x`, Python's `[x] * n`. */
  function Repeat<T>(x: T, n: nat): (r: seq<T>)
    ensures |r| == n && forall i :: 0 <= i < n ==> r[i] == x
  {
    if n == 0 then [] else Repeat(x, n - 1) + [x]
  }

  /**
   * A numpy RandomState: the seed it was built from and how many draws it has
   * served so far. The values themselves come from a Stream.
   */
  datatype RandomState = RandomState(seed: int, position: nat)

  /** A uniform draw from [0, 1), what `rand()` returns. */
  type Unit = r: real | 0.0 <= r < 1.0

  /**
   * The draw sequence of every seed: draw number k of a generator seeded
   * with s is stream(s, k). Every other distribution is an image of these.
   */
  type Stream = (int, nat) -> Unit

  /**
   * The image of a unit draw under a distribution with two parameters
   * (normal, lognormal, beta), as numpy computes it.
   */
  type Distribution = (real, real, Unit) -> real

  /** A generator freshly built from `seed`, as `np.random.RandomState(seed)`. */
  function Seeded(seed: int): RandomState
  {
    RandomState(seed, 0)
  }

  /** Python's `min(a, b)` on floats. */
  function MinReal(a: real, b: real): (m: real)
    ensures m <= a && m <= b && (m == a || m == b)
  {
    if b < a then b else a
  }

  /** The next draw of `rs` and the advanced state. */
  function Draw(rs: RandomState, stream: Stream): (Unit, RandomState)
  {
    (stream(rs.seed, rs.position), RandomState(rs.seed, rs.position + 1))
  }

  /** The next `n` draws of `rs`, in order, and the state after them. */
  function Draws(rs: RandomState, stream: Stream, n: nat): (r: (seq<Unit>, RandomState))
    ensures |r.0| == n && r.1 == RandomState(rs.seed, rs.position + n)
    ensures forall i :: 0 <= i < n ==> r.0[i] == stream(rs.seed, rs.position + i)
  {
    if n == 0 then ([], rs)
    else
      var first := Draws(rs, stream, n - 1);
      (first.0 + [stream(rs.seed, rs.position + n - 1)], RandomState(rs.seed, rs.position + n))
  }

  /** `uniform(low, high)` as the image of a unit draw. */
  function Uniform(low: real, high: real, u: Unit): (x: real)
    ensures low <= high ==> low <= x && (x < high || low == high)
  {
    low + Portion(high - low, u)
  }

  /** The share `u` of a width `w`: for a non-negative width, in [0, w), or 0 when w is 0. */
  function Portion(w: real, u: Unit): (p: real)
    ensures w >= 0.0 ==> 0.0 <= p <= w
    ensures w > 0.0 ==> p < w
  {
    if w > 0.0 then
      assert w * u < w * 1.0;
      w * u
    else w * u
  }

  /** `randint(0, n)` as the image of a unit draw: an integer in [0, n). */
  function RandInt(u: Unit, n: nat): (k: nat)
    requires n > 0
    ensures k < n
  {
    var x := u * n as real;
    assert 0.0 <= x < n as real;
    x.Floor
  }

  /** `s[k]`, or `default` past the end of `s`. */
  function AtOr<T>(s: seq<T>, k: nat, default: T): (x: T)
    ensures k < |s| ==> x == s[k]
    ensures |s| <= k ==> x == default
  {
    if k < |s| then s[k] else default
  }

  /** Python's `s[i]`: a negative index counts from the end; out of range raises IndexError. */
  function PyIndex<T>(s: seq<T>, i: int): (r: Result<T>)
    ensures r.Ok? <==> -|s| <= i < |s|
  {
    if 0 <= i < |s| then Ok(s[i])
    else if -|s| <= i < 0 then Ok(s[|s| + i])
    else Err(IndexError)
  }

  /** The position Python's `s[i]` reads in a sequence of length `n`. */
  function PyPosition(n: nat, i: int): (r: Result<nat>)
    ensures r.Ok? <==> -(n as int) <= i < n
    ensures r.Ok? ==> r.value < n && (if i >= 0 then r.value == i else r.value == n + i)
    ensures r.Err? ==> r.error == IndexError
  {
    if 0 <= i < n then Ok(i)
    else if -(n as int) <= i < 0 then Ok(n + i)
    else Err(IndexError)
  }

  /** The elements of `s` in reverse order, Python's `s[::-1]`. */
  function Reversed<T>(s: seq<T>): (r: seq<T>)
    ensures |r| == |s| && forall i :: 0 <= i < |s| ==> r[i] == s[|s| - 1 - i]
  {
    if s == [] then [] else Reversed(s[1..]) + [s[0]]
  }

  /** Whether `s` has no repeated element. */
  predicate Distinct<T(==)>(s: seq<T>)
  {
    forall i, j :: 0 <= i < j < |s| ==> s[i] != s[j]
  }

  /** `int(b)` of a boolean. */
  function Indicator(b: bool): (n: int)
    ensures (n == 1 <==> b) && (n == 0 <==> !b)
  {
    if b then 1 else 0
  }

  /**
   * Real multiplication behind a function symbol, so that the solver treats
   * equal factors as giving equal products; the arithmetic facts about it are
   * proved in small lemmas.
   */
  function Mul(x: real, y: real): real
  {
    x * y
  }

  /** The point a fraction `t` of the way from a to b. */
  function Lerp(a: real, b: real, t: real): (x: real)
    ensures t == 0.0 ==> x == a
    ensures t == 1.0 ==> x == b
    ensures a <= b && 0.0 <= t <= 1.0 ==> a <= x <= b
  {
    FractionOfWidth(b - a, t);
    a + Mul(b - a, t)
  }

  /** A fraction `t` of a width `w`: none of it, all of it, or for t in [0, 1] something in between. */
  lemma {:induction false} FractionOfWidth(w: real, t: real)
    ensures t == 0.0 ==> Mul(w, t) == 0.0
    ensures t == 1.0 ==> Mul(w, t) == w
    ensures w >= 0.0 && 0.0 <= t <= 1.0 ==> 0.0 <= Mul(w, t) <= w
  {
    assert Mul(w, t) == w * t;
    if w >= 0.0 && 0.0 <= t <= 1.0 {
      assert w * t <= w * 1.0;
    }
  }

  /** `np.linspace(a, b, n)`: n evenly spaced points from a to b, both ends included. */
  function Linspace(a: real, b: real, n: nat): (xs: seq<real>)
    ensures |xs| == n
    ensures n >= 1 ==> xs[0] == a
    ensures n >= 2 ==> xs[n - 1] == b
    ensures a <= b ==> forall i :: 0 <= i < n ==> a <= xs[i] <= b
  {
    seq(n, i requires 0 <= i < n => if n == 1 then a else Lerp(a, b, LinspaceFraction(i, n)))
  }

  /** The fraction `i / (n - 1)` of the way along `n` evenly spaced points. */
  function LinspaceFraction(i: nat, n: nat): (t: real)
    requires i < n && n >= 2
    ensures 0.0 <= t <= 1.0
    ensures i == 0 ==> t == 0.0
    ensures i == n - 1 ==> t == 1.0
  {
    var last := (n - 1) as real;
    assert i as real <= last;
    i as real / last
  }

  /** Later fractions along the points are larger. */
  lemma {:induction false} LinspaceFractionMonotone(i: nat, j: nat, n: nat)
    requires i <= j < n && n >= 2
    ensures LinspaceFraction(i, n) <= LinspaceFraction(j, n)
  {
    var last := (n - 1) as real;
    assert j as real / last - i as real / last == (j - i) as real / last;
  }

  /** A larger fraction of a non-negative width is larger; of a non-positive one, smaller. */
  lemma {:induction false} FractionMonotone(w: real, s: real, t: real)
    requires s <= t
    ensures w >= 0.0 ==> Mul(w, s) <= Mul(w, t)
    ensures w <= 0.0 ==> Mul(w, s) >= Mul(w, t)
  {
    assert Mul(w, t) - Mul(w, s) == w * (t - s);
    if w >= 0.0 {
      assert w * (t - s) >= 0.0 * (t - s);
    } else {
      assert w * (t - s) <= 0.0 * (t - s);
    }
  }

  /** The points run from a to b: non-decreasing when a <= b and non-increasing when b <= a. */
  lemma {:induction false} LinspaceMonotone(a: real, b: real, n: nat)
    ensures a <= b ==> forall i, j :: 0 <= i <= j < n ==> Linspace(a, b, n)[i] <= Linspace(a, b, n)[j]
    ensures b <= a ==> forall i, j :: 0 <= i <= j < n ==> Linspace(a, b, n)[i] >= Linspace(a, b, n)[j]
  {
    var xs := Linspace(a, b, n);
    forall i, j | 0 <= i <= j < n
      ensures a <= b ==> xs[i] <= xs[j]
      ensures b <= a ==> xs[i] >= xs[j]
    {
      if n >= 2 {
        LinspaceFractionMonotone(i, j, n);
        FractionMonotone(b - a, LinspaceFraction(i, n), LinspaceFraction(j, n));
      }
    }
  }
}
