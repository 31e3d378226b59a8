// Gym spaces and the observations that conform to them. Observations are
// Python dicts, tuples, numpy arrays and scalars; here they are one closed
// datatype, and a dict is its list of (key, value) entries in key order.
module Spaces {
  import opened Basics

  /**
   * The gym spaces the modelled code builds or inspects. A Box carries its
   * shape and its bounds flattened in row-major order (a 0-dimensional Box
   * has shape [] and one bound each). A MultiDiscrete space is the slate
   * action space, one entry of `nvec` per slate position. MultiBinary stands
   * for every space kind the code does not handle.
   */
  datatype Space =
    | Discrete(n: nat)
    | Box(shape: seq<nat>, low: seq<Bound>, high: seq<Bound>)
    | TupleSpace(parts: seq<Space>)
    | DictSpace(fields: seq<(string, Space)>)
    | MultiDiscrete(nvec: seq<nat>)
    | MultiBinary(size: nat)

  /** A bound of a Box: a real number or an infinity (`np.inf` when `positive`). */
  datatype Bound = Bounded(x: real) | Unbounded(positive: bool)

  /** Observation values: None, numbers, numpy vectors, tuples/lists and dicts. */
  datatype Value =
    | VNone
    | VInt(i: int)
    | VReal(r: real)
    | VArray(reals: seq<real>)
    | VTuple(elems: seq<Value>)
    | VDict(entries: seq<(string, Value)>)

  /** The keys of a list of dict entries, in order. */
  function Keys<V>(entries: seq<(string, V)>): (ks: seq<string>)
    ensures |ks| == |entries| && forall i :: 0 <= i < |entries| ==> ks[i] == entries[i].0
  {
    if entries == [] then [] else Keys(entries[..|entries| - 1]) + [entries[|entries| - 1].0]
  }

  /** `d[key]` on a dict given by its entries: the first entry with that key, else KeyError. */
  function Lookup<V(==)>(entries: seq<(string, V)>, key: string): (r: Result<V>)
    ensures r.Ok? <==> key in Keys(entries)
    ensures r.Ok? ==> exists i :: 0 <= i < |entries| && entries[i] == (key, r.value)
    ensures r.Err? ==> r.error == KeyError
  {
    if entries == [] then Err(KeyError)
    else if entries[0].0 == key then Ok(entries[0].1)
    else
      var r := Lookup(entries[1..], key);
      assert Keys(entries) == [entries[0].0] + Keys(entries[1..]);
      if r.Ok? then
        var i :| 0 <= i < |entries[1..]| && entries[1..][i] == (key, r.value);
        assert entries[i + 1] == (key, r.value);
        r
      else r
  }

  /** An entry whose key no earlier entry has is what a lookup of that key finds. */
  lemma {:induction false} LookupFirstOccurrence<V>(entries: seq<(string, V)>, i: nat)
    requires i < |entries| && forall j :: 0 <= j < i ==> entries[j].0 != entries[i].0
    ensures Lookup(entries, entries[i].0) == Ok(entries[i].1)
  {
    if i > 0 {
      LookupFirstOccurrence(entries[1..], i - 1);
    }
  }

  /** `observation[key]`: only a dict can be subscripted by a string. */
  function Field(v: Value, key: string): (r: Result<Value>)
    ensures v.VDict? ==> r == Lookup(v.entries, key)
    ensures !v.VDict? ==> r == Err(TypeError)
  {
    if v.VDict? then Lookup(v.entries, key) else Err(TypeError)
  }

  /** `observation[i]` on a tuple (IndexError past its end); other values are not modelled as indexable. */
  function Item(v: Value, i: nat): (r: Result<Value>)
    ensures r.Ok? <==> v.VTuple? && i < |v.elems|
    ensures r.Ok? ==> r.value == v.elems[i]
  {
    if !v.VTuple? then Err(TypeError)
    else if i < |v.elems| then Ok(v.elems[i])
    else Err(IndexError)
  }

  /**
   * Python truthiness of an observation value, as `if v:` reads it. A numpy
   * array is false when empty and is its one element's truth value when it
   * has one; an array of several elements raises ValueError (its truth value
   * is ambiguous).
   */
  function Truthy(v: Value): (r: Result<bool>)
    ensures r.Err? <==> v.VArray? && |v.reals| > 1
    ensures r.Err? ==> r.error == ValueError
    ensures v.VArray? && |v.reals| == 1 ==> r == Ok(v.reals[0] != 0.0)
    ensures v.VArray? && v.reals == [] ==> r == Ok(false)
    ensures (v.VTuple? || v.VDict? || v.VNone?) ==> r == Ok(v != VNone && v != VTuple([]) && v != VDict([]))
    ensures v.VInt? ==> r == Ok(v.i != 0)
    ensures v.VReal? ==> r == Ok(v.r != 0.0)
  {
    match v
    case VNone => Ok(false)
    case VInt(i) => Ok(i != 0)
    case VReal(x) => Ok(x != 0.0)
    case VArray(xs) =>
      if |xs| > 1 then Err(ValueError)
      else Ok(xs != [] && xs[0] != 0.0)
    case VTuple(es) => Ok(es != [])
    case VDict(es) => Ok(es != [])
  }

  /** `float(v)` of a numeric observation value; other values raise TypeError. */
  function AsReal(v: Value): (r: Result<real>)
    ensures r.Ok? <==> v.VInt? || v.VReal?
    ensures v.VInt? ==> r == Ok(v.i as real)
    ensures v.VReal? ==> r == Ok(v.r)
  {
    match v
    case VInt(i) => Ok(i as real)
    case VReal(x) => Ok(x)
    case _ => Err(TypeError)
  }

  /** Python's `int(x)` of a real: truncation toward zero. */
  function Truncate(x: real): (n: int)
    ensures x >= 0.0 ==> n as real <= x < n as real + 1.0
    ensures x < 0.0 ==> n as real - 1.0 < x <= n as real
  {
    if x >= 0.0 then x.Floor else -((-x).Floor)
  }

  /** `int(v)` of a numeric observation value; other values raise TypeError. */
  function AsInt(v: Value): (r: Result<int>)
    ensures r.Ok? <==> v.VInt? || v.VReal?
    ensures v.VInt? ==> r == Ok(v.i)
  {
    match v
    case VInt(i) => Ok(i)
    case VReal(x) => Ok(Truncate(x))
    case _ => Err(TypeError)
  }

  /**
   * `key in space.spaces`: a Dict has its keys; a Tuple's parts are spaces,
   * never a string; other spaces have no parts.
   */
  function HasPart(space: Space, key: string): (r: Result<bool>)
    ensures r == Ok(true) <==> space.DictSpace? && key in Keys(space.fields)
    ensures r.Err? <==> !space.DictSpace? && !space.TupleSpace?
  {
    match space
    case DictSpace(fields) => Ok(key in Keys(fields))
    case TupleSpace(_) => Ok(false)
    case _ => Err(AttributeError)
  }

  /** `space.spaces[key]` of an observation space: only a Dict space has named parts. */
  function SpaceField(space: Space, key: string): (r: Result<Space>)
    ensures space.DictSpace? ==> r == Lookup(space.fields, key)
    ensures space.TupleSpace? ==> r == Err(TypeError)
    ensures !space.DictSpace? && !space.TupleSpace? ==> r == Err(AttributeError)
  {
    match space
    case DictSpace(fields) => Lookup(fields, key)
    case TupleSpace(_) => Err(TypeError)
    case _ => Err(AttributeError)
  }
}
