/** The Python values the bindings receive as untyped arguments, reduced to
    the distinctions the bindings draw: `None`, numbers, text and bytes,
    lists, tuples, dicts with string keys, other iterables, `datetime`
    instances, and anything else. */
module PyObjects {
  import opened Wrappers
  import Floats

  datatype PyObj =
    | PyNone
    | PyBool(b: bool)
    | PyInt(i: int)
    | PyFloat(f: Floats.Float)
    | PyStr(s: string)
    | PyBytes(bytes: seq<int>)
    | PyList(items: seq<PyObj>)
    | PyTuple(items: seq<PyObj>)
    | PyDict(entries: seq<(string, PyObj)>)
    /** An object with `__iter__` that is none of the above (a generator, a
        set, a range, ...), with the items iterating it yields. */
    | PyIterable(items: seq<PyObj>)
    /** A `datetime.datetime`, as microseconds since the epoch. */
    | PyDateTime(micros: int)
    /** An object of another class that defines `__float__` or `__index__`
        (a `Decimal`, a `Fraction`, a numpy scalar), with the float that
        conversion gives, or nothing when the conversion raises. */
    | PyNumberLike(typeName: string, asFloat: Option<Floats.Float>)
    /** Any other object, identified by its type name. */
    | PyOther(typeName: string)

  /** The first value stored under `key` in a dict's entries (`dict.get_item`). */
  function DictGet(entries: seq<(string, PyObj)>, key: string): (r: Lookup)
    ensures r.Missing? <==> forall i :: 0 <= i < |entries| ==> entries[i].0 != key
    ensures r.Found? ==> exists i :: 0 <= i < |entries| && entries[i] == (key, r.value)
  {
    if entries == [] then Missing
    else if entries[0].0 == key then Found(entries[0].1)
    else
      var r := DictGet(entries[1..], key);
      assert forall i :: 1 <= i < |entries| ==> entries[i] == entries[1..][i - 1];
      r
  }

  datatype Lookup = Found(value: PyObj) | Missing

  /** The smallest integer magnitude `PyLong_AsDouble` refuses with
      `OverflowError`: 2^1024 - 2^970, the midpoint between the largest
      double and 2^1024, which round-half-even sends to 2^1024. */
  const DoubleOverflowBound: int :=
    0xFFFFFFFFFFFFFC_0000000000000000000000_0000000000000000000000_0000000000000000000000_0000000000000000000000_0000000000000000000000_0000000000000000000000_0000000000000000000000_0000000000000000000000_0000000000000000000000_0000000000000000000000_0000000000000000000000

  predicate FitsDouble(i: int) {
    -DoubleOverflowBound < i < DoubleOverflowBound
  }

  /** `extract::<f64>()`, that is `PyFloat_AsDouble`: floats as they are,
      `int` and `bool` through their `__index__` unless too wide for a
      double, and other objects through `__float__` or `__index__`. */
  function AsFloat(o: PyObj): (r: Option<Floats.Float>)
    ensures r.Some? <==>
      o.PyFloat? || (o.PyInt? && FitsDouble(o.i)) || o.PyBool? || (o.PyNumberLike? && o.asFloat.Some?)
    ensures o.PyFloat? ==> r == Some(o.f)
    ensures o.PyInt? && FitsDouble(o.i) ==> r == Some(Floats.Finite(o.i as real))
    ensures o.PyBool? ==> r == Some(Floats.Finite(if o.b then 1.0 else 0.0))
    ensures o.PyNumberLike? ==> r == o.asFloat
  {
    match o
    case PyFloat(f) => Some(f)
    case PyInt(i) => if FitsDouble(i) then Some(Floats.Finite(i as real)) else None
    case PyBool(b) => Some(Floats.Finite(if b then 1.0 else 0.0))
    case PyNumberLike(_, f) => f
    case _ => None
  }

  /** An integer one below the bound converts, and the bound itself does not. */
  lemma OverflowBoundary()
    ensures AsFloat(PyInt(DoubleOverflowBound - 1)).Some?
    ensures AsFloat(PyInt(DoubleOverflowBound)).None?
    ensures AsFloat(PyInt(-DoubleOverflowBound)).None?
  {
  }
}
