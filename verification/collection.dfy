/** The `NoneOneOrMany` and `OneOrMany` collections as the Python bindings
    build them from positional arguments: which arguments count as an
    iterable to unpack, which variant results, and the list they read back
    as. */
module Collection {
  import opened Wrappers
  import opened Errors
  import opened PyObjects

  /** `barter_integration`'s `OneOrMany`. */
  datatype OneOrMany<T> = One(item: T) | Many(items: seq<T>)

  /** `barter_integration`'s `NoneOneOrMany`. */
  datatype NoneOneOrMany<T> = NoneOf | OneOf(item: T) | ManyOf(items: seq<T>)

  /** `NoneOneOrMany::from(Vec)`: no item is `None`, one item is `One`. */
  function NoneOneOrManyFrom<T>(items: seq<T>): (r: NoneOneOrMany<T>)
    ensures r.NoneOf? <==> |items| == 0
    ensures r.OneOf? <==> |items| == 1
    ensures r.OneOf? ==> r.item == items[0]
    ensures r.ManyOf? ==> r.items == items
  {
    if |items| == 0 then NoneOf
    else if |items| == 1 then OneOf(items[0])
    else ManyOf(items)
  }

  /** `OneOrMany::from(Vec)` on a non-empty vector. */
  function OneOrManyFrom<T>(items: seq<T>): (r: OneOrMany<T>)
    requires |items| > 0
    ensures r.One? <==> |items| == 1
    ensures r.One? ==> r.item == items[0]
    ensures r.Many? ==> r.items == items
  {
    if |items| == 1 then One(items[0]) else Many(items)
  }

  /** `PyNoneOneOrMany::to_py_list`: the items in order. */
  function NoneOneOrManyToList<T>(x: NoneOneOrMany<T>): (r: seq<T>)
    ensures x.NoneOf? ==> r == []
    ensures x.OneOf? ==> r == [x.item]
    ensures x.ManyOf? ==> r == x.items
  {
    match x
    case NoneOf => []
    case OneOf(item) => [item]
    case ManyOf(items) => items
  }

  /** `PyOneOrMany::to_py_list`. */
  function OneOrManyToList<T>(x: OneOrMany<T>): (r: seq<T>)
    ensures x.One? ==> r == [x.item]
    ensures x.Many? ==> r == x.items
  {
    match x
    case One(item) => [item]
    case Many(items) => items
  }

  /** `__len__`: `NoneOneOrMany::len`. */
  function NoneOneOrManyLen<T>(x: NoneOneOrMany<T>): (n: nat) {
    match x
    case NoneOf => 0
    case OneOf(_) => 1
    case ManyOf(items) => |items|
  }

  /** `__len__`: `OneOrMany::len`. */
  function OneOrManyLen<T>(x: OneOrMany<T>): (n: nat) {
    match x
    case One(_) => 1
    case Many(items) => |items|
  }

  /** Building from a vector and reading back as a list is the identity, and
      `len` is the length of that list. */
  lemma FromToListRoundTrip<T>(items: seq<T>, x: NoneOneOrMany<T>, y: OneOrMany<T>)
    ensures NoneOneOrManyToList(NoneOneOrManyFrom(items)) == items
    ensures |items| > 0 ==> OneOrManyToList(OneOrManyFrom(items)) == items
    ensures NoneOneOrManyLen(x) == |NoneOneOrManyToList(x)|
    ensures OneOrManyLen(y) == |OneOrManyToList(y)|
  {
  }

  /** `extract_iterable`: text, bytes and dicts are never unpacked; lists,
      tuples and other objects with `__iter__` yield their items. */
  function ExtractIterable(value: PyObj): (r: Option<seq<PyObj>>)
    ensures value.PyStr? || value.PyBytes? || value.PyDict? ==> r.None?
    ensures r.Some? <==> value.PyList? || value.PyTuple? || value.PyIterable?
    ensures r.Some? ==> r.value == value.items
  {
    match value
    case PyStr(_) => None
    case PyBytes(_) => None
    case PyDict(_) => None
    case PyList(items) => Some(items)
    case PyTuple(items) => Some(items)
    case PyIterable(items) => Some(items)
    case _ => None
  }

  /** `NoneOneOrMany(*values)`. */
  function NewNoneOneOrMany(values: seq<PyObj>): (r: NoneOneOrMany<PyObj>)
    ensures |values| == 0 ==> r.NoneOf?
    ensures |values| == 1 && values[0].PyNone? ==> r.NoneOf?
    ensures |values| == 1 && ExtractIterable(values[0]).Some? ==>
      NoneOneOrManyToList(r) == ExtractIterable(values[0]).value
    ensures |values| == 1 && !values[0].PyNone? && ExtractIterable(values[0]).None? ==> r == OneOf(values[0])
    ensures |values| >= 2 ==> r.ManyOf? && NoneOneOrManyToList(r) == values
  {
    if |values| == 0 then NoneOf
    else if |values| == 1 then
      if values[0].PyNone? then NoneOf
      else match ExtractIterable(values[0])
        case Some(items) => NoneOneOrManyFrom(items)
        case None => OneOf(values[0])
    else NoneOneOrManyFrom(values)
  }

  /** A single `None`, text, bytes or dict argument is never unpacked. */
  lemma NoneOneOrManySingleScalar(v: PyObj)
    requires v.PyStr? || v.PyBytes? || v.PyDict?
    ensures NewNoneOneOrMany([v]) == OneOf(v)
    ensures NoneOneOrManyLen(NewNoneOneOrMany([v])) == 1
    ensures NewNoneOneOrMany([PyNone]) == NoneOf && NoneOneOrManyLen(NewNoneOneOrMany([])) == 0
  {
  }

  /** `NoneOneOrMany.one`. */
  function NoneOneOrManyOne<T>(value: T): (r: NoneOneOrMany<T>)
    ensures NoneOneOrManyToList(r) == [value]
  {
    OneOf(value)
  }

  /** `NoneOneOrMany.many`: the argument must be an iterable. */
  function NoneOneOrManyMany(iterable: PyObj): (r: Result<NoneOneOrMany<PyObj>, PyErr>)
    ensures r.Success? <==> ExtractIterable(iterable).Some?
    ensures r.Success? ==> NoneOneOrManyToList(r.value) == ExtractIterable(iterable).value
    ensures r.Failure? ==> r.error == ValueError("expected an iterable to construct NoneOneOrMany.many")
  {
    match ExtractIterable(iterable)
    case None => Failure(ValueError("expected an iterable to construct NoneOneOrMany.many"))
    case Some(items) => Success(NoneOneOrManyFrom(items))
  }

  const EmptyOneOrManyIterable := "OneOrMany iterable must contain at least one element"

  /** `OneOrMany(*values)`: at least one value, and a single iterable
      argument must not be empty. */
  function NewOneOrMany(values: seq<PyObj>): (r: Result<OneOrMany<PyObj>, PyErr>)
    ensures |values| == 0 ==> r == Failure(ValueError("OneOrMany requires at least one value"))
    ensures |values| == 1 && ExtractIterable(values[0]) == Some([]) ==> r == Failure(ValueError(EmptyOneOrManyIterable))
    ensures r.Success? <==> |values| > 0 && !(|values| == 1 && ExtractIterable(values[0]) == Some([]))
    ensures |values| == 1 && r.Success? && ExtractIterable(values[0]).Some? ==>
      OneOrManyToList(r.value) == ExtractIterable(values[0]).value
    ensures |values| == 1 && ExtractIterable(values[0]).None? ==> r == Success(One(values[0]))
    ensures |values| >= 2 ==> r.Success? && r.value.Many? && OneOrManyToList(r.value) == values
  {
    if |values| == 0 then Failure(ValueError("OneOrMany requires at least one value"))
    else if |values| == 1 then
      match ExtractIterable(values[0])
      case Some(items) =>
        if |items| == 0 then Failure(ValueError(EmptyOneOrManyIterable))
        else Success(OneOrManyFrom(items))
      case None => Success(One(values[0]))
    else Success(OneOrManyFrom(values))
  }

  /** `OneOrMany.one`. */
  function OneOrManyOne<T>(value: T): (r: OneOrMany<T>)
    ensures OneOrManyToList(r) == [value]
  {
    One(value)
  }

  /** `OneOrMany.many`: the argument must be a non-empty iterable. */
  function OneOrManyMany(iterable: PyObj): (r: Result<OneOrMany<PyObj>, PyErr>)
    ensures ExtractIterable(iterable).None? ==>
      r == Failure(ValueError("expected an iterable to construct OneOrMany.many"))
    ensures ExtractIterable(iterable) == Some([]) ==> r == Failure(ValueError(EmptyOneOrManyIterable))
    ensures r.Success? <==> ExtractIterable(iterable).Some? && ExtractIterable(iterable).value != []
    ensures r.Success? ==> OneOrManyToList(r.value) == ExtractIterable(iterable).value
  {
    match ExtractIterable(iterable)
    case None => Failure(ValueError("expected an iterable to construct OneOrMany.many"))
    case Some(items) =>
      if |items| == 0 then Failure(ValueError(EmptyOneOrManyIterable))
      else Success(OneOrManyFrom(items))
  }

  /** A `OneOrMany` is never empty, however it was built. */
  lemma OneOrManyNeverEmpty(values: seq<PyObj>, iterable: PyObj)
    ensures NewOneOrMany(values).Success? ==> OneOrManyLen(NewOneOrMany(values).value) >= 1
    ensures OneOrManyMany(iterable).Success? ==> OneOrManyLen(OneOrManyMany(iterable).value) >= 1
  {
  }
}
