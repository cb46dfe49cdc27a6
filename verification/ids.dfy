/** The id wrappers of the execution bindings: `ClientOrderId`, `OrderId`
    and `StrategyId` refuse blank strings, and the coercions accept either
    an existing id object or a non-blank string. A random client id is an
    input, not something the model generates. */
module Ids {
  import opened Wrappers
  import opened Errors
  import Text
  import Execution

  /** `ensure_non_empty`: blank means empty after `str::trim`. */
  function EnsureNonEmpty(value: string, what: string): (r: Outcome<PyErr>)
    ensures r.Pass? <==> !Text.AllWhitespace(value)
    ensures r.Fail? ==> r.error == ValueError(what + " must not be empty")
  {
    if Text.Trim(value) == [] then Fail(ValueError(what + " must not be empty")) else Pass
  }

  /** `ClientOrderId(value)`; the `value` getter reads the string back. */
  function NewClientOrderId(value: string): (r: Result<Execution.ClientOrderId, PyErr>)
    ensures r.Success? <==> !Text.AllWhitespace(value)
    ensures r.Success? ==> r.value.value == value
    ensures r.Failure? ==> r.error == ValueError("client order id" + " must not be empty")
  {
    var what := "client order id";
    :- EnsureNonEmpty(value, what);
    Success(Execution.ClientOrderId(value))
  }

  /** `OrderId(value)`. */
  function NewOrderId(value: string): (r: Result<Execution.OrderId, PyErr>)
    ensures r.Success? <==> !Text.AllWhitespace(value)
    ensures r.Success? ==> r.value.value == value
    ensures r.Failure? ==> r.error == ValueError("order id" + " must not be empty")
  {
    var what := "order id";
    :- EnsureNonEmpty(value, what);
    Success(Execution.OrderId(value))
  }

  /** `StrategyId(value)`. */
  function NewStrategyId(value: string): (r: Result<Execution.StrategyId, PyErr>)
    ensures r.Success? <==> !Text.AllWhitespace(value)
    ensures r.Success? ==> r.value.value == value
    ensures r.Failure? ==> r.error == ValueError("strategy id" + " must not be empty")
  {
    var what := "strategy id";
    :- EnsureNonEmpty(value, what);
    Success(Execution.StrategyId(value))
  }

  /** The empty string and strings of spaces, tabs and newlines are refused;
      a string with any other character is kept as it is, surrounding
      whitespace included. */
  lemma BlankIdsRefused(pad: string, value: string)
    requires Text.AllWhitespace(pad)
    requires !Text.AllWhitespace(value)
    ensures NewClientOrderId(pad).Failure? && NewOrderId(pad).Failure? && NewStrategyId(pad).Failure?
    ensures NewClientOrderId(pad + value + pad) == Success(Execution.ClientOrderId(pad + value + pad))
    ensures NewStrategyId("").Failure? && NewStrategyId(" \t\n").Failure?
  {
    var padded := pad + value + pad;
    var i :| 0 <= i < |value| && !Text.IsWhitespace(value[i]);
    assert padded[|pad| + i] == value[i];
    assert Text.AllWhitespace(" \t\n") by {
      assert forall k :: 0 <= k < 3 ==> Text.IsWhitespace(" \t\n"[k]);
    }
  }

  /** A Python argument where an id is expected. */
  datatype IdArg =
    | ClientOrderIdArg(cid: Execution.ClientOrderId)
    | StrategyIdArg(sid: Execution.StrategyId)
    | StrArg(text: string)
    /** Any other object; `typeName` is its Python type's name. */
    | OtherArg(typeName: string)

  /** `extract_string`: the argument must be a `str` (a TypeError otherwise)
      and must not be blank. */
  function ExtractString(value: IdArg, what: string): (r: Result<string, PyErr>)
    ensures r.Success? <==> value.StrArg? && !Text.AllWhitespace(value.text)
    ensures r.Success? ==> r.value == value.text
    ensures !value.StrArg? ==> r.Failure? && r.error.TypeError?
    ensures value.StrArg? && r.Failure? ==> r.error == ValueError(what + " must not be empty")
  {
    match value
    case StrArg(text) =>
      :- EnsureNonEmpty(text, what);
      Success(text)
    case ClientOrderIdArg(_) => Failure(TypeError("'ClientOrderId' object cannot be converted to 'PyString'"))
    case StrategyIdArg(_) => Failure(TypeError("'StrategyId' object cannot be converted to 'PyString'"))
    case OtherArg(name) => Failure(TypeError("'" + name + "' object cannot be converted to 'PyString'"))
  }

  /** `coerce_strategy_id`. */
  function CoerceStrategyId(value: IdArg): (r: Result<Execution.StrategyId, PyErr>)
    ensures value.StrategyIdArg? ==> r == Success(value.sid)
    ensures value.StrArg? ==> r == NewStrategyId(value.text)
    ensures value.ClientOrderIdArg? || value.OtherArg? ==> r.Failure? && r.error.TypeError?
  {
    if value.StrategyIdArg? then Success(value.sid)
    else
      var text :- ExtractString(value, "strategy id");
      Success(Execution.StrategyId(text))
  }

  /** `coerce_client_order_id`: no argument means a random id. */
  function CoerceClientOrderId(value: Option<IdArg>, random: Execution.ClientOrderId): (r: Result<Execution.ClientOrderId, PyErr>)
    ensures value.None? ==> r == Success(random)
    ensures value.Some? && value.value.ClientOrderIdArg? ==> r == Success(value.value.cid)
    ensures value.Some? && value.value.StrArg? ==> r == NewClientOrderId(value.value.text)
    ensures value.Some? && (value.value.StrategyIdArg? || value.value.OtherArg?) ==> r.Failure? && r.error.TypeError?
  {
    match value
    case None => Success(random)
    case Some(arg) =>
      if arg.ClientOrderIdArg? then Success(arg.cid)
      else
        var text :- ExtractString(arg, "client order id");
        Success(Execution.ClientOrderId(text))
  }

  /** Coercing an id back from the id or from its own string gives the same
      id, whenever the string is not blank. */
  lemma CoercionsRoundTrip(cid: Execution.ClientOrderId, sid: Execution.StrategyId, random: Execution.ClientOrderId)
    requires !Text.AllWhitespace(cid.value) && !Text.AllWhitespace(sid.value)
    ensures CoerceClientOrderId(Some(StrArg(cid.value)), random) == CoerceClientOrderId(Some(ClientOrderIdArg(cid)), random)
    ensures CoerceStrategyId(StrArg(sid.value)) == CoerceStrategyId(StrategyIdArg(sid))
  {
  }
}
