/** The command bindings: order keys and order requests as Python builds
    them, the case-insensitive parsers for side, order kind and
    time-in-force, and the instrument-filter constructors. */
module Command {
  import opened Wrappers
  import opened Errors
  import Text
  import Floats
  import Instruments
  import Execution
  import Collection

  /** `PyOrderKey::new`: no check on the strategy or client id strings; a
      missing client id is a fresh random one. */
  function NewOrderKey(exchange: nat, instrument: nat, strategyId: string, clientOrderId: Option<string>,
                       random: Execution.ClientOrderId): (r: Execution.OrderKey<nat, nat>)
    ensures r.exchange == exchange && r.instrument == instrument
    ensures r.strategy.value == strategyId
    ensures clientOrderId.Some? ==> r.cid.value == clientOrderId.value
    ensures clientOrderId.None? ==> r.cid == random
  {
    Execution.OrderKey(exchange, instrument, Execution.StrategyId(strategyId),
                       if clientOrderId.Some? then Execution.ClientOrderId(clientOrderId.value) else random)
  }

  /** `parse_side`. */
  function ParseSide(value: string): (r: Result<Instruments.Side, PyErr>)
    ensures r == Success(Instruments.Buy) <==> Text.ToAsciiLower(value) in {"buy", "b"}
    ensures r == Success(Instruments.Sell) <==> Text.ToAsciiLower(value) in {"sell", "s"}
    ensures r.Failure? ==> r.error == ValueError("invalid side: " + Text.ToAsciiLower(value))
  {
    var lowered := Text.ToAsciiLower(value);
    if lowered == "buy" || lowered == "b" then Success(Instruments.Buy)
    else if lowered == "sell" || lowered == "s" then Success(Instruments.Sell)
    else Failure(ValueError("invalid side: " + lowered))
  }

  /** The `side` getter of `OrderRequestOpen`. */
  function SideName(side: Instruments.Side): string {
    match side
    case Buy => "buy"
    case Sell => "sell"
  }

  /** `parse_order_kind`. */
  function ParseOrderKind(value: string): (r: Result<Execution.OrderKind, PyErr>)
    ensures r == Success(Execution.Market) <==> Text.ToAsciiLower(value) in {"market", "mkt"}
    ensures r == Success(Execution.Limit) <==> Text.ToAsciiLower(value) in {"limit", "lmt"}
    ensures r.Failure? ==> r.error == ValueError("invalid order kind: " + Text.ToAsciiLower(value))
  {
    var lowered := Text.ToAsciiLower(value);
    if lowered == "market" || lowered == "mkt" then Success(Execution.Market)
    else if lowered == "limit" || lowered == "lmt" then Success(Execution.Limit)
    else Failure(ValueError("invalid order kind: " + lowered))
  }

  /** The `kind` getter of `OrderRequestOpen`. */
  function OrderKindName(kind: Execution.OrderKind): string {
    match kind
    case Market => "market"
    case Limit => "limit"
  }

  /** `barter_execution`'s time-in-force; only good-until-cancelled carries
      a post-only flag. */
  datatype TimeInForce = GoodUntilCancelled(postOnly: bool) | GoodUntilEndOfDay | FillOrKill | ImmediateOrCancel

  const GtcAliases: set<string> := {"gtc", "good_until_cancelled", "good_til_cancelled", "good_till_cancelled"}
  const DayAliases: set<string> := {"day", "good_until_end_of_day", "good_til_end_of_day", "gtd"}
  const FokAliases: set<string> := {"fok", "fill_or_kill"}
  const IocAliases: set<string> := {"ioc", "immediate_or_cancel"}

  /** `ensure_post_only_unused`. */
  function EnsurePostOnlyUnused(postOnly: Option<bool>, context: string): (r: Outcome<PyErr>)
    ensures r.Pass? <==> postOnly.None?
    ensures r.Fail? ==> r.error == ValueError("post_only is only supported with good_until_cancelled (got " + context + ")")
  {
    if postOnly.Some? then Fail(ValueError("post_only is only supported with good_until_cancelled (got " + context + ")"))
    else Pass
  }

  /** `parse_time_in_force`: the value is matched case-insensitively against
      four alias groups; `post_only` is only allowed with good-until-cancelled. */
  function ParseTimeInForce(value: Option<string>, postOnly: Option<bool>): (r: Result<TimeInForce, PyErr>)
    ensures value.None? ==> r == Success(GoodUntilCancelled(postOnly.GetOr(false)))
    ensures value.Some? && Text.ToAsciiLower(value.value) in GtcAliases ==>
      r == Success(GoodUntilCancelled(postOnly.GetOr(false)))
    ensures value.Some? && Text.ToAsciiLower(value.value) in DayAliases + FokAliases + IocAliases ==>
      (r.Success? <==> postOnly.None?)
    ensures value.Some? && Text.ToAsciiLower(value.value) in DayAliases && postOnly.None? ==> r == Success(GoodUntilEndOfDay)
    ensures value.Some? && Text.ToAsciiLower(value.value) in FokAliases && postOnly.None? ==> r == Success(FillOrKill)
    ensures value.Some? && Text.ToAsciiLower(value.value) in IocAliases && postOnly.None? ==> r == Success(ImmediateOrCancel)
    ensures value.Some? && Text.ToAsciiLower(value.value) in DayAliases + FokAliases + IocAliases && postOnly.Some? ==>
      r == Failure(ValueError("post_only is only supported with good_until_cancelled (got "
                              + Text.ToAsciiLower(value.value) + ")"))
    ensures value.Some? && Text.ToAsciiLower(value.value) !in GtcAliases + DayAliases + FokAliases + IocAliases ==>
      r == Failure(ValueError("invalid time_in_force: " + Text.ToAsciiLower(value.value)))
    ensures r.Success? && postOnly.Some? ==> r.value == GoodUntilCancelled(postOnly.value)
  {
    match value
    case None => Success(GoodUntilCancelled(postOnly.GetOr(false)))
    case Some(raw) =>
      var v := Text.ToAsciiLower(raw);
      if v in GtcAliases then Success(GoodUntilCancelled(postOnly.GetOr(false)))
      else if v in DayAliases then
        :- EnsurePostOnlyUnused(postOnly, v);
        Success(GoodUntilEndOfDay)
      else if v in FokAliases then
        :- EnsurePostOnlyUnused(postOnly, v);
        Success(FillOrKill)
      else if v in IocAliases then
        :- EnsurePostOnlyUnused(postOnly, v);
        Success(ImmediateOrCancel)
      else Failure(ValueError("invalid time_in_force: " + v))
  }

  /** The `time_in_force` getter of `OrderRequestOpen`. */
  function TimeInForceName(t: TimeInForce): string {
    match t
    case GoodUntilCancelled(_) => "good_until_cancelled"
    case GoodUntilEndOfDay => "good_until_end_of_day"
    case FillOrKill => "fill_or_kill"
    case ImmediateOrCancel => "immediate_or_cancel"
  }

  /** The getters' names parse back to what they describe: sides and order
      kinds exactly, and a time-in-force exactly once its post-only flag is
      passed alongside. */
  lemma GetterNamesRoundTrip(side: Instruments.Side, kind: Execution.OrderKind, t: TimeInForce)
    ensures ParseSide(SideName(side)) == Success(side)
    ensures ParseOrderKind(OrderKindName(kind)) == Success(kind)
    ensures ParseTimeInForce(Some(TimeInForceName(t)), if t.GoodUntilCancelled? then Some(t.postOnly) else None) == Success(t)
    ensures ParseTimeInForce(Some(TimeInForceName(t)), None).Success?
    ensures TimeInForceName(ParseTimeInForce(Some(TimeInForceName(t)), None).value) == TimeInForceName(t)
  {
    var name := TimeInForceName(t);
    assert Text.ToAsciiLower(name) == name;
    assert Text.ToAsciiLower(SideName(side)) == SideName(side);
    assert Text.ToAsciiLower(OrderKindName(kind)) == OrderKindName(kind);
  }

  /** The parsers ignore ASCII case: lowering the input first changes nothing. */
  lemma ParsersIgnoreCase(value: string, postOnly: Option<bool>)
    ensures ParseSide(Text.ToAsciiLower(value)) == ParseSide(value)
    ensures ParseOrderKind(Text.ToAsciiLower(value)) == ParseOrderKind(value)
    ensures ParseTimeInForce(Some(Text.ToAsciiLower(value)), postOnly) == ParseTimeInForce(Some(value), postOnly)
  {
    var lower := Text.ToAsciiLower(value);
    Text.ToAsciiLowerIdempotent(value);
    assert Text.ToAsciiLower(lower) == lower;
    SameLowerSameParse(lower, value, postOnly);
  }

  /** The parsers read their argument only through its lower-case form. */
  lemma SameLowerSameParse(a: string, b: string, postOnly: Option<bool>)
    requires Text.ToAsciiLower(a) == Text.ToAsciiLower(b)
    ensures ParseSide(a) == ParseSide(b)
    ensures ParseOrderKind(a) == ParseOrderKind(b)
    ensures ParseTimeInForce(Some(a), postOnly) == ParseTimeInForce(Some(b), postOnly)
  {
  }

  /** `parse_decimal`, raising a ValueError. */
  function ParseDecimal(value: Floats.Float, field: string): (r: Result<real, PyErr>)
    ensures r.Success? <==> value.Finite?
    ensures r.Success? ==> r.value == value.value
    ensures r.Failure? ==> r.error == ValueError(field + " must be a finite numeric value")
  {
    match Floats.ParseDecimal(value, field)
    case Success(d) => Success(d)
    case Failure(message) => Failure(ValueError(message))
  }

  datatype RequestOpen = RequestOpen(
    side: Instruments.Side, price: real, quantity: real, kind: Execution.OrderKind, timeInForce: TimeInForce)

  datatype OrderRequestOpen = OrderRequestOpen(key: Execution.OrderKey<nat, nat>, state: RequestOpen)

  /** `PyOrderRequestOpen::new`: side, kind, price, quantity and
      time-in-force are checked in that order, and the first failure is the
      error raised. The default kind is "limit". */
  function NewOrderRequestOpen(key: Execution.OrderKey<nat, nat>, side: string, price: Floats.Float,
                               quantity: Floats.Float, kind: string, timeInForce: Option<string>,
                               postOnly: Option<bool>): (r: Result<OrderRequestOpen, PyErr>)
    ensures r.Success? <==>
      && ParseSide(side).Success? && ParseOrderKind(kind).Success?
      && price.Finite? && quantity.Finite? && ParseTimeInForce(timeInForce, postOnly).Success?
    ensures ParseSide(side).Failure? ==> r == Failure(ParseSide(side).error)
    ensures ParseSide(side).Success? && ParseOrderKind(kind).Failure? ==> r == Failure(ParseOrderKind(kind).error)
    ensures ParseSide(side).Success? && ParseOrderKind(kind).Success? && !price.Finite? ==>
      r == Failure(ValueError("price" + " must be a finite numeric value"))
    ensures ParseSide(side).Success? && ParseOrderKind(kind).Success? && price.Finite? && !quantity.Finite? ==>
      r == Failure(ValueError("quantity" + " must be a finite numeric value"))
    ensures r.Success? ==> r.value.key == key
    ensures r.Success? ==>
      r.value.state == RequestOpen(ParseSide(side).value, price.value, quantity.value,
                                   ParseOrderKind(kind).value, ParseTimeInForce(timeInForce, postOnly).value)
  {
    var s :- ParseSide(side);
    var k :- ParseOrderKind(kind);
    var p :- ParseDecimal(price, "price");
    var q :- ParseDecimal(quantity, "quantity");
    var t :- ParseTimeInForce(timeInForce, postOnly);
    Success(OrderRequestOpen(key, RequestOpen(s, p, q, k, t)))
  }

  /** `PyOrderRequestCancel::new`: an order id string is taken as given. */
  function NewOrderRequestCancel(key: Execution.OrderKey<nat, nat>, orderId: Option<string>): (r: Execution.OrderRequestCancel<nat, nat>)
    ensures r.key == key
    ensures r.state.Some? <==> orderId.Some?
    ensures orderId.Some? ==> r.state.value.value == orderId.value
  {
    Execution.OrderRequestCancel(key, if orderId.Some? then Some(Execution.OrderId(orderId.value)) else None)
  }

  /** The `has_order_id` getter. */
  function HasOrderId(c: Execution.OrderRequestCancel<nat, nat>): (r: bool)
    ensures r <==> c.state.Some?
  {
    c.state.Some?
  }

  /** `barter`'s instrument filter, as the bindings construct it. */
  datatype InstrumentFilter =
    | NoFilter
    | Exchanges(exchanges: Collection.OneOrMany<nat>)
    | InstrumentsOf(instruments: Collection.OneOrMany<nat>)
    | Underlyings(underlyings: Collection.OneOrMany<Instruments.Underlying<nat>>)

  /** `ensure_non_empty` of the command bindings. */
  function EnsureNonEmptyItems<T>(items: seq<T>, context: string): (r: Outcome<PyErr>)
    ensures r.Pass? <==> |items| > 0
    ensures r.Fail? ==> r.error == ValueError(context + " requires at least one entry")
  {
    if |items| == 0 then Fail(ValueError(context + " requires at least one entry")) else Pass
  }

  /** `InstrumentFilter.exchanges`. */
  function FilterExchanges(indices: seq<nat>): (r: Result<InstrumentFilter, PyErr>)
    ensures r.Success? <==> |indices| > 0
    ensures r.Failure? ==> r.error == ValueError("InstrumentFilter.exchanges" + " requires at least one entry")
    ensures r.Success? ==> r.value.Exchanges? && Collection.OneOrManyToList(r.value.exchanges) == indices
  {
    var context := "InstrumentFilter.exchanges";
    :- EnsureNonEmptyItems(indices, context);
    Success(Exchanges(Collection.OneOrManyFrom(indices)))
  }

  /** `InstrumentFilter.instruments`. */
  function FilterInstruments(indices: seq<nat>): (r: Result<InstrumentFilter, PyErr>)
    ensures r.Success? <==> |indices| > 0
    ensures r.Failure? ==> r.error == ValueError("InstrumentFilter.instruments" + " requires at least one entry")
    ensures r.Success? ==> r.value.InstrumentsOf? && Collection.OneOrManyToList(r.value.instruments) == indices
  {
    var context := "InstrumentFilter.instruments";
    :- EnsureNonEmptyItems(indices, context);
    Success(InstrumentsOf(Collection.OneOrManyFrom(indices)))
  }

  /** The `(base, quote)` pairs as underlyings, in order. */
  function ToUnderlyings(pairs: seq<(nat, nat)>): (r: seq<Instruments.Underlying<nat>>)
    ensures |r| == |pairs|
    ensures forall i :: 0 <= i < |pairs| ==> r[i].base == pairs[i].0 && r[i].quote == pairs[i].1
  {
    seq(|pairs|, i requires 0 <= i < |pairs| => Instruments.Underlying(pairs[i].0, pairs[i].1))
  }

  /** `InstrumentFilter.underlyings`. */
  function FilterUnderlyings(pairs: seq<(nat, nat)>): (r: Result<InstrumentFilter, PyErr>)
    ensures r.Success? <==> |pairs| > 0
    ensures r.Failure? ==> r.error == ValueError("InstrumentFilter.underlyings" + " requires at least one entry")
    ensures r.Success? ==> r.value.Underlyings? && Collection.OneOrManyToList(r.value.underlyings) == ToUnderlyings(pairs)
  {
    var context := "InstrumentFilter.underlyings";
    :- EnsureNonEmptyItems(pairs, context);
    Success(Underlyings(Collection.OneOrManyFrom(ToUnderlyings(pairs))))
  }

  /** `to_one_or_many`: no item is an error, one item is `One`, more are
      `Many` in order. */
  function ToOneOrMany<T>(items: seq<T>, context: string): (r: Result<Collection.OneOrMany<T>, PyErr>)
    ensures r.Failure? <==> |items| == 0
    ensures r.Failure? ==> r.error == ValueError(context + " requires at least one item")
    ensures |items| == 1 ==> r == Success(Collection.One(items[0]))
    ensures |items| >= 2 ==> r == Success(Collection.Many(items))
  {
    if |items| == 0 then Failure(ValueError(context + " requires at least one item"))
    else if |items| == 1 then Success(Collection.One(items[0]))
    else Success(Collection.Many(items))
  }

  /** Whatever `to_one_or_many` accepts reads back as the same list. */
  lemma ToOneOrManyRoundTrip<T>(items: seq<T>, context: string)
    ensures ToOneOrMany(items, context).Success? ==> Collection.OneOrManyToList(ToOneOrMany(items, context).value) == items
  {
  }
}
