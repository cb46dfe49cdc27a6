/** The Rust helper that builds the order closing a position: an
    immediate-or-cancel market order on the opposite side, for a positive
    finite quantity at a finite price. */
module CloseRequest {
  import opened Wrappers
  import opened Errors
  import Text
  import Floats
  import Instruments
  import Execution
  import Command
  import Ids

  /** `ensure_positive`. */
  function EnsurePositive(value: real, field: string): (r: Outcome<PyErr>)
    ensures r.Pass? <==> value > 0.0
    ensures r.Fail? ==> r.error == ValueError(field + " must be positive")
  {
    if value <= 0.0 then Fail(ValueError(field + " must be positive")) else Pass
  }

  /** `closing_side`: the side of the order that flattens a position. */
  function ClosingSide(positionSide: Instruments.Side): (r: Instruments.Side)
    ensures r != positionSide
  {
    match positionSide
    case Buy => Instruments.Sell
    case Sell => Instruments.Buy
  }

  /** Closing a close reopens the position's side. */
  lemma ClosingSideInvolution(s: Instruments.Side)
    ensures ClosingSide(ClosingSide(s)) == s
  {
  }

  /** `build_close_position_request`: price, then quantity, must be finite,
      and the quantity must be positive; the order is a market order that
      is immediate-or-cancel. */
  function BuildClosePositionRequest(exchange: nat, instrument: nat, positionSide: Instruments.Side,
                                     quantity: Floats.Float, price: Floats.Float,
                                     strategyId: Execution.StrategyId, clientOrderId: Execution.ClientOrderId)
    : (r: Result<Command.OrderRequestOpen, PyErr>)
    ensures r.Success? <==> price.Finite? && quantity.Finite? && quantity.value > 0.0
    ensures !price.Finite? ==> r == Failure(ValueError("price" + " must be a finite numeric value"))
    ensures price.Finite? && !quantity.Finite? ==> r == Failure(ValueError("quantity" + " must be a finite numeric value"))
    ensures price.Finite? && quantity.Finite? && quantity.value <= 0.0 ==>
      r == Failure(ValueError("quantity" + " must be positive"))
    ensures r.Success? ==> r.value.key == Execution.OrderKey(exchange, instrument, strategyId, clientOrderId)
    ensures r.Success? ==>
      r.value.state == Command.RequestOpen(ClosingSide(positionSide), price.value, quantity.value,
                                           Execution.Market, Command.ImmediateOrCancel)
  {
    var p :- Command.ParseDecimal(price, "price");
    var q :- Command.ParseDecimal(quantity, "quantity");
    :- EnsurePositive(q, "quantity");
    Success(Command.OrderRequestOpen(
      Execution.OrderKey(exchange, instrument, strategyId, clientOrderId),
      Command.RequestOpen(ClosingSide(positionSide), p, q, Execution.Market, Command.ImmediateOrCancel)))
  }

  /** The client id a close uses when the caller gives none. */
  function FallbackClientOrderId(instrument: nat): (r: Execution.ClientOrderId)
    ensures |r.value| > 6 && r.value[..6] == "close-"
    ensures Text.NatToString(instrument) == r.value[6..]
  {
    Execution.ClientOrderId("close-" + Text.NatToString(instrument))
  }

  /** Distinct instruments get distinct fallback client ids. */
  lemma FallbackClientOrderIdInjective(a: nat, b: nat)
    requires FallbackClientOrderId(a) == FallbackClientOrderId(b)
    ensures a == b
  {
    Text.NatToStringInjective(a, b);
  }

  /** `build_ioc_market_order_to_close_position`: the side string is parsed
      first; a given client id object is coerced (no object means the
      fallback `close-<instrument>` id, not a random one); then the request
      is built. */
  function BuildIocMarketOrderToClosePosition(exchange: nat, instrument: nat, side: string,
                                              quantity: Floats.Float, strategyId: Execution.StrategyId,
                                              price: Floats.Float, clientOrderId: Option<Ids.IdArg>)
    : (r: Result<Command.OrderRequestOpen, PyErr>)
    ensures Command.ParseSide(side).Failure? ==> r == Failure(Command.ParseSide(side).error)
    ensures r.Success? <==>
      && Command.ParseSide(side).Success?
      && (clientOrderId.Some? ==> Ids.CoerceClientOrderId(clientOrderId, FallbackClientOrderId(instrument)).Success?)
      && price.Finite? && quantity.Finite? && quantity.value > 0.0
    ensures r.Success? && clientOrderId.None? ==> r.value.key.cid == FallbackClientOrderId(instrument)
    ensures r.Success? && clientOrderId.Some? ==>
      r.value.key.cid == Ids.CoerceClientOrderId(clientOrderId, FallbackClientOrderId(instrument)).value
    ensures r.Success? ==>
      && r.value.key.exchange == exchange && r.value.key.instrument == instrument
      && r.value.key.strategy == strategyId
      && r.value.state.side == ClosingSide(Command.ParseSide(side).value)
      && r.value.state.kind == Execution.Market && r.value.state.timeInForce == Command.ImmediateOrCancel
  {
    var positionSide :- Command.ParseSide(side);
    var fallback := FallbackClientOrderId(instrument);
    var cid :- if clientOrderId.Some? then Ids.CoerceClientOrderId(clientOrderId, fallback) else Success(fallback);
    BuildClosePositionRequest(exchange, instrument, positionSide, quantity, price, strategyId, cid)
  }
}
