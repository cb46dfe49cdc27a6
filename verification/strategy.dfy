/** The pure-Python strategy module: the simplified engine state it reads,
    and the naive close-positions logic, which sends one
    immediate-or-cancel market order per open position, on the opposite
    side and for the whole quantity, through the Rust close-order helper. */
module Strategy {
  import opened Wrappers
  import opened Errors
  import Text
  import Floats
  import Seqs
  import Loops
  import Instruments
  import Execution
  import Command
  import Ids
  import CloseRequest

  /** `Position`: the quantity and entry price are Python floats. */
  datatype Position = Position(instrument: nat, side: Instruments.Side, quantityAbs: Floats.Float, entryPrice: Floats.Float)

  /** `InstrumentState`: the price is optional. */
  datatype InstrumentState = InstrumentState(instrument: nat, exchange: nat, position: Option<Position>, price: Option<Floats.Float>)

  datatype EngineState = EngineState(instruments: seq<InstrumentState>)

  /** An instrument filter's `matches(exchange, instrument)`. */
  type Matcher = (nat, nat) -> bool

  predicate Selected(filter: Option<Matcher>, s: InstrumentState) {
    filter.None? || filter.value(s.exchange, s.instrument)
  }

  /** `EngineState.instruments_iter`: the instruments the filter matches
      (all of them without a filter), in order. */
  function InstrumentsIter(state: EngineState, filter: Option<Matcher>): (r: seq<InstrumentState>)
    ensures filter.None? ==> r == state.instruments
    ensures forall i :: 0 <= i < |r| ==> r[i] in state.instruments && Selected(filter, r[i])
    ensures forall i :: 0 <= i < |state.instruments| && Selected(filter, state.instruments[i]) ==>
      state.instruments[i] in r
  {
    var r := Seqs.Filter(state.instruments, s => Selected(filter, s));
    if filter.None? then FilterAll(state.instruments); r else r
  }

  /** A filter that keeps everything is the identity. */
  lemma {:induction false} FilterAll(s: seq<InstrumentState>)
    ensures Seqs.Filter(s, t => Selected(None, t)) == s
  {
    if |s| > 0 {
      FilterAll(s[1..]);
    }
  }

  /** What a client-id generator may return: an id object, or any other
      value, which is converted with `str()`. */
  datatype CidValue = CidObject(cid: Execution.ClientOrderId) | CidText(text: string)

  /** `_coerce_client_order_id`: a string goes through `ClientOrderId.new`,
      which refuses a blank one. */
  function CoerceClientOrderId(value: CidValue): (r: Result<Execution.ClientOrderId, PyErr>)
    ensures value.CidObject? ==> r == Success(value.cid)
    ensures value.CidText? ==> r == Ids.NewClientOrderId(value.text)
  {
    match value
    case CidObject(cid) => Success(cid)
    case CidText(text) => Ids.NewClientOrderId(text)
  }

  /** The string-keyed tables `_convert_binding_request` reads the binding's
      getters back through. */
  const SideByValue: map<string, Instruments.Side> := map["buy" := Instruments.Buy, "sell" := Instruments.Sell]
  const OrderKindByValue: map<string, Execution.OrderKind> := map["market" := Execution.Market, "limit" := Execution.Limit]
  const TimeInForceByValue: map<string, Execution.TimeInForce> := map[
    "good_until_cancelled" := Execution.GoodUntilCancelled,
    "good_until_end_of_day" := Execution.GoodUntilEndOfDay,
    "fill_or_kill" := Execution.FillOrKill,
    "immediate_or_cancel" := Execution.ImmediateOrCancel]

  /** The Python time-in-force a Rust one reads back as; the post-only flag
      is dropped. */
  function PythonTimeInForce(t: Command.TimeInForce): (r: Execution.TimeInForce)
    ensures Command.TimeInForceName(t) in TimeInForceByValue && TimeInForceByValue[Command.TimeInForceName(t)] == r
    ensures t.ImmediateOrCancel? <==> r.ImmediateOrCancel?
  {
    match t
    case GoodUntilCancelled(_) => Execution.GoodUntilCancelled
    case GoodUntilEndOfDay => Execution.GoodUntilEndOfDay
    case FillOrKill => Execution.FillOrKill
    case ImmediateOrCancel => Execution.ImmediateOrCancel
  }

  /** `_convert_binding_request`: the Python request rebuilt from the Rust
      one's side, kind and time-in-force names, with the caller's key parts,
      price and quantity. */
  function ConvertBindingRequest(exchange: nat, instrument: nat, strategyId: Execution.StrategyId,
                                 cid: Execution.ClientOrderId, price: real, quantity: real,
                                 binding: Command.OrderRequestOpen)
    : (r: Execution.OrderRequestOpen<nat, nat>)
    ensures r.key == Execution.OrderKey(exchange, instrument, strategyId, cid)
    ensures r.state.side == binding.state.side && r.state.kind == binding.state.kind
    ensures r.state.timeInForce == PythonTimeInForce(binding.state.timeInForce)
    ensures r.state.price == price && r.state.quantity == quantity
  {
    var sideName := Command.SideName(binding.state.side);
    var kindName := Command.OrderKindName(binding.state.kind);
    var tifName := Command.TimeInForceName(binding.state.timeInForce);
    assert sideName in SideByValue && SideByValue[sideName] == binding.state.side;
    assert kindName in OrderKindByValue && OrderKindByValue[kindName] == binding.state.kind;
    Execution.OrderRequestOpen(
      Execution.OrderKey(exchange, instrument, strategyId, cid),
      Execution.RequestOpen(SideByValue[sideName], price, quantity, OrderKindByValue[kindName], TimeInForceByValue[tifName]))
  }

  /** The Python `build_ioc_market_order_to_close_position`. A client id
      (or, when a callable is given, what calling it returns) is coerced;
      without one the id is `close-<instrument>`. */
  function BuildIocMarketOrderToClosePosition(exchange: nat, position: Position, strategyId: Execution.StrategyId,
                                              price: Floats.Float, genCid: Option<CidValue>)
    : (r: Result<Execution.OrderRequestOpen<nat, nat>, PyErr>)
    ensures genCid.Some? && CoerceClientOrderId(genCid.value).Failure? ==>
      r == Failure(CoerceClientOrderId(genCid.value).error)
    ensures r.Success? <==>
      && (genCid.Some? ==> CoerceClientOrderId(genCid.value).Success?)
      && price.Finite? && position.quantityAbs.Finite? && position.quantityAbs.value > 0.0
    ensures r.Success? ==>
      && r.value.key.exchange == exchange && r.value.key.instrument == position.instrument
      && r.value.key.strategy == strategyId
      && r.value.key.cid == (if genCid.Some? then CoerceClientOrderId(genCid.value).value
                             else CloseRequest.FallbackClientOrderId(position.instrument))
      && r.value.state == Execution.RequestOpen(CloseRequest.ClosingSide(position.side), price.value,
                                                position.quantityAbs.value, Execution.Market, Execution.ImmediateOrCancel)
  {
    var cidValue := if genCid.Some? then genCid.value else CidObject(CloseRequest.FallbackClientOrderId(position.instrument));
    var cid :- CoerceClientOrderId(cidValue);
    Command.GetterNamesRoundTrip(position.side, Execution.Market, Command.ImmediateOrCancel);
    var binding :- CloseRequest.BuildIocMarketOrderToClosePosition(
      exchange, position.instrument, Command.SideName(position.side), position.quantityAbs, strategyId, price,
      Some(Ids.ClientOrderIdArg(cid)));
    Success(ConvertBindingRequest(exchange, position.instrument, strategyId, cid, price.value,
                                  position.quantityAbs.value, binding))
  }

  /** One loop step of `close_open_positions_with_market_orders`: nothing
      for an instrument without a position; otherwise the quantity must be
      positive (NaN passes this Python check and fails later, as non-finite)
      and a price must be known. */
  function CloseOne(strategyId: Execution.StrategyId, s: InstrumentState,
                    genCid: Option<InstrumentState -> CidValue>)
    : (r: Result<Option<Execution.OrderRequestOpen<nat, nat>>, PyErr>)
    ensures s.position.None? ==> r == Success(None)
    ensures s.position.Some? && Floats.LessOrEqual(s.position.value.quantityAbs, Floats.Finite(0.0)) ==>
      r == Failure(ValueError("position quantity must be positive"))
    ensures s.position.Some? && !Floats.LessOrEqual(s.position.value.quantityAbs, Floats.Finite(0.0)) && s.price.None? ==>
      r == Failure(ValueError("instrument price is required to close positions"))
    ensures r.Success? && s.position.Some? ==>
      && r.value.Some?
      && r.value.value.key.exchange == s.exchange
      && r.value.value.key.instrument == s.position.value.instrument
      && r.value.value.key.strategy == strategyId
      && (genCid.None? ==> r.value.value.key.cid == CloseRequest.FallbackClientOrderId(s.position.value.instrument))
      && r.value.value.state.side == CloseRequest.ClosingSide(s.position.value.side)
      && s.position.value.quantityAbs.Finite? && s.price.Some? && s.price.value.Finite?
      && r.value.value.state.quantity == s.position.value.quantityAbs.value
      && r.value.value.state.price == s.price.value.value
      && r.value.value.state.kind == Execution.Market
      && r.value.value.state.timeInForce == Execution.ImmediateOrCancel
  {
    match s.position
    case None => Success(None)
    case Some(position) =>
      if Floats.LessOrEqual(position.quantityAbs, Floats.Finite(0.0)) then
        Failure(ValueError("position quantity must be positive"))
      else match s.price
        case None => Failure(ValueError("instrument price is required to close positions"))
        case Some(price) =>
          var cidInput := if genCid.None? then None else Some(genCid.value(s));
          var order :- BuildIocMarketOrderToClosePosition(s.exchange, position, strategyId, price, cidInput);
          Success(Some(order))
  }

  predicate HasPosition(s: InstrumentState) {
    s.position.Some?
  }

  /** The loop step as a value, for the collecting loop. */
  function Step(strategyId: Execution.StrategyId, genCid: Option<InstrumentState -> CidValue>)
    : InstrumentState -> Result<Option<Execution.OrderRequestOpen<nat, nat>>, PyErr>
  {
    s => CloseOne(strategyId, s, genCid)
  }

  /** The loop of `close_open_positions_with_market_orders`: it stops at the
      first instrument whose step fails, and otherwise collects the orders
      in order. */
  function CloseAll(strategyId: Execution.StrategyId, insts: seq<InstrumentState>,
                    genCid: Option<InstrumentState -> CidValue>)
    : (r: Result<seq<Execution.OrderRequestOpen<nat, nat>>, PyErr>)
    ensures r.Success? ==> |r.value| <= |insts|
  {
    Loops.CollectEach(insts, Step(strategyId, genCid))
  }

  /** The loop succeeds exactly when every step does. */
  lemma CloseAllSucceedsIff(strategyId: Execution.StrategyId, insts: seq<InstrumentState>,
                            genCid: Option<InstrumentState -> CidValue>)
    ensures CloseAll(strategyId, insts, genCid).Success? <==>
      forall i :: 0 <= i < |insts| ==> CloseOne(strategyId, insts[i], genCid).Success?
  {
    var f := Step(strategyId, genCid);
    Loops.CollectEachSucceedsIff(insts, f);
    assert forall i :: 0 <= i < |insts| ==> f(insts[i]) == CloseOne(strategyId, insts[i], genCid);
  }

  /** A failing loop raises the error of its first failing step. */
  lemma CloseAllFirstError(strategyId: Execution.StrategyId, insts: seq<InstrumentState>,
                           genCid: Option<InstrumentState -> CidValue>)
    requires CloseAll(strategyId, insts, genCid).Failure?
    ensures exists i :: (0 <= i < |insts|
      && CloseOne(strategyId, insts[i], genCid) == Failure(CloseAll(strategyId, insts, genCid).error)
      && forall j :: 0 <= j < i ==> CloseOne(strategyId, insts[j], genCid).Success?)
  {
    var f := Step(strategyId, genCid);
    Loops.CollectEachFirstError(insts, f);
    var i :| 0 <= i < |insts| && f(insts[i]) == Failure(Loops.CollectEach(insts, f).error)
      && forall j :: 0 <= j < i ==> f(insts[j]).Success?;
    assert forall j :: 0 <= j <= i ==> f(insts[j]) == CloseOne(strategyId, insts[j], genCid);
  }

  /** A successful loop sends one order per instrument with a position, in
      order, each the one that instrument's step builds. */
  lemma CloseAllOrders(strategyId: Execution.StrategyId, insts: seq<InstrumentState>,
                       genCid: Option<InstrumentState -> CidValue>)
    requires CloseAll(strategyId, insts, genCid).Success?
    ensures var opens := CloseAll(strategyId, insts, genCid).value;
      var positioned := Seqs.Filter(insts, HasPosition);
      && |opens| == |positioned|
      && forall k :: 0 <= k < |positioned| ==> CloseOne(strategyId, positioned[k], genCid) == Success(Some(opens[k]))
  {
    var f := Step(strategyId, genCid);
    forall k | 0 <= k < |insts| && f(insts[k]).Success?
      ensures f(insts[k]).value.Some? <==> HasPosition(insts[k])
    {
      StepEmitsIffPosition(strategyId, insts[k], genCid);
    }
    Loops.CollectEachKept(insts, f, HasPosition);
    var positioned := Seqs.Filter(insts, HasPosition);
    assert forall k :: 0 <= k < |positioned| ==> f(positioned[k]) == CloseOne(strategyId, positioned[k], genCid);
  }

  /** A successful step emits an order exactly when the instrument has a
      position. */
  lemma StepEmitsIffPosition(strategyId: Execution.StrategyId, s: InstrumentState,
                             genCid: Option<InstrumentState -> CidValue>)
    requires CloseOne(strategyId, s, genCid).Success?
    ensures CloseOne(strategyId, s, genCid).value.Some? <==> HasPosition(s)
  {
  }

  /** `close_open_positions_with_market_orders`: no cancels, and the opens
      of the loop over the instruments the filter matches. */
  function CloseOpenPositionsWithMarketOrders(strategyId: Execution.StrategyId, state: EngineState,
                                              filter: Option<Matcher>, genCid: Option<InstrumentState -> CidValue>)
    : (r: Result<(seq<Execution.OrderRequestCancel<nat, nat>>, seq<Execution.OrderRequestOpen<nat, nat>>), PyErr>)
    ensures r.Success? ==> r.value.0 == []
    ensures r.Success? <==> CloseAll(strategyId, InstrumentsIter(state, filter), genCid).Success?
    ensures r.Success? ==> r.value.1 == CloseAll(strategyId, InstrumentsIter(state, filter), genCid).value
  {
    var opens :- CloseAll(strategyId, InstrumentsIter(state, filter), genCid);
    Success(([], opens))
  }

  /** Every open position the filter matches gets exactly the order that
      flattens it: opposite side, whole quantity. */
  lemma ClosesEveryMatchedPosition(strategyId: Execution.StrategyId, state: EngineState,
                                      filter: Option<Matcher>, genCid: Option<InstrumentState -> CidValue>)
    requires CloseOpenPositionsWithMarketOrders(strategyId, state, filter, genCid).Success?
    ensures var opens := CloseOpenPositionsWithMarketOrders(strategyId, state, filter, genCid).value.1;
      forall s :: s in state.instruments && Selected(filter, s) && s.position.Some? ==>
        exists o :: o in opens && CloseOne(strategyId, s, genCid) == Success(Some(o))
                    && o.state.side == CloseRequest.ClosingSide(s.position.value.side)
                    && o.state.quantity == s.position.value.quantityAbs.value
  {
    var insts := InstrumentsIter(state, filter);
    var opens := CloseAll(strategyId, insts, genCid).value;
    var positioned := Seqs.Filter(insts, HasPosition);
    CloseAllOrders(strategyId, insts, genCid);
    forall s | s in state.instruments && Selected(filter, s) && s.position.Some?
      ensures exists o :: o in opens && CloseOne(strategyId, s, genCid) == Success(Some(o))
                          && o.state.side == CloseRequest.ClosingSide(s.position.value.side)
                          && o.state.quantity == s.position.value.quantityAbs.value
    {
      var i :| 0 <= i < |state.instruments| && state.instruments[i] == s;
      assert s in insts;
      var j :| 0 <= j < |insts| && insts[j] == s;
      assert HasPosition(insts[j]);
      var k :| 0 <= k < |positioned| && positioned[k] == s;
      var o := opens[k];
      assert CloseOne(strategyId, s, genCid) == Success(Some(o));
      assert o.state.side == CloseRequest.ClosingSide(s.position.value.side);
    }
  }

  /** Every order sent closes an open position the filter matches. */
  lemma {:induction false} EveryOrderClosesAPosition(strategyId: Execution.StrategyId, state: EngineState,
                                                     filter: Option<Matcher>, genCid: Option<InstrumentState -> CidValue>)
    requires CloseOpenPositionsWithMarketOrders(strategyId, state, filter, genCid).Success?
    ensures var opens := CloseOpenPositionsWithMarketOrders(strategyId, state, filter, genCid).value.1;
      forall o :: o in opens ==>
        exists s :: s in state.instruments && Selected(filter, s) && s.position.Some?
                    && CloseOne(strategyId, s, genCid) == Success(Some(o))
  {
    var insts := InstrumentsIter(state, filter);
    var opens := CloseAll(strategyId, insts, genCid).value;
    var positioned := Seqs.Filter(insts, HasPosition);
    CloseAllOrders(strategyId, insts, genCid);
    forall o | o in opens
      ensures exists s :: s in state.instruments && Selected(filter, s) && s.position.Some?
                          && CloseOne(strategyId, s, genCid) == Success(Some(o))
    {
      var k :| 0 <= k < |opens| && opens[k] == o;
      var s := positioned[k];
      assert HasPosition(s) && s in insts;
      var j :| 0 <= j < |insts| && insts[j] == s;
      assert CloseOne(strategyId, s, genCid) == Success(Some(o));
    }
  }

  /** `DefaultStrategy(strategy_id)`: the id must not be blank. */
  function NewDefaultStrategy(strategyId: string): (r: Result<Execution.StrategyId, PyErr>)
    ensures r == Ids.NewStrategyId(strategyId)
    ensures r.Success? ==> r.value.value == strategyId
  {
    Ids.NewStrategyId(strategyId)
  }

  /** `DefaultStrategy.generate_algo_orders`: never any orders. */
  function GenerateAlgoOrders(state: EngineState)
    : (r: (seq<Execution.OrderRequestCancel<nat, nat>>, seq<Execution.OrderRequestOpen<nat, nat>>))
    ensures |r.0| == 0 && |r.1| == 0
  {
    ([], [])
  }

  /** `DefaultStrategy.close_positions_requests`: the naive close logic with
      the default `close-<instrument>` client ids. */
  function ClosePositionsRequests(id: Execution.StrategyId, state: EngineState, filter: Option<Matcher>)
    : (r: Result<(seq<Execution.OrderRequestCancel<nat, nat>>, seq<Execution.OrderRequestOpen<nat, nat>>), PyErr>)
    ensures r == CloseOpenPositionsWithMarketOrders(id, state, filter, None)
  {
    CloseOpenPositionsWithMarketOrders(id, state, filter, None)
  }

  /** The default strategy fails only on a matched position with a
      non-positive or non-finite quantity, or with a missing or non-finite
      price; each order it sends carries the `close-<instrument>` client id
      of the position it closes. */
  lemma DefaultCloseFailsOnlyOnBadPositions(id: Execution.StrategyId, s: InstrumentState)
    requires s.position.Some?
    ensures CloseOne(id, s, None).Success? <==>
      && s.position.value.quantityAbs.Finite? && s.position.value.quantityAbs.value > 0.0
      && s.price.Some? && s.price.value.Finite?
    ensures CloseOne(id, s, None).Success? ==>
      CloseOne(id, s, None).value.value.key.cid == CloseRequest.FallbackClientOrderId(s.position.value.instrument)
  {
  }

  /** A matched position the default strategy can close: a finite positive
      quantity and a known finite price. */
  predicate Closable(s: InstrumentState)
    requires s.position.Some?
  {
    s.position.value.quantityAbs.Finite? && s.position.value.quantityAbs.value > 0.0
    && s.price.Some? && s.price.value.Finite?
  }

  /** `DefaultStrategy.close_positions_requests` succeeds exactly when every
      matched position is closable; it then sends no cancels, and every
      order it sends closes a matched position under that position's
      `close-<instrument>` client id. */
  lemma DefaultCloseRequests(id: Execution.StrategyId, state: EngineState, filter: Option<Matcher>)
    ensures var insts := InstrumentsIter(state, filter);
      ClosePositionsRequests(id, state, filter).Success? <==>
        forall i :: 0 <= i < |insts| && insts[i].position.Some? ==> Closable(insts[i])
    ensures var r := ClosePositionsRequests(id, state, filter);
      r.Success? ==> r.value.0 == [] && forall o :: o in r.value.1 ==>
        exists s :: s in state.instruments && Selected(filter, s) && s.position.Some?
                    && o.key.cid == CloseRequest.FallbackClientOrderId(s.position.value.instrument)
  {
    var insts := InstrumentsIter(state, filter);
    CloseAllSucceedsIff(id, insts, None);
    forall i | 0 <= i < |insts|
      ensures CloseOne(id, insts[i], None).Success? <==> (insts[i].position.Some? ==> Closable(insts[i]))
    {
      if insts[i].position.Some? {
        DefaultCloseFailsOnlyOnBadPositions(id, insts[i]);
      }
    }
    var r := ClosePositionsRequests(id, state, filter);
    if r.Success? {
      EveryOrderClosesAPosition(id, state, filter, None);
      forall o | o in r.value.1
        ensures exists s :: s in state.instruments && Selected(filter, s) && s.position.Some?
                            && o.key.cid == CloseRequest.FallbackClientOrderId(s.position.value.instrument)
      {
        var s :| s in state.instruments && Selected(filter, s) && s.position.Some?
                 && CloseOne(id, s, None) == Success(Some(o));
        DefaultCloseFailsOnlyOnBadPositions(id, s);
      }
    }
  }
}
