/** The pure-Python engine: per-instrument state held in insertion-ordered
    dicts, the market-data update rule, cancel-request generation over an
    instrument filter, and dispatch of risk-approved requests. The candle
    type and its reader come from outside the data module, so they are
    parameters here. */
module Engine {
  import opened Wrappers
  import opened PyDict
  import Execution
  import MarketData
  import Risk

  /** An instrument filter is anything with `matches(exchange, instrument)`. */
  type Matcher = (nat, nat) -> bool

  /** The two filters the engine module defines. */
  datatype Filter = AllInstrumentsFilter | ExchangeFilter(exchange: nat)

  /** `matches` of the two filters. */
  function Matches(f: Filter): (m: Matcher)
    ensures f.AllInstrumentsFilter? ==> forall e: nat, i: nat :: m(e, i)
    ensures f.ExchangeFilter? ==> forall e: nat, i: nat :: m(e, i) <==> e == f.exchange
  {
    match f
    case AllInstrumentsFilter => (e: nat, i: nat) => true
    case ExchangeFilter(x) => (e: nat, i: nat) => e == x
  }

  /** `Position`; `side` is the string "buy" or "sell". */
  datatype Position = Position(instrument: nat, side: string, quantityAbs: real, entryPrice: real)

  /** `InstrumentState.position_quantity`: the signed position size. */
  function PositionQuantity(position: Option<Position>): (r: real)
    ensures position.None? ==> r == 0.0
    ensures position.Some? ==> r == position.value.quantityAbs || r == -position.value.quantityAbs
    ensures position.Some? && position.value.side == "buy" ==> r == position.value.quantityAbs
    ensures position.Some? && position.value.side != "buy" ==> r == -position.value.quantityAbs
    ensures position.Some? && position.value.quantityAbs > 0.0 ==> (r > 0.0 <==> position.value.side == "buy")
  {
    if position.None? then 0.0
    else if position.value.side == "buy" then position.value.quantityAbs
    else -position.value.quantityAbs
  }

  /** `DefaultInstrumentMarketData`, with an abstract candle type `C`. */
  datatype MarketState<C> = MarketState(
    lastPrice: Option<real>,
    lastUpdateTime: Option<int>,
    orderBookL1: Option<MarketData.OrderBookL1>,
    recentCandle: Option<C>)

  type OrderBookKey = Execution.OrderKey<nat, nat>

  datatype InstrumentState<C> = InstrumentState(
    instrument: nat,
    exchange: nat,
    position: Option<Position>,
    marketData: MarketState<C>,
    orders: Dict<OrderBookKey, Execution.Order<nat, nat>>)

  /** `EngineState`, reduced to what the modelled operations read or write. */
  datatype EngineState<C> = EngineState(instruments: Dict<nat, InstrumentState<C>>, tradingEnabled: bool)

  type Event = MarketData.MarketEvent<nat, MarketData.DataKind>

  /** How a candle is read from an event (`as_candle`) and its close price. */
  datatype CandleReader<!C> = CandleReader(asCandle: Event -> Option<C>, close: C -> real)

  /** The market-data half of `Engine.process_market_event`. */
  function UpdateMarketData<C>(md: MarketState<C>, event: Event, candles: CandleReader<C>): (r: MarketState<C>)
    ensures event.kind.kind == "trade" && event.kind.data.TradeData? ==>
      r.lastPrice == Some(event.kind.data.trade.price) && r.lastUpdateTime == Some(event.timeExchange)
      && r.orderBookL1 == md.orderBookL1 && r.recentCandle == md.recentCandle
    ensures event.kind.kind == "candle" && candles.asCandle(event).Some? ==>
      r.lastPrice == Some(candles.close(candles.asCandle(event).value)) && r.lastUpdateTime == Some(event.timeExchange)
      && r.orderBookL1 == md.orderBookL1 && r.recentCandle == candles.asCandle(event)
    ensures event.kind.kind == "order_book_l1" && event.kind.data.L1Data? ==>
      r.lastPrice == md.lastPrice && r.lastUpdateTime == Some(event.timeExchange)
      && r.orderBookL1 == Some(event.kind.data.book) && r.recentCandle == md.recentCandle
    ensures r.orderBookL1 != md.orderBookL1 ==> event.kind.kind == "order_book_l1"
    ensures r.recentCandle != md.recentCandle ==> event.kind.kind == "candle"
    ensures r.lastPrice != md.lastPrice ==> event.kind.kind == "trade" || event.kind.kind == "candle"
    ensures r != md ==>
      (event.kind.kind == "trade" && event.kind.data.TradeData?)
      || (event.kind.kind == "candle" && candles.asCandle(event).Some?)
      || (event.kind.kind == "order_book_l1" && event.kind.data.L1Data?)
  {
    if event.kind.kind == "trade" then
      match MarketData.AsPublicTrade(event)
      case Some(t) => MarketState(Some(t.kind.price), Some(event.timeExchange), md.orderBookL1, md.recentCandle)
      case None => md
    else if event.kind.kind == "candle" then
      match candles.asCandle(event)
      case Some(c) => MarketState(Some(candles.close(c)), Some(event.timeExchange), md.orderBookL1, Some(c))
      case None => md
    else if event.kind.kind == "order_book_l1" then
      if event.kind.data.L1Data? then
        MarketState(md.lastPrice, Some(event.timeExchange), Some(event.kind.data.book), md.recentCandle)
      else md
    else md
  }

  /** `Engine.process_market_event`: only the event's instrument is touched,
      and of it only the market data. */
  function ProcessMarketEvent<C>(state: EngineState<C>, event: Event, candles: CandleReader<C>): (r: EngineState<C>)
    requires Valid(state.instruments)
    ensures Get(state.instruments, event.instrument).None? ==> r == state
    ensures Valid(r.instruments) && Keys(r.instruments) == Keys(state.instruments)
    ensures r.tradingEnabled == state.tradingEnabled
    ensures forall k :: k != event.instrument ==> Get(r.instruments, k) == Get(state.instruments, k)
    ensures Get(state.instruments, event.instrument).Some? ==>
      var before := Get(state.instruments, event.instrument).value;
      Get(r.instruments, event.instrument) == Some(before.(marketData := UpdateMarketData(before.marketData, event, candles)))
  {
    match Get(state.instruments, event.instrument)
    case None => state
    case Some(s) =>
      var updated := InstrumentState(s.instrument, s.exchange, s.position,
                                     UpdateMarketData(s.marketData, event, candles), s.orders);
      SetKeys(state.instruments, event.instrument, updated);
      assert forall k :: k != event.instrument ==>
        Get(Set(state.instruments, event.instrument, updated), k) == Get(state.instruments, k) by {
        forall k | k != event.instrument {
          SetGetOther(state.instruments, event.instrument, updated, k);
        }
      }
      SetGetSame(state.instruments, event.instrument, updated);
      state.(instruments := Set(state.instruments, event.instrument, updated))
  }

  /** What market events may never change: everything but the market data. */
  ghost predicate SameHoldings<C>(a: EngineState<C>, b: EngineState<C>) {
    && Keys(a.instruments) == Keys(b.instruments)
    && a.tradingEnabled == b.tradingEnabled
    && forall k :: Get(a.instruments, k).Some? ==>
         && Get(b.instruments, k).Some?
         && Get(b.instruments, k).value.(marketData := Get(a.instruments, k).value.marketData)
            == Get(a.instruments, k).value
  }

  /** A stream of market events processed in order. */
  function ProcessAll<C>(state: EngineState<C>, events: seq<Event>, candles: CandleReader<C>): (r: EngineState<C>)
    requires Valid(state.instruments)
    ensures Valid(r.instruments)
    decreases |events|
  {
    if events == [] then state
    else ProcessAll(ProcessMarketEvent(state, events[0], candles), events[1..], candles)
  }

  /** However many market events are processed, no instrument appears or
      disappears, and no position, order, exchange or instrument field
      changes. */
  lemma {:induction false} ProcessAllKeepsHoldings<C>(state: EngineState<C>, events: seq<Event>, candles: CandleReader<C>)
    requires Valid(state.instruments)
    ensures SameHoldings(state, ProcessAll(state, events, candles))
    decreases |events|
  {
    if events != [] {
      var next := ProcessMarketEvent(state, events[0], candles);
      ProcessAllKeepsHoldings(next, events[1..], candles);
      var last := ProcessAll(next, events[1..], candles);
      forall k | Get(state.instruments, k).Some?
        ensures Get(last.instruments, k).Some?
        ensures Get(last.instruments, k).value.(marketData := Get(state.instruments, k).value.marketData)
                == Get(state.instruments, k).value
      {
        assert Get(next.instruments, k).Some?;
      }
    }
  }

  /** The order id a cancel request can name: only an open order has one. */
  function OrderIdOf(s: Execution.OrderState): (r: Option<Execution.OrderId>)
    ensures r.Some? <==> s.Active? && s.active.OpenOrder?
    ensures r.Some? ==> r.value == s.active.open.id
  {
    match s
    case Active(OpenOrder(o)) => Some(o.id)
    case _ => None
  }

  type Cancel = Execution.OrderRequestCancel<nat, nat>

  /** The cancel request for one `(key, order)` entry of an orders dict. */
  function CancelFor(entry: (OrderBookKey, Execution.Order<nat, nat>)): Cancel {
    Execution.OrderRequestCancel(entry.0, OrderIdOf(entry.1.state))
  }

  /** Whether an instrument passes an optional filter. */
  predicate Selected<C>(filter: Option<Matcher>, s: InstrumentState<C>) {
    filter.None? || filter.value(s.exchange, s.instrument)
  }

  /** One cancel per order of an instrument, in the dict's order. */
  function CancelsFor<C>(s: InstrumentState<C>): (r: seq<Cancel>)
    ensures |r| == |s.orders.entries|
    ensures forall j :: 0 <= j < |r| ==> r[j] == CancelFor(s.orders.entries[j])
  {
    seq(|s.orders.entries|, j requires 0 <= j < |s.orders.entries| => CancelFor(s.orders.entries[j]))
  }

  /** The number of orders of the instruments the filter selects. */
  function SelectedOrderCount<C>(filter: Option<Matcher>, insts: seq<InstrumentState<C>>): nat {
    if insts == [] then 0
    else (if Selected(filter, insts[0]) then |insts[0].orders.entries| else 0) + SelectedOrderCount(filter, insts[1..])
  }

  /** `CancelOrders.execute` over the instrument states in dict order. */
  function CancelOrdersOver<C>(filter: Option<Matcher>, insts: seq<InstrumentState<C>>): (r: seq<Cancel>)
    ensures |r| == SelectedOrderCount(filter, insts)
  {
    if insts == [] then []
    else (if Selected(filter, insts[0]) then CancelsFor(insts[0]) else []) + CancelOrdersOver(filter, insts[1..])
  }

  /** `CancelOrders.execute`. */
  function CancelOrders<C>(state: EngineState<C>, filter: Option<Matcher>): (r: seq<Cancel>)
    ensures |r| == SelectedOrderCount(filter, Values(state.instruments))
  {
    CancelOrdersOver(filter, Values(state.instruments))
  }

  /** A request is generated exactly when it cancels some order of some
      instrument the filter selects, keyed by that order's key. */
  lemma {:induction false} CancelOrdersOverMembership<C>(filter: Option<Matcher>, insts: seq<InstrumentState<C>>, c: Cancel)
    ensures c in CancelOrdersOver(filter, insts) <==>
      exists i, j :: 0 <= i < |insts| && Selected(filter, insts[i]) && 0 <= j < |insts[i].orders.entries|
                     && c == CancelFor(insts[i].orders.entries[j])
  {
    if insts != [] {
      CancelOrdersOverMembership(filter, insts[1..], c);
      var here := if Selected(filter, insts[0]) then CancelsFor(insts[0]) else [];
      assert CancelOrdersOver(filter, insts) == here + CancelOrdersOver(filter, insts[1..]);
      if c in CancelOrdersOver(filter, insts[1..]) {
        var i, j :| 0 <= i < |insts[1..]| && Selected(filter, insts[1..][i]) && 0 <= j < |insts[1..][i].orders.entries|
                    && c == CancelFor(insts[1..][i].orders.entries[j]);
        assert insts[i + 1] == insts[1..][i];
      }
      if c in here {
        var j :| 0 <= j < |here| && here[j] == c;
        assert c == CancelFor(insts[0].orders.entries[j]);
      }
      if exists i, j :: 0 <= i < |insts| && Selected(filter, insts[i]) && 0 <= j < |insts[i].orders.entries|
                        && c == CancelFor(insts[i].orders.entries[j]) {
        var i, j :| 0 <= i < |insts| && Selected(filter, insts[i]) && 0 <= j < |insts[i].orders.entries|
                    && c == CancelFor(insts[i].orders.entries[j]);
        if i == 0 {
          assert here[j] == c;
        } else {
          assert insts[1..][i - 1] == insts[i];
        }
      }
    }
  }

  /** The cancels one instrument contributes: all its orders when the
      filter selects it, none otherwise. */
  function Block<C>(filter: Option<Matcher>, s: InstrumentState<C>): seq<Cancel> {
    if Selected(filter, s) then CancelsFor(s) else []
  }

  /** The loop over instruments distributes over concatenation: the cancels
      of the earlier instruments come first. */
  lemma {:induction false} CancelOrdersOverAppend<C>(filter: Option<Matcher>, a: seq<InstrumentState<C>>,
                                                     b: seq<InstrumentState<C>>)
    ensures CancelOrdersOver(filter, a + b) == CancelOrdersOver(filter, a) + CancelOrdersOver(filter, b)
  {
    if a == [] {
      assert a + b == b;
    } else {
      var ab := a + b;
      assert ab[0] == a[0];
      assert ab[1..] == a[1..] + b;
      CancelOrdersOverAppend(filter, a[1..], b);
      calc {
        CancelOrdersOver(filter, ab);
        Block(filter, a[0]) + CancelOrdersOver(filter, a[1..] + b);
        Block(filter, a[0]) + (CancelOrdersOver(filter, a[1..]) + CancelOrdersOver(filter, b));
        (Block(filter, a[0]) + CancelOrdersOver(filter, a[1..])) + CancelOrdersOver(filter, b);
        CancelOrdersOver(filter, a) + CancelOrdersOver(filter, b);
      }
    }
  }

  /** One instrument on its own contributes its block. */
  lemma CancelOrdersOverSingle<C>(filter: Option<Matcher>, s: InstrumentState<C>)
    ensures CancelOrdersOver(filter, [s]) == Block(filter, s)
  {
    var rest: seq<InstrumentState<C>> := [s][1..];
    assert rest == [];
    assert CancelOrdersOver(filter, [s]) == Block(filter, s) + CancelOrdersOver(filter, rest);
  }

  /** In the cancels of `CancelOrders.execute`, instrument `k` contributes
      its block right after those of the instruments before it in the dict
      and before those after it. */
  lemma CancelOrdersInDictOrder<C>(state: EngineState<C>, filter: Option<Matcher>, k: nat)
    requires k < |Values(state.instruments)|
    ensures var vs := Values(state.instruments);
      CancelOrders(state, filter)
        == CancelOrdersOver(filter, vs[..k]) + Block(filter, vs[k]) + CancelOrdersOver(filter, vs[k + 1..])
  {
    var vs := Values(state.instruments);
    var before, here, after := vs[..k], [vs[k]], vs[k + 1..];
    assert vs == before + here + after;
    CancelOrdersOverAppend(filter, before + here, after);
    CancelOrdersOverAppend(filter, before, here);
    CancelOrdersOverSingle(filter, vs[k]);
  }

  /** A cancel of `CancelOrders.execute` is exactly the cancel of some order
      of some instrument the filter selects. */
  lemma CancelOrdersContents<C>(state: EngineState<C>, filter: Option<Matcher>, c: Cancel)
    ensures var vs := Values(state.instruments);
      c in CancelOrders(state, filter) <==>
        exists i, j :: 0 <= i < |vs| && Selected(filter, vs[i]) && 0 <= j < |vs[i].orders.entries|
                       && c == CancelFor(vs[i].orders.entries[j])
  {
    CancelOrdersOverMembership(filter, Values(state.instruments), c);
  }

  /** What `SendRequests` is handed: the approved opens and cancels. */
  datatype Dispatch = Dispatch(opens: seq<Execution.OrderRequestOpen<nat, nat>>, cancels: seq<Cancel>)

  type RiskCheck<!C> = (EngineState<C>, seq<Cancel>, seq<Execution.OrderRequestOpen<nat, nat>>)
                      -> Risk.CheckOutput<Cancel, Execution.OrderRequestOpen<nat, nat>>

  /** `Engine.send_requests`: the risk manager's approvals, unwrapped, are
      what is dispatched; refused requests go nowhere. Dispatch itself does
      nothing to the state. */
  function SendRequests<C>(state: EngineState<C>, opens: seq<Execution.OrderRequestOpen<nat, nat>>,
                           cancels: seq<Cancel>, check: RiskCheck<C>): (r: Dispatch)
    ensures |r.cancels| == |check(state, cancels, opens).approvedCancels|
    ensures |r.opens| == |check(state, cancels, opens).approvedOpens|
    ensures forall i :: 0 <= i < |r.cancels| ==> r.cancels[i] == check(state, cancels, opens).approvedCancels[i].item
    ensures forall i :: 0 <= i < |r.opens| ==> r.opens[i] == check(state, cancels, opens).approvedOpens[i].item
  {
    var out := check(state, cancels, opens);
    Dispatch(Risk.ApprovedItems(out.approvedOpens), Risk.ApprovedItems(out.approvedCancels))
  }

  /** The default risk manager as a risk check. */
  function DefaultRisk<C>(): RiskCheck<C> {
    (s: EngineState<C>, c: seq<Cancel>, o: seq<Execution.OrderRequestOpen<nat, nat>>) => Risk.DefaultCheck(s, c, o)
  }

  /** `Engine.cancel_orders`: cancel requests for the filtered orders, sent
      with no opens. */
  function CancelOrdersAction<C>(state: EngineState<C>, filter: Option<Matcher>, check: RiskCheck<C>): (r: Dispatch)
    ensures r == SendRequests(state, [], CancelOrders(state, filter), check)
    ensures var out := check(state, CancelOrders(state, filter), []);
      && |r.cancels| == |out.approvedCancels| && |r.opens| == |out.approvedOpens|
      && (forall i :: 0 <= i < |r.cancels| ==> r.cancels[i] == out.approvedCancels[i].item)
      && (forall i :: 0 <= i < |r.opens| ==> r.opens[i] == out.approvedOpens[i].item)
  {
    SendRequests(state, [], CancelOrders(state, filter), check)
  }

  /** Behind a risk check that approves only requests it was handed,
      cancelling orders dispatches no opens, and every cancel it dispatches
      is a generated one: a cancel of an order of a selected instrument. */
  lemma CancelOrdersDispatchesOnlyCancels<C>(state: EngineState<C>, filter: Option<Matcher>, check: RiskCheck<C>)
    requires var out := check(state, CancelOrders(state, filter), []);
      && |out.approvedOpens| == 0
      && forall i :: 0 <= i < |out.approvedCancels| ==> out.approvedCancels[i].item in CancelOrders(state, filter)
    ensures var r := CancelOrdersAction(state, filter, check);
      && r.opens == []
      && forall c :: c in r.cancels ==> c in CancelOrders(state, filter)
    ensures var vs := Values(state.instruments);
      forall c :: c in CancelOrdersAction(state, filter, check).cancels ==>
        exists i, j :: 0 <= i < |vs| && Selected(filter, vs[i]) && 0 <= j < |vs[i].orders.entries|
                       && c == CancelFor(vs[i].orders.entries[j])
  {
    var r := CancelOrdersAction(state, filter, check);
    forall c | c in r.cancels
      ensures c in CancelOrders(state, filter)
      ensures var vs := Values(state.instruments);
        exists i, j :: 0 <= i < |vs| && Selected(filter, vs[i]) && 0 <= j < |vs[i].orders.entries|
                       && c == CancelFor(vs[i].orders.entries[j])
    {
      var k :| 0 <= k < |r.cancels| && r.cancels[k] == c;
      CancelOrdersContents(state, filter, c);
    }
  }

  /** Behind the default risk manager every request is dispatched unchanged,
      so cancelling orders dispatches exactly the generated cancels. */
  lemma DefaultRiskDispatchesAll<C>(state: EngineState<C>, opens: seq<Execution.OrderRequestOpen<nat, nat>>,
                                    cancels: seq<Cancel>, filter: Option<Matcher>)
    ensures SendRequests(state, opens, cancels, DefaultRisk()) == Dispatch(opens, cancels)
    ensures CancelOrdersAction(state, filter, DefaultRisk()) == Dispatch([], CancelOrders(state, filter))
  {
    Risk.DefaultCheckApprovesInputs(state, cancels, opens);
    var noOpens: seq<Execution.OrderRequestOpen<nat, nat>> := [];
    Risk.DefaultCheckApprovesInputs(state, CancelOrders(state, filter), noOpens);
  }
}
