/** Market events of the pure-Python data module: public trades, level-1
    order books with their mid prices, the tagged `DataKind`, and the
    `MarketEvent` envelope with its kind mapping and typed projections.
    Decimals and floats are reals. */
module MarketData {
  import opened Wrappers
  import Instruments

  datatype PublicTrade = PublicTrade(id: string, price: real, amount: real, side: Instruments.Side)

  datatype Level = Level(price: real, amount: real)

  datatype OrderBookL1 = OrderBookL1(lastUpdateTime: int, bestBid: Option<Level>, bestAsk: Option<Level>)

  /** `OrderBookL1.mid_price`: the average of the best bid and ask prices,
      when both sides are present. */
  function MidPrice(book: OrderBookL1): (r: Option<real>)
    ensures r.Some? <==> book.bestBid.Some? && book.bestAsk.Some?
    ensures r.Some? ==> r.value - book.bestBid.value.price == book.bestAsk.value.price - r.value
    ensures r.Some? && book.bestBid.value.price <= book.bestAsk.value.price ==>
              book.bestBid.value.price <= r.value <= book.bestAsk.value.price
  {
    if book.bestAsk.None? || book.bestBid.None? then None
    else Some((book.bestBid.value.price + book.bestAsk.value.price) / 2.0)
  }

  /** Decimal division by zero: `x / 0` with `x != 0` and `0 / 0` both raise. */
  datatype DivisionError = DivisionByZero | DivisionUndefined

  /** `OrderBookL1.volume_weighted_mid_price` (the micro-price): each side's
      price weighted by the other side's amount. The division raises when
      the two amounts sum to zero. */
  function VolumeWeightedMidPrice(book: OrderBookL1): (r: Result<Option<real>, DivisionError>)
    ensures (book.bestBid.None? || book.bestAsk.None?) <==> r == Success(None)
    ensures r.Failure? <==> book.bestBid.Some? && book.bestAsk.Some?
                            && book.bestBid.value.amount + book.bestAsk.value.amount == 0.0
    ensures r.Success? && r.value.Some? ==>
      var bid := book.bestBid.value;
      var ask := book.bestAsk.value;
      r.value.value * (bid.amount + ask.amount) == bid.price * ask.amount + ask.price * bid.amount
  {
    if book.bestAsk.None? || book.bestBid.None? then Success(None)
    else
      var bid := book.bestBid.value;
      var ask := book.bestAsk.value;
      var numerator := bid.price * ask.amount + ask.price * bid.amount;
      var denominator := bid.amount + ask.amount;
      if denominator == 0.0 then
        Failure(if numerator == 0.0 then DivisionUndefined else DivisionByZero)
      else Success(Some(numerator / denominator))
  }

  /** With non-negative amounts the micro-price is a weighted average, so it
      lies between the bid and the ask price. */
  lemma VolumeWeightedMidPriceBetween(book: OrderBookL1)
    requires book.bestBid.Some? && book.bestAsk.Some?
    requires book.bestBid.value.amount >= 0.0 && book.bestAsk.value.amount >= 0.0
    requires book.bestBid.value.amount + book.bestAsk.value.amount > 0.0
    requires book.bestBid.value.price <= book.bestAsk.value.price
    ensures VolumeWeightedMidPrice(book).Success?
    ensures book.bestBid.value.price <= VolumeWeightedMidPrice(book).value.value <= book.bestAsk.value.price
  {
    var bid := book.bestBid.value;
    var ask := book.bestAsk.value;
    var s := bid.amount + ask.amount;
    var m := VolumeWeightedMidPrice(book).value.value;
    assert m * s == bid.price * ask.amount + ask.price * bid.amount;
    assert (m - bid.price) * s == (ask.price - bid.price) * bid.amount;
    assert (ask.price - m) * s == (ask.price - bid.price) * ask.amount;
    assert (ask.price - bid.price) * bid.amount >= 0.0;
    assert (ask.price - bid.price) * ask.amount >= 0.0;
  }

  datatype OrderBookEvent = Snapshot | Update

  /** The payload a `DataKind` carries; candles and liquidations carry none. */
  datatype Payload =
    | TradeData(trade: PublicTrade)
    | L1Data(book: OrderBookL1)
    | BookData(event: OrderBookEvent)
    | NoData

  /** `DataKind`: a free-form tag and a payload. */
  datatype DataKind = DataKind(kind: string, data: Payload)

  function TradeKind(t: PublicTrade): DataKind { DataKind("trade", TradeData(t)) }
  function L1Kind(b: OrderBookL1): DataKind { DataKind("order_book_l1", L1Data(b)) }
  function BookKind(e: OrderBookEvent): DataKind { DataKind("order_book", BookData(e)) }
  const CandleKind := DataKind("candle", NoData)
  const LiquidationKind := DataKind("liquidation", NoData)

  /** The tags `kind_name` renames. */
  predicate Renamed(tag: string) {
    tag == "trade" || tag == "order_book_l1" || tag == "order_book"
  }

  /** `DataKind.kind_name`. */
  function KindName(k: DataKind): (r: string)
    ensures k.kind == "trade" ==> r == "public_trade"
    ensures k.kind == "order_book_l1" ==> r == "l1"
    ensures k.kind == "order_book" ==> r == "l2"
    ensures r == k.kind <==> !Renamed(k.kind)
  {
    if k.kind == "trade" then "public_trade"
    else if k.kind == "order_book_l1" then "l1"
    else if k.kind == "order_book" then "l2"
    else if k.kind == "candle" then "candle"
    else if k.kind == "liquidation" then "liquidation"
    else k.kind
  }

  /** The names of the five kinds the class methods build. */
  lemma KindNamesOfConstructors(t: PublicTrade, b: OrderBookL1, e: OrderBookEvent)
    ensures KindName(TradeKind(t)) == "public_trade"
    ensures KindName(L1Kind(b)) == "l1"
    ensures KindName(BookKind(e)) == "l2"
    ensures KindName(CandleKind) == "candle"
    ensures KindName(LiquidationKind) == "liquidation"
  {
  }

  datatype MarketEvent<I, K> = MarketEvent(timeExchange: int, timeReceived: int, exchange: string, instrument: I, kind: K)

  /** `MarketEvent.map_kind`. */
  function MapKind<I, K, L>(e: MarketEvent<I, K>, op: K -> L): (r: MarketEvent<I, L>)
    ensures r.timeExchange == e.timeExchange && r.timeReceived == e.timeReceived
    ensures r.exchange == e.exchange && r.instrument == e.instrument
    ensures r.kind == op(e.kind)
  {
    MarketEvent(e.timeExchange, e.timeReceived, e.exchange, e.instrument, op(e.kind))
  }

  /** `map_kind` is a functor map: identity and composition laws. */
  lemma MapKindLaws<I, K, L, M>(e: MarketEvent<I, K>, f: K -> L, g: L -> M)
    ensures MapKind(e, (k: K) => k) == e
    ensures MapKind(MapKind(e, f), g) == MapKind(e, (k: K) => g(f(k)))
  {
  }

  /** `as_public_trade`. */
  function AsPublicTrade<I>(e: MarketEvent<I, DataKind>): (r: Option<MarketEvent<I, PublicTrade>>)
    ensures r.Some? <==> e.kind.data.TradeData?
    ensures r.Some? ==> r.value.kind == e.kind.data.trade && MapKind(r.value, _ => e.kind) == e
  {
    if e.kind.data.TradeData? then Some(MarketEvent(e.timeExchange, e.timeReceived, e.exchange, e.instrument, e.kind.data.trade))
    else None
  }

  /** `as_order_book_l1`. */
  function AsOrderBookL1<I>(e: MarketEvent<I, DataKind>): (r: Option<MarketEvent<I, OrderBookL1>>)
    ensures r.Some? <==> e.kind.data.L1Data?
    ensures r.Some? ==> r.value.kind == e.kind.data.book && MapKind(r.value, _ => e.kind) == e
  {
    if e.kind.data.L1Data? then Some(MarketEvent(e.timeExchange, e.timeReceived, e.exchange, e.instrument, e.kind.data.book))
    else None
  }

  /** `as_order_book`. */
  function AsOrderBook<I>(e: MarketEvent<I, DataKind>): (r: Option<MarketEvent<I, OrderBookEvent>>)
    ensures r.Some? <==> e.kind.data.BookData?
    ensures r.Some? ==> r.value.kind == e.kind.data.event && MapKind(r.value, _ => e.kind) == e
  {
    if e.kind.data.BookData? then Some(MarketEvent(e.timeExchange, e.timeReceived, e.exchange, e.instrument, e.kind.data.event))
    else None
  }

  /** Wrapping a typed event's payload in its `DataKind` and projecting it
      back out gives the typed event; the other two projections refuse it. */
  lemma ProjectionRoundTrips<I>(t: MarketEvent<I, PublicTrade>, b: MarketEvent<I, OrderBookL1>, o: MarketEvent<I, OrderBookEvent>)
    ensures AsPublicTrade(MapKind(t, TradeKind)) == Some(t)
    ensures AsOrderBookL1(MapKind(t, TradeKind)).None? && AsOrderBook(MapKind(t, TradeKind)).None?
    ensures AsOrderBookL1(MapKind(b, L1Kind)) == Some(b)
    ensures AsPublicTrade(MapKind(b, L1Kind)).None? && AsOrderBook(MapKind(b, L1Kind)).None?
    ensures AsOrderBook(MapKind(o, BookKind)) == Some(o)
    ensures AsPublicTrade(MapKind(o, BookKind)).None? && AsOrderBookL1(MapKind(o, BookKind)).None?
  {
  }
}
