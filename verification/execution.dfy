/** The order and account domain model of the pure-Python execution module:
    identifiers, order keys, balances, trades, the order-state sum type with
    its classification predicates, and account snapshots with their derived
    views (most recent timestamp, distinct assets and instruments).
    Decimals are reals and timestamps are integers. */
module Execution {
  import opened Wrappers
  import Text
  import Seqs
  import Instruments

  datatype OrderKind = Market | Limit

  datatype TimeInForce =
    | GoodUntilCancelled
    | GoodUntilEndOfDay
    | FillOrKill
    | ImmediateOrCancel

  datatype ClientOrderId = ClientOrderId(value: string)

  datatype OrderId = OrderId(value: string)

  datatype StrategyId = StrategyId(value: string)

  /** `StrategyId.unknown`. */
  const UnknownStrategy := StrategyId("unknown")

  datatype OrderKey<E, I> = OrderKey(exchange: E, instrument: I, strategy: StrategyId, cid: ClientOrderId)

  /** The four parts of `str(key)`, given how the exchange and instrument keys
      print themselves. */
  function KeyParts<E, I>(k: OrderKey<E, I>, showExchange: E -> string, showInstrument: I -> string): seq<string> {
    [showExchange(k.exchange), showInstrument(k.instrument), k.strategy.value, k.cid.value]
  }

  /** `OrderKey.__str__`: the four parts joined by colons. */
  function RenderKey<E, I>(k: OrderKey<E, I>, showExchange: E -> string, showInstrument: I -> string): (r: string)
    ensures |r| == |showExchange(k.exchange)| + |showInstrument(k.instrument)| + |k.strategy.value| + |k.cid.value| + 3
    ensures r[..|showExchange(k.exchange)|] == showExchange(k.exchange)
  {
    var p := KeyParts(k, showExchange, showInstrument);
    assert p[1..][1..][1..] == [k.cid.value];
    assert Text.Join(p[1..][1..], ':') == k.strategy.value + [':'] + k.cid.value;
    assert Text.Join(p[1..], ':') == p[1] + [':'] + Text.Join(p[1..][1..], ':');
    Text.Join(p, ':')
  }

  /** When no part contains a colon, splitting the rendering on colons gives
      back exactly the exchange, instrument, strategy and client id. */
  lemma RenderKeySplits<E, I>(k: OrderKey<E, I>, showExchange: E -> string, showInstrument: I -> string)
    requires ':' !in showExchange(k.exchange) && ':' !in showInstrument(k.instrument)
    requires ':' !in k.strategy.value && ':' !in k.cid.value
    ensures Text.Split(RenderKey(k, showExchange, showInstrument), ':')
         == [showExchange(k.exchange), showInstrument(k.instrument), k.strategy.value, k.cid.value]
  {
    Text.SplitJoin(KeyParts(k, showExchange, showInstrument), ':');
  }

  /** Two keys whose colon-free parts print alike are the same key. */
  lemma RenderKeyInjective<E, I>(k1: OrderKey<E, I>, k2: OrderKey<E, I>, showExchange: E -> string, showInstrument: I -> string)
    requires ':' !in showExchange(k1.exchange) && ':' !in showInstrument(k1.instrument)
    requires ':' !in k1.strategy.value && ':' !in k1.cid.value
    requires ':' !in showExchange(k2.exchange) && ':' !in showInstrument(k2.instrument)
    requires ':' !in k2.strategy.value && ':' !in k2.cid.value
    requires RenderKey(k1, showExchange, showInstrument) == RenderKey(k2, showExchange, showInstrument)
    ensures k1.strategy == k2.strategy && k1.cid == k2.cid
    ensures showExchange(k1.exchange) == showExchange(k2.exchange)
    ensures showInstrument(k1.instrument) == showInstrument(k2.instrument)
  {
    RenderKeySplits(k1, showExchange, showInstrument);
    RenderKeySplits(k2, showExchange, showInstrument);
  }

  datatype Balance = Balance(total: real, free: real)

  /** `Balance.used`: the part of the total that is not free. */
  function Used(b: Balance): (r: real)
    ensures r + b.free == b.total
    ensures 0.0 <= b.free <= b.total ==> 0.0 <= r <= b.total
  {
    b.total - b.free
  }

  datatype AssetBalance<A> = AssetBalance(asset: A, balance: Balance, timeExchange: int)

  datatype AssetFees<A> = AssetFees(asset: A, fees: real)

  datatype TradeId = TradeId(value: string)

  datatype Trade<A, I> = Trade(
    id: TradeId, orderId: OrderId, instrument: I, strategy: StrategyId, timeExchange: int,
    side: Instruments.Side, price: real, quantity: real, fees: AssetFees<A>)

  /** `Trade.value_quote`: the notional of the fill in the quote asset. */
  function ValueQuote<A, I>(t: Trade<A, I>): (r: real)
    ensures t.quantity != 0.0 ==> r / t.quantity == t.price
    ensures t.quantity == 0.0 ==> r == 0.0
    ensures t.price >= 0.0 && t.quantity >= 0.0 ==> r >= 0.0
  {
    t.price * t.quantity
  }

  /** Splitting a fill into two at the same price splits its notional. */
  lemma ValueQuoteAdditive<A, I>(t: Trade<A, I>, a: real, b: real)
    requires t.quantity == a + b
    ensures ValueQuote(t) == ValueQuote(t.(quantity := a)) + ValueQuote(t.(quantity := b))
  {
    assert t.price * (a + b) == t.price * a + t.price * b;
  }

  datatype Open = Open(id: OrderId, timeExchange: int, filledQuantity: real)

  /** `Open.quantity_remaining`: what is left of `initial` after the fills. */
  function QuantityRemaining(o: Open, initial: real): (r: real)
    ensures r + o.filledQuantity == initial
    ensures 0.0 <= o.filledQuantity <= initial ==> 0.0 <= r <= initial
  {
    initial - o.filledQuantity
  }

  datatype Cancelled = Cancelled(id: OrderId, timeExchange: int)

  datatype OrderError =
    | InsufficientBalance
    | InvalidPrice
    | InvalidQuantity
    | UnknownInstrument
    | ExchangeError

  datatype ActiveOrderState = OpenInFlight | OpenOrder(open: Open) | CancelInFlight(order: Option<Open>)

  /** `InactiveOrderState` wraps a `Cancelled`, an `OrderError` or a string;
      its class methods use the strings "FullyFilled" and "Expired", but the
      constructor accepts any string. */
  datatype InactiveOrderState =
    | CancelledState(cancelled: Cancelled)
    | FailedState(error: OrderError)
    | TaggedState(tag: string)

  /** `InactiveOrderState.fully_filled`. */
  const FullyFilled := TaggedState("FullyFilled")

  /** `InactiveOrderState.expired`. */
  const Expired := TaggedState("Expired")

  predicate IsCancelled(s: InactiveOrderState) {
    s.CancelledState?
  }

  predicate IsFullyFilled(s: InactiveOrderState) {
    s == FullyFilled
  }

  predicate IsExpired(s: InactiveOrderState) {
    s == Expired
  }

  predicate IsOpenFailed(s: InactiveOrderState) {
    s.FailedState?
  }

  /** The states the four class methods build. */
  predicate Canonical(s: InactiveOrderState) {
    s.TaggedState? ==> s.tag == "FullyFilled" || s.tag == "Expired"
  }

  /** Exactly one of the four classification predicates holds for every state
      the class methods build, and none holds for any other tag. */
  lemma InactiveClassification(s: InactiveOrderState)
    ensures Canonical(s) ==>
      (if IsCancelled(s) then 1 else 0) + (if IsFullyFilled(s) then 1 else 0)
      + (if IsExpired(s) then 1 else 0) + (if IsOpenFailed(s) then 1 else 0) == 1
    ensures !Canonical(s) ==> !IsCancelled(s) && !IsFullyFilled(s) && !IsExpired(s) && !IsOpenFailed(s)
  {
  }

  datatype OrderState = Active(active: ActiveOrderState) | Inactive(inactive: InactiveOrderState)

  /** `OrderState.fully_filled` and `OrderState.expired`. */
  const OrderFullyFilled := Inactive(FullyFilled)
  const OrderExpired := Inactive(Expired)

  predicate IsActive(s: OrderState) {
    s.Active?
  }

  predicate IsInactive(s: OrderState) {
    s.Inactive?
  }

  /** Every order state is either active or inactive, never both; the active
      ones are exactly the three in-flight / open states. */
  lemma ActiveInactiveExclusive(s: OrderState)
    ensures IsActive(s) != IsInactive(s)
    ensures IsActive(s) <==> s == Active(OpenInFlight) || (s.Active? && (s.active.OpenOrder? || s.active.CancelInFlight?))
  {
  }

  /** `OrderState.time_exchange`: the timestamp the state carries, if any. */
  function TimeExchange(s: OrderState): (r: Option<int>)
    ensures s.Inactive? ==> (r.Some? <==> IsCancelled(s.inactive))
    ensures s.Inactive? && IsCancelled(s.inactive) ==> r == Some(s.inactive.cancelled.timeExchange)
    ensures s == Active(OpenInFlight) ==> r == None
    ensures s.Active? && s.active.OpenOrder? ==> r == Some(s.active.open.timeExchange)
    ensures s.Active? && s.active.CancelInFlight? ==>
      r == (if s.active.order.Some? then Some(s.active.order.value.timeExchange) else None)
  {
    match s
    case Inactive(CancelledState(c)) => Some(c.timeExchange)
    case Inactive(_) => None
    case Active(OpenOrder(o)) => Some(o.timeExchange)
    case Active(CancelInFlight(Some(o))) => Some(o.timeExchange)
    case Active(_) => None
  }

  /** A state has a timestamp exactly when it holds an open or cancelled order. */
  lemma TimeExchangeIffOrder(s: OrderState)
    ensures TimeExchange(s).Some? <==>
      (s.Inactive? && s.inactive.CancelledState?)
      || (s.Active? && s.active.OpenOrder?)
      || (s.Active? && s.active.CancelInFlight? && s.active.order.Some?)
  {
  }

  datatype Order<E, I> = Order(
    key: OrderKey<E, I>, side: Instruments.Side, price: real, quantity: real,
    kind: OrderKind, timeInForce: TimeInForce, state: OrderState)

  datatype RequestOpen = RequestOpen(
    side: Instruments.Side, price: real, quantity: real, kind: OrderKind, timeInForce: TimeInForce)

  datatype OrderRequestOpen<E, I> = OrderRequestOpen(key: OrderKey<E, I>, state: RequestOpen)

  datatype OrderRequestCancel<E, I> = OrderRequestCancel(key: OrderKey<E, I>, state: Option<OrderId>)

  datatype InstrumentAccountSnapshot<E, I> = InstrumentAccountSnapshot(instrument: I, orders: seq<Order<E, I>>)

  datatype AccountSnapshot<E, A, I> = AccountSnapshot(
    exchange: E, balances: seq<AssetBalance<A>>, instruments: seq<InstrumentAccountSnapshot<E, I>>)

  /** `InstrumentAccountSnapshot.new`: a missing order list is empty. */
  function NewInstrumentSnapshot<E, I>(instrument: I, orders: Option<seq<Order<E, I>>>): (r: InstrumentAccountSnapshot<E, I>)
    ensures r.instrument == instrument
    ensures orders.Some? ==> r.orders == orders.value
    ensures orders.None? ==> r.orders == []
  {
    InstrumentAccountSnapshot(instrument, orders.GetOr([]))
  }

  /** Timestamps of the balances, in order. */
  function BalanceTimes<A>(bs: seq<AssetBalance<A>>): seq<int> {
    seq(|bs|, i requires 0 <= i < |bs| => bs[i].timeExchange)
  }

  /** Timestamps the orders' states carry, in order. */
  function OrderTimes<E, I>(os: seq<Order<E, I>>): seq<int> {
    if |os| == 0 then []
    else
      var t := TimeExchange(os[0].state);
      (if t.Some? then [t.value] else []) + OrderTimes(os[1..])
  }

  function InstrumentTimes<E, I>(ins: seq<InstrumentAccountSnapshot<E, I>>): seq<int> {
    if |ins| == 0 then [] else OrderTimes(ins[0].orders) + InstrumentTimes(ins[1..])
  }

  /** Every timestamp `time_most_recent` considers: all balance times, then
      the exchange time of every order state that has one. */
  function SnapshotTimes<E, A, I>(s: AccountSnapshot<E, A, I>): seq<int> {
    BalanceTimes(s.balances) + InstrumentTimes(s.instruments)
  }

  predicate IsMax(m: int, xs: seq<int>) {
    m in xs && forall i :: 0 <= i < |xs| ==> xs[i] <= m
  }

  /** Fold `xs` into a running maximum. */
  method FoldMax(acc: Option<int>, xs: seq<int>) returns (r: Option<int>)
    ensures acc.None? && |xs| == 0 ==> r.None?
    ensures r.Some? <==> acc.Some? || |xs| > 0
    ensures acc.None? && r.Some? ==> IsMax(r.value, xs)
    ensures acc.Some? ==> IsMax(r.value, [acc.value] + xs)
  {
    r := acc;
    var n := 0;
    while n < |xs|
      invariant 0 <= n <= |xs|
      invariant r.Some? <==> acc.Some? || n > 0
      invariant acc.None? && r.Some? ==> IsMax(r.value, xs[..n])
      invariant acc.Some? ==> IsMax(r.value, [acc.value] + xs[..n])
    {
      if r.None? || r.value < xs[n] {
        r := Some(xs[n]);
      }
      assert xs[..n + 1] == xs[..n] + [xs[n]];
      if acc.Some? {
        assert [acc.value] + xs[..n + 1] == [acc.value] + xs[..n] + [xs[n]];
      }
      n := n + 1;
    }
    assert xs[..n] == xs;
  }

  /** `AccountSnapshot.time_most_recent`: the latest of all balance and order
      timestamps, or nothing when there are none. */
  method TimeMostRecent<E, A, I>(s: AccountSnapshot<E, A, I>) returns (r: Option<int>)
    ensures r.None? <==> |SnapshotTimes(s)| == 0
    ensures r.Some? ==> IsMax(r.value, SnapshotTimes(s))
  {
    var times := SnapshotTimes(s);
    r := FoldMax(None, times);
  }

  /** Order-preserving de-duplication with a `seen` set, as the generator
      methods `assets` and `instruments_iter` write it. */
  method DistinctLoop<T(==)>(xs: seq<T>) returns (r: seq<T>)
    ensures r == Seqs.Distinct(xs)
  {
    var seen: set<T> := {};
    r := [];
    var n := 0;
    while n < |xs|
      invariant 0 <= n <= |xs|
      invariant r == Seqs.Distinct(xs[..n])
      invariant forall x :: x in seen <==> x in r
    {
      assert xs[..n + 1][..n] == xs[..n];
      if xs[n] !in seen {
        seen := seen + {xs[n]};
        r := r + [xs[n]];
      }
      n := n + 1;
    }
    assert xs[..n] == xs;
  }

  function BalanceAssets<A>(bs: seq<AssetBalance<A>>): (r: seq<A>)
    ensures |r| == |bs| && forall i :: 0 <= i < |bs| ==> r[i] == bs[i].asset
  {
    seq(|bs|, i requires 0 <= i < |bs| => bs[i].asset)
  }

  function SnapshotInstruments<E, I>(ins: seq<InstrumentAccountSnapshot<E, I>>): (r: seq<I>)
    ensures |r| == |ins| && forall i :: 0 <= i < |ins| ==> r[i] == ins[i].instrument
  {
    seq(|ins|, i requires 0 <= i < |ins| => ins[i].instrument)
  }

  /** `AccountSnapshot.assets`: each balance asset once, in first-occurrence
      order. */
  method Assets<E, A(==), I>(s: AccountSnapshot<E, A, I>) returns (r: seq<A>)
    ensures Seqs.NoDuplicates(r)
    ensures forall a :: a in r <==> exists i :: 0 <= i < |s.balances| && s.balances[i].asset == a
    ensures r == Seqs.Distinct(BalanceAssets(s.balances))
  {
    var keys := BalanceAssets(s.balances);
    r := DistinctLoop(keys);
  }

  /** `AccountSnapshot.instruments_iter`: each instrument once, in
      first-occurrence order. */
  method InstrumentsIter<E, A, I(==)>(s: AccountSnapshot<E, A, I>) returns (r: seq<I>)
    ensures Seqs.NoDuplicates(r)
    ensures forall x :: x in r <==> exists i :: 0 <= i < |s.instruments| && s.instruments[i].instrument == x
    ensures r == Seqs.Distinct(SnapshotInstruments(s.instruments))
  {
    var keys := SnapshotInstruments(s.instruments);
    r := DistinctLoop(keys);
  }
}
