/** The constructors of the account snapshots the Rust bindings expose. An
    instrument snapshot holds only orders for its own instrument; an account
    snapshot holds balances with `0 <= free <= total`, one per input tuple and
    in input order, and only orders for its own exchange. */
module Account {
  import opened Wrappers
  import opened Errors
  import Text
  import Floats
  import Execution
  import Loops

  type Order = Execution.Order<nat, nat>
  type InstrumentSnapshot = Execution.InstrumentAccountSnapshot<nat, nat>
  type Snapshot = Execution.AccountSnapshot<nat, nat, nat>

  /** The check `InstrumentAccountSnapshot(instrument, orders)` makes of each
      order. */
  function CheckOrderInstrument(instrument: nat, order: Order): (r: Outcome<PyErr>)
    ensures r.Pass? <==> order.key.instrument == instrument
    ensures r.Fail? ==> r.error == ValueError("order instrument " + Text.NatToString(order.key.instrument)
                                              + " does not match snapshot instrument " + Text.NatToString(instrument))
  {
    if order.key.instrument != instrument then
      Fail(ValueError("order instrument " + Text.NatToString(order.key.instrument)
                      + " does not match snapshot instrument " + Text.NatToString(instrument)))
    else Pass
  }

  /** `InstrumentAccountSnapshot(instrument, orders)`: every order must be
      for the snapshot's instrument; the orders are kept as given. */
  function NewInstrumentAccountSnapshot(instrument: nat, orders: seq<Order>): (r: Result<InstrumentSnapshot, PyErr>)
    ensures r.Success? <==> forall i :: 0 <= i < |orders| ==> orders[i].key.instrument == instrument
    ensures r.Success? ==> r.value.instrument == instrument && r.value.orders == orders
  {
    var check := (o: Order) => CheckOrderInstrument(instrument, o);
    :- Loops.CheckEach(orders, check);
    Success(Execution.InstrumentAccountSnapshot(instrument, orders))
  }

  /** A refused instrument snapshot names the first order for another
      instrument. */
  lemma InstrumentSnapshotFirstMismatch(instrument: nat, orders: seq<Order>)
    requires NewInstrumentAccountSnapshot(instrument, orders).Failure?
    ensures exists k :: (0 <= k < |orders| && orders[k].key.instrument != instrument
      && (forall j :: 0 <= j < k ==> orders[j].key.instrument == instrument)
      && NewInstrumentAccountSnapshot(instrument, orders).error
           == ValueError("order instrument " + Text.NatToString(orders[k].key.instrument)
                         + " does not match snapshot instrument " + Text.NatToString(instrument)))
  {
    var check := (o: Order) => CheckOrderInstrument(instrument, o);
    Loops.CheckEachFirstFailure(orders, check);
    var k :| 0 <= k < |orders| && check(orders[k]) == Loops.CheckEach(orders, check)
      && forall j :: 0 <= j < k ==> check(orders[j]).Pass?;
    assert check(orders[k]) == CheckOrderInstrument(instrument, orders[k]);
    assert forall j :: 0 <= j < k ==> check(orders[j]) == CheckOrderInstrument(instrument, orders[j]);
  }

  /** `InstrumentAccountSnapshot.__len__`. */
  function Len(s: InstrumentSnapshot): nat {
    |s.orders|
  }

  /** An instrument snapshot's length is the number of orders it was built
      from. */
  lemma LenCountsOrders(instrument: nat, orders: seq<Order>)
    requires NewInstrumentAccountSnapshot(instrument, orders).Success?
    ensures Len(NewInstrumentAccountSnapshot(instrument, orders).value) == |orders|
  {
  }

  /** One `(asset, total, free, time_exchange)` tuple of the `balances`
      argument; `total` and `free` are Python floats. */
  datatype BalanceArg = BalanceArg(asset: nat, total: Floats.Float, free: Floats.Float, timeExchange: int)

  predicate NonNegativeFinite(f: Floats.Float) {
    f.Finite? && f.value >= 0.0
  }

  predicate ValidBalance(b: Execution.Balance) {
    0.0 <= b.free <= b.total
  }

  /** The conversion of one balance tuple: total, then free, must be finite
      and non-negative, and free may not exceed total. */
  function NewAssetBalance(arg: BalanceArg): (r: Result<Execution.AssetBalance<nat>, PyErr>)
    ensures !NonNegativeFinite(arg.total) ==>
      r == Failure(ValueError("total balance must be a non-negative finite value"))
    ensures NonNegativeFinite(arg.total) && !NonNegativeFinite(arg.free) ==>
      r == Failure(ValueError("free balance must be a non-negative finite value"))
    ensures NonNegativeFinite(arg.total) && NonNegativeFinite(arg.free) && arg.free.value > arg.total.value ==>
      r == Failure(ValueError("free balance cannot exceed total balance"))
    ensures r.Success? <==>
      NonNegativeFinite(arg.total) && NonNegativeFinite(arg.free) && arg.free.value <= arg.total.value
    ensures r.Success? ==>
      && r.value == Execution.AssetBalance(arg.asset, Execution.Balance(arg.total.value, arg.free.value), arg.timeExchange)
      && ValidBalance(r.value.balance)
  {
    if !arg.total.Finite? || arg.total.value < 0.0 then
      Failure(ValueError("total balance must be a non-negative finite value"))
    else if !arg.free.Finite? || arg.free.value < 0.0 then
      Failure(ValueError("free balance must be a non-negative finite value"))
    else if arg.free.value > arg.total.value then
      Failure(ValueError("free balance cannot exceed total balance"))
    else Success(Execution.AssetBalance(arg.asset, Execution.Balance(arg.total.value, arg.free.value), arg.timeExchange))
  }

  /** The check `AccountSnapshot(...)` makes of each order of each instrument
      snapshot. */
  function CheckOrderExchange(exchange: nat, order: Order): (r: Outcome<PyErr>)
    ensures r.Pass? <==> order.key.exchange == exchange
    ensures r.Fail? ==> r.error == ValueError("order exchange " + Text.NatToString(order.key.exchange)
                                              + " does not match snapshot exchange " + Text.NatToString(exchange))
  {
    if order.key.exchange != exchange then
      Fail(ValueError("order exchange " + Text.NatToString(order.key.exchange)
                      + " does not match snapshot exchange " + Text.NatToString(exchange)))
    else Pass
  }

  /** The per-order check as a value, for the checking loop. */
  function ExchangeCheck(exchange: nat): Order -> Outcome<PyErr> {
    o => CheckOrderExchange(exchange, o)
  }

  /** The orders of all instrument snapshots, in the order the nested loop
      visits them. */
  function AllOrders(instruments: seq<InstrumentSnapshot>): (r: seq<Order>)
    ensures forall i, k :: 0 <= i < |instruments| && 0 <= k < |instruments[i].orders| ==> instruments[i].orders[k] in r
    ensures forall j :: 0 <= j < |r| ==> exists i :: 0 <= i < |instruments| && r[j] in instruments[i].orders
  {
    if |instruments| == 0 then []
    else
      var rest := AllOrders(instruments[1..]);
      assert forall i :: 1 <= i < |instruments| ==> instruments[i] == instruments[1..][i - 1];
      instruments[0].orders + rest
  }

  function ConvertBalance(index: nat, arg: BalanceArg): Result<Execution.AssetBalance<nat>, PyErr> {
    NewAssetBalance(arg)
  }

  /** `AccountSnapshot(exchange, balances, instruments)`: the balance tuples
      are converted in order, the first bad one raising; then every order of
      every instrument snapshot must be for the snapshot's exchange. */
  function NewAccountSnapshot(exchange: nat, balances: seq<BalanceArg>, instruments: seq<InstrumentSnapshot>)
    : (r: Result<Snapshot, PyErr>)
    ensures r.Success? ==> r.value.exchange == exchange && r.value.instruments == instruments
    ensures r.Success? ==> |r.value.balances| == |balances|
    ensures Loops.TryEach(balances, ConvertBalance).Success? ==>
      (r.Success? <==> forall o :: o in AllOrders(instruments) ==> o.key.exchange == exchange)
    ensures Loops.TryEach(balances, ConvertBalance).Failure? ==>
      r == Failure(Loops.TryEach(balances, ConvertBalance).error)
  {
    var converted :- Loops.TryEach(balances, ConvertBalance);
    var orders := AllOrders(instruments);
    :- Loops.CheckEach(orders, ExchangeCheck(exchange));
    Success(Execution.AccountSnapshot(exchange, converted, instruments))
  }

  /** An account snapshot keeps one balance per input tuple, in input order,
      each with `0 <= free <= total`; it is built exactly when every tuple
      passes its checks and every order is for the snapshot's exchange. */
  lemma AccountSnapshotBalances(exchange: nat, balances: seq<BalanceArg>, instruments: seq<InstrumentSnapshot>)
    ensures var r := NewAccountSnapshot(exchange, balances, instruments);
      r.Success? <==>
        && (forall k :: 0 <= k < |balances| ==> NewAssetBalance(balances[k]).Success?)
        && (forall i, k :: 0 <= i < |instruments| && 0 <= k < |instruments[i].orders| ==>
              instruments[i].orders[k].key.exchange == exchange)
    ensures var r := NewAccountSnapshot(exchange, balances, instruments);
      r.Success? ==> forall k :: 0 <= k < |balances| ==>
        && r.value.balances[k].asset == balances[k].asset
        && r.value.balances[k].balance == Execution.Balance(balances[k].total.value, balances[k].free.value)
        && r.value.balances[k].timeExchange == balances[k].timeExchange
        && ValidBalance(r.value.balances[k].balance)
  {
    Loops.TryEachPositions(balances, ConvertBalance);
    var orders := AllOrders(instruments);
    var r := NewAccountSnapshot(exchange, balances, instruments);
    if Loops.TryEach(balances, ConvertBalance).Success? {
      assert r.Success? <==> forall o :: o in orders ==> o.key.exchange == exchange;
      if r.Success? {
        assert r.value.balances == Loops.TryEach(balances, ConvertBalance).value;
        forall k | 0 <= k < |balances|
          ensures r.value.balances[k] == NewAssetBalance(balances[k]).value
        {
          assert ConvertBalance(k, balances[k]) == NewAssetBalance(balances[k]);
        }
      }
    } else {
      assert !forall k :: 0 <= k < |balances| ==> ConvertBalance(k, balances[k]).Success?;
    }
  }

  /** The exchange check over a list of orders refuses with the message of
      the first order on another exchange. */
  lemma OrdersFirstMismatch(exchange: nat, orders: seq<Order>)
    requires Loops.CheckEach(orders, ExchangeCheck(exchange)).Fail?
    ensures exists k :: (0 <= k < |orders| && orders[k].key.exchange != exchange
      && (forall j :: 0 <= j < k ==> orders[j].key.exchange == exchange)
      && Loops.CheckEach(orders, ExchangeCheck(exchange)).error
           == ValueError("order exchange " + Text.NatToString(orders[k].key.exchange)
                         + " does not match snapshot exchange " + Text.NatToString(exchange)))
  {
    var check := ExchangeCheck(exchange);
    Loops.CheckEachFirstFailure(orders, check);
    var k :| 0 <= k < |orders| && check(orders[k]) == Loops.CheckEach(orders, check)
      && forall j :: 0 <= j < k ==> check(orders[j]).Pass?;
    assert check(orders[k]) == CheckOrderExchange(exchange, orders[k]);
    assert forall j :: 0 <= j < k ==> check(orders[j]) == CheckOrderExchange(exchange, orders[j]);
  }

  /** When every balance tuple converts, a refused account snapshot names
      the first order, in the nested loop's order, that is on another
      exchange. */
  lemma AccountSnapshotFirstMismatch(exchange: nat, balances: seq<BalanceArg>, instruments: seq<InstrumentSnapshot>)
    requires Loops.TryEach(balances, ConvertBalance).Success?
    requires NewAccountSnapshot(exchange, balances, instruments).Failure?
    ensures var orders := AllOrders(instruments);
      exists k :: (0 <= k < |orders| && orders[k].key.exchange != exchange
        && (forall j :: 0 <= j < k ==> orders[j].key.exchange == exchange)
        && NewAccountSnapshot(exchange, balances, instruments).error
             == ValueError("order exchange " + Text.NatToString(orders[k].key.exchange)
                           + " does not match snapshot exchange " + Text.NatToString(exchange)))
  {
    SnapshotRefusalIsOrderCheck(exchange, balances, instruments);
    OrdersFirstMismatch(exchange, AllOrders(instruments));
  }

  /** With every balance converted, the snapshot's only refusal is the
      order check's. */
  lemma SnapshotRefusalIsOrderCheck(exchange: nat, balances: seq<BalanceArg>, instruments: seq<InstrumentSnapshot>)
    requires Loops.TryEach(balances, ConvertBalance).Success?
    ensures NewAccountSnapshot(exchange, balances, instruments).Failure? ==>
      && Loops.CheckEach(AllOrders(instruments), ExchangeCheck(exchange)).Fail?
      && NewAccountSnapshot(exchange, balances, instruments).error
           == Loops.CheckEach(AllOrders(instruments), ExchangeCheck(exchange)).error
  {
  }

  /** A balance with free above total, anywhere in the list, refuses the whole
      snapshot. */
  lemma FreeAboveTotalRefused(exchange: nat, balances: seq<BalanceArg>, instruments: seq<InstrumentSnapshot>, k: nat)
    requires k < |balances|
    requires balances[k].free.Finite? && balances[k].total.Finite?
    requires balances[k].free.value > balances[k].total.value
    ensures NewAccountSnapshot(exchange, balances, instruments).Failure?
  {
    AccountSnapshotBalances(exchange, balances, instruments);
  }
}
