/** Instruments and their indexed form: instrument kinds with their contract
    data, remapping an instrument's exchange key, and the builder that
    assigns dense indices to exchanges, exchange assets and instruments.

    The builder's state and the built collection are the same immutable
    record here; `build` copies lists and dicts, which is the identity on
    values. The builder's invariant is `Valid`: every stored key equals its
    position, every lookup dict agrees with the lists, and every index held
    by an indexed instrument resolves to the exchange and assets it names. */
module Instruments {
  import opened Wrappers
  import Text

  datatype Side = Buy | Sell

  datatype ExchangeId =
    | Other | Simulated | Mock
    | BinanceFuturesCoin | BinanceFuturesUsd | BinanceOptions | BinancePortfolioMargin | BinanceSpot | BinanceUs
    | Bitazza | Bitfinex | Bitflyer | Bitget | Bitmart | BitmartFuturesUsd | Bitmex | Bitso | Bitstamp | Bitvavo | Bithumb
    | BybitPerpetualsUsd | BybitSpot | Cexio | Coinbase | CoinbaseInternational | Cryptocom | Deribit
    | GateioFuturesBtc | GateioFuturesUsd | GateioOptions | GateioPerpetualsBtc | GateioPerpetualsUsd | GateioSpot
    | Gemini | Hitbtc | Htx | Kraken | Kucoin | Liquid | Mexc | Okx | Poloniex
  {
    /** The enum value, which is also what `str()` prints. */
    function Name(): string {
      match this
      case Other => "other"
      case Simulated => "simulated"
      case Mock => "mock"
      case BinanceFuturesCoin => "binance_futures_coin"
      case BinanceFuturesUsd => "binance_futures_usd"
      case BinanceOptions => "binance_options"
      case BinancePortfolioMargin => "binance_portfolio_margin"
      case BinanceSpot => "binance_spot"
      case BinanceUs => "binance_us"
      case Bitazza => "bitazza"
      case Bitfinex => "bitfinex"
      case Bitflyer => "bitflyer"
      case Bitget => "bitget"
      case Bitmart => "bitmart"
      case BitmartFuturesUsd => "bitmart_futures_usd"
      case Bitmex => "bitmex"
      case Bitso => "bitso"
      case Bitstamp => "bitstamp"
      case Bitvavo => "bitvavo"
      case Bithumb => "bithumb"
      case BybitPerpetualsUsd => "bybit_perpetuals_usd"
      case BybitSpot => "bybit_spot"
      case Cexio => "cexio"
      case Coinbase => "coinbase"
      case CoinbaseInternational => "coinbase_international"
      case Cryptocom => "cryptocom"
      case Deribit => "deribit"
      case GateioFuturesBtc => "gateio_futures_btc"
      case GateioFuturesUsd => "gateio_futures_usd"
      case GateioOptions => "gateio_options"
      case GateioPerpetualsBtc => "gateio_perpetuals_btc"
      case GateioPerpetualsUsd => "gateio_perpetuals_usd"
      case GateioSpot => "gateio_spot"
      case Gemini => "gemini"
      case Hitbtc => "hitbtc"
      case Htx => "htx"
      case Kraken => "kraken"
      case Kucoin => "kucoin"
      case Liquid => "liquid"
      case Mexc => "mexc"
      case Okx => "okx"
      case Poloniex => "poloniex"
    }
  }

  datatype Asset = Asset(nameInternal: string, nameExchange: string)

  datatype Underlying<A> = Underlying(base: A, quote: A)

  datatype InstrumentQuoteAsset = UnderlyingBase | UnderlyingQuote

  datatype OptionKind = Call | Put

  datatype OptionExercise = American | Bermudan | European

  /** Contract data of a derivative, keyed by whatever identifies the
      settlement asset (an `Asset` before indexing, an index after). */
  datatype Contract<A> =
    | PerpetualContract(contractSize: real, settlementAsset: A)
    | FutureContract(contractSize: real, settlementAsset: A, expiry: int)
    | OptionContract(contractSize: real, settlementAsset: A, optionKind: OptionKind,
                     exercise: OptionExercise, expiry: int, strike: real)

  /** The kind tag is a free string, as in the source; the four class
      constructors produce the tags `spot`, `perpetual`, `future` and
      `option`. */
  datatype InstrumentKind<A> = InstrumentKind(kind: string, data: Option<Contract<A>>)

  function SpotKind<A>(): InstrumentKind<A> { InstrumentKind("spot", None) }
  function PerpetualKind<A>(c: Contract<A>): InstrumentKind<A> { InstrumentKind("perpetual", Some(c)) }
  function FutureKind<A>(c: Contract<A>): InstrumentKind<A> { InstrumentKind("future", Some(c)) }
  function OptionKindOf<A>(c: Contract<A>): InstrumentKind<A> { InstrumentKind("option", Some(c)) }

  predicate IsDerivativeTag(kind: string) {
    kind == "perpetual" || kind == "future" || kind == "option"
  }

  /** `InstrumentKind.contract_size`: one for spot, the contract's size for a
      derivative (an attribute error when the data is missing), and an error
      for an unknown tag. */
  function ContractSize<A>(k: InstrumentKind<A>): (r: Result<real, string>)
    ensures r.Success? <==> k.kind == "spot" || (IsDerivativeTag(k.kind) && k.data.Some?)
    ensures k.kind == "spot" ==> r == Success(1.0)
    ensures IsDerivativeTag(k.kind) && k.data.Some? ==> r == Success(k.data.value.contractSize)
    ensures k.kind != "spot" && !IsDerivativeTag(k.kind) ==> r == Failure("Unknown instrument kind: " + k.kind)
  {
    if k.kind == "spot" then Success(1.0)
    else if IsDerivativeTag(k.kind) then
      if k.data.Some? then Success(k.data.value.contractSize)
      else Failure("'NoneType' object has no attribute 'contract_size'")
    else Failure("Unknown instrument kind: " + k.kind)
  }

  /** `InstrumentKind.settlement_asset`: none for spot, the contract's
      settlement asset for a derivative, an error for an unknown tag. */
  function SettlementAsset<A>(k: InstrumentKind<A>): (r: Result<Option<A>, string>)
    ensures r.Success? <==> k.kind == "spot" || (IsDerivativeTag(k.kind) && k.data.Some?)
    ensures k.kind == "spot" ==> r == Success(None)
    ensures IsDerivativeTag(k.kind) && k.data.Some? ==> r == Success(Some(k.data.value.settlementAsset))
    ensures k.kind != "spot" && !IsDerivativeTag(k.kind) ==> r == Failure("Unknown instrument kind: " + k.kind)
  {
    if k.kind == "spot" then Success(None)
    else if IsDerivativeTag(k.kind) then
      if k.data.Some? then Success(Some(k.data.value.settlementAsset))
      else Failure("'NoneType' object has no attribute 'settlement_asset'")
    else Failure("Unknown instrument kind: " + k.kind)
  }

  /** Kinds built with the class constructors always answer both queries, and
      the answers are the contract's own fields. */
  lemma ConstructedKindsAnswer<A>(c: Contract<A>)
    ensures ContractSize(SpotKind<A>()) == Success(1.0) && SettlementAsset(SpotKind<A>()) == Success(None)
    ensures forall k :: k in [PerpetualKind(c), FutureKind(c), OptionKindOf(c)] ==>
      ContractSize(k) == Success(c.contractSize) && SettlementAsset(k) == Success(Some(c.settlementAsset))
  {
  }

  /** Opaque instrument specification, carried unchanged. */
  datatype InstrumentSpec = InstrumentSpec(description: string)

  datatype Instrument<A> = Instrument(
    exchange: ExchangeId,
    nameInternal: string,
    nameExchange: string,
    underlying: Underlying<A>,
    quote: InstrumentQuoteAsset,
    kind: InstrumentKind<A>,
    spec: Option<InstrumentSpec>)

  /** `Instrument.map_exchange_key`: the same instrument on another exchange. */
  function MapExchangeKey<A>(i: Instrument<A>, exchange: ExchangeId): (r: Instrument<A>)
    ensures r.exchange == exchange
    ensures r.(exchange := i.exchange) == i
  {
    Instrument(exchange, i.nameInternal, i.nameExchange, i.underlying, i.quote, i.kind, i.spec)
  }

  /** Mapping back to the original exchange restores the instrument, and two
      mappings in a row are the last one. */
  lemma MapExchangeKeyInverse<A>(i: Instrument<A>, a: ExchangeId, b: ExchangeId)
    ensures MapExchangeKey(MapExchangeKey(i, a), i.exchange) == i
    ensures MapExchangeKey(MapExchangeKey(i, a), b) == MapExchangeKey(i, b)
  {
  }

  datatype Keyed<K, V> = Keyed(key: K, value: V)

  datatype ExchangeAsset = ExchangeAsset(exchange: ExchangeId, asset: Asset)

  /** Lookup key of an asset or an instrument: exchange and internal name. */
  type NameKey = (ExchangeId, string)

  datatype IndexedInstrument = IndexedInstrument(
    exchange: Keyed<nat, ExchangeId>,
    nameInternal: string,
    nameExchange: string,
    underlying: Underlying<nat>,
    quote: InstrumentQuoteAsset,
    kind: InstrumentKind<nat>,
    spec: Option<InstrumentSpec>)

  datatype IndexedInstruments = IndexedInstruments(
    exchanges: seq<Keyed<nat, ExchangeId>>,
    assets: seq<Keyed<nat, ExchangeAsset>>,
    instruments: seq<Keyed<nat, IndexedInstrument>>,
    exchangeLookup: map<ExchangeId, nat>,
    assetLookup: map<NameKey, nat>,
    instrumentLookup: map<NameKey, nat>)

  function AssetKeyOf(a: ExchangeAsset): NameKey {
    (a.exchange, a.asset.nameInternal)
  }

  function InstrumentKeyOf(i: IndexedInstrument): NameKey {
    (i.exchange.value, i.nameInternal)
  }

  ghost predicate KeysArePositions<V>(s: seq<Keyed<nat, V>>) {
    forall i :: 0 <= i < |s| ==> s[i].key == i
  }

  /** Exchanges: dense indices and a lookup that is a bijection with them. */
  ghost predicate ExchangesIndexed(ix: IndexedInstruments) {
    KeysArePositions(ix.exchanges)
    && (forall e :: e in ix.exchangeLookup ==>
          ix.exchangeLookup[e] < |ix.exchanges| && ix.exchanges[ix.exchangeLookup[e]].value == e)
    && (forall i :: 0 <= i < |ix.exchanges| ==>
          ix.exchanges[i].value in ix.exchangeLookup && ix.exchangeLookup[ix.exchanges[i].value] == i)
  }

  /** Assets: dense indices and a lookup by (exchange, internal name) that is
      a bijection with them. */
  ghost predicate AssetsIndexed(ix: IndexedInstruments) {
    KeysArePositions(ix.assets)
    && (forall k :: k in ix.assetLookup ==>
          ix.assetLookup[k] < |ix.assets| && AssetKeyOf(ix.assets[ix.assetLookup[k]].value) == k)
    && (forall i :: 0 <= i < |ix.assets| ==>
          AssetKeyOf(ix.assets[i].value) in ix.assetLookup && ix.assetLookup[AssetKeyOf(ix.assets[i].value)] == i)
  }

  /** Instruments: dense indices, and a lookup that points every key at the
      most recently added instrument with that key. */
  ghost predicate InstrumentsIndexed(ix: IndexedInstruments) {
    KeysArePositions(ix.instruments)
    && (forall k :: k in ix.instrumentLookup ==>
          ix.instrumentLookup[k] < |ix.instruments|
          && InstrumentKeyOf(ix.instruments[ix.instrumentLookup[k]].value) == k
          && forall j :: ix.instrumentLookup[k] < j < |ix.instruments| ==> InstrumentKeyOf(ix.instruments[j].value) != k)
    && (forall i :: 0 <= i < |ix.instruments| ==> InstrumentKeyOf(ix.instruments[i].value) in ix.instrumentLookup)
  }

  /** Every index an indexed instrument holds resolves, to an exchange entry
      with the same exchange and to assets on that exchange. */
  ghost predicate Resolves(ix: IndexedInstruments, r: IndexedInstrument) {
    r.exchange.key < |ix.exchanges| && ix.exchanges[r.exchange.key].value == r.exchange.value
    && r.underlying.base < |ix.assets| && ix.assets[r.underlying.base].value.exchange == r.exchange.value
    && r.underlying.quote < |ix.assets| && ix.assets[r.underlying.quote].value.exchange == r.exchange.value
    && (r.kind.data.Some? ==>
          r.kind.data.value.settlementAsset < |ix.assets|
          && ix.assets[r.kind.data.value.settlementAsset].value.exchange == r.exchange.value)
  }

  ghost predicate Valid(ix: IndexedInstruments) {
    ExchangesIndexed(ix) && AssetsIndexed(ix) && InstrumentsIndexed(ix)
    && forall i :: 0 <= i < |ix.instruments| ==> Resolves(ix, ix.instruments[i].value)
  }

  /** `b` extends `a`: its exchange and asset lists start with `a`'s. */
  ghost predicate Grows(a: IndexedInstruments, b: IndexedInstruments) {
    a.exchanges <= b.exchanges && a.assets <= b.assets
  }

  lemma ResolvesGrows(a: IndexedInstruments, b: IndexedInstruments, r: IndexedInstrument)
    requires Grows(a, b) && Resolves(a, r)
    ensures Resolves(b, r)
  {
    assert b.exchanges[r.exchange.key] == a.exchanges[r.exchange.key];
    assert b.assets[r.underlying.base] == a.assets[r.underlying.base];
    assert b.assets[r.underlying.quote] == a.assets[r.underlying.quote];
    if r.kind.data.Some? {
      assert b.assets[r.kind.data.value.settlementAsset] == a.assets[r.kind.data.value.settlementAsset];
    }
  }

  /** `IndexedInstrumentsBuilder.default`: a builder holding nothing. */
  method NewBuilder() returns (ix: IndexedInstruments)
    ensures Valid(ix)
    ensures ix.exchanges == [] && ix.assets == [] && ix.instruments == []
  {
    ix := IndexedInstruments([], [], [], map[], map[], map[]);
  }

  datatype Registered = Registered(state: IndexedInstruments, index: nat)

  /** `_ensure_exchange`: the existing index of a known exchange, otherwise the
      next index, appended to the list and the lookup. */
  method EnsureExchange(ix: IndexedInstruments, e: ExchangeId) returns (r: Registered)
    requires Valid(ix)
    ensures Valid(r.state) && Grows(ix, r.state)
    ensures r.index < |r.state.exchanges| && r.state.exchanges[r.index].value == e
    ensures r.state.(exchanges := ix.exchanges, exchangeLookup := ix.exchangeLookup) == ix
    ensures r.state.exchangeLookup == ix.exchangeLookup[e := r.index]
    ensures e in ix.exchangeLookup ==> r == Registered(ix, ix.exchangeLookup[e])
    ensures e !in ix.exchangeLookup ==>
      r.index == |ix.exchanges| && r.state.exchanges == ix.exchanges + [Keyed(r.index, e)]
  {
    if e in ix.exchangeLookup {
      return Registered(ix, ix.exchangeLookup[e]);
    }
    var index := |ix.exchanges|;
    var next := ix.(exchanges := ix.exchanges + [Keyed(index, e)],
                    exchangeLookup := ix.exchangeLookup[e := index]);
    assert Grows(ix, next);
    forall i | 0 <= i < |next.instruments|
      ensures Resolves(next, next.instruments[i].value)
    {
      ResolvesGrows(ix, next, ix.instruments[i].value);
    }
    return Registered(next, index);
  }

  /** `_ensure_asset`: the existing index of the (exchange, internal name) key,
      otherwise the next index for a copy of the asset on that exchange. */
  method EnsureAsset(ix: IndexedInstruments, e: ExchangeId, asset: Asset) returns (r: Registered)
    requires Valid(ix)
    ensures Valid(r.state) && Grows(ix, r.state)
    ensures r.state.(assets := ix.assets, assetLookup := ix.assetLookup) == ix
    ensures r.state.assetLookup == ix.assetLookup[(e, asset.nameInternal) := r.index]
    ensures r.index < |r.state.assets| && AssetKeyOf(r.state.assets[r.index].value) == (e, asset.nameInternal)
    ensures (e, asset.nameInternal) in ix.assetLookup ==> r == Registered(ix, ix.assetLookup[(e, asset.nameInternal)])
    ensures (e, asset.nameInternal) !in ix.assetLookup ==>
      r.index == |ix.assets|
      && r.state.assets == ix.assets + [Keyed(r.index, ExchangeAsset(e, Asset(asset.nameInternal, asset.nameExchange)))]
  {
    var key := (e, asset.nameInternal);
    if key in ix.assetLookup {
      return Registered(ix, ix.assetLookup[key]);
    }
    var index := |ix.assets|;
    var next := ix.(assets := ix.assets + [Keyed(index, ExchangeAsset(e, Asset(asset.nameInternal, asset.nameExchange)))],
                    assetLookup := ix.assetLookup[key := index]);
    assert Grows(ix, next);
    forall i | 0 <= i < |next.instruments|
      ensures Resolves(next, next.instruments[i].value)
    {
      ResolvesGrows(ix, next, ix.instruments[i].value);
    }
    return Registered(next, index);
  }

  /** The kinds `_convert_kind` accepts: spot, or a derivative tag whose data
      is the matching contract class. */
  predicate Convertible<A>(k: InstrumentKind<A>) {
    k.kind == "spot"
    || (k.kind == "perpetual" && k.data.Some? && k.data.value.PerpetualContract?)
    || (k.kind == "future" && k.data.Some? && k.data.value.FutureContract?)
    || (k.kind == "option" && k.data.Some? && k.data.value.OptionContract?)
  }

  /** `k` with its settlement asset replaced by `settlement`, every other
      contract field kept. */
  function WithSettlement<A, B>(c: Contract<A>, settlement: B): Contract<B> {
    match c
    case PerpetualContract(size, _) => PerpetualContract(size, settlement)
    case FutureContract(size, _, expiry) => FutureContract(size, settlement, expiry)
    case OptionContract(size, _, kind, exercise, expiry, strike) =>
      OptionContract(size, settlement, kind, exercise, expiry, strike)
  }

  datatype Converted = Converted(state: IndexedInstruments, kind: Result<InstrumentKind<nat>, string>)

  /** `_convert_kind`: spot stays spot; a derivative's settlement asset is
      registered and replaced by its index; anything else is refused before
      any registration happens. */
  method ConvertKind(ix: IndexedInstruments, e: ExchangeId, k: InstrumentKind<Asset>) returns (r: Converted)
    requires Valid(ix)
    ensures Valid(r.state) && Grows(ix, r.state)
    ensures r.state.(assets := ix.assets, assetLookup := ix.assetLookup) == ix
    ensures forall key :: key in ix.assetLookup ==> key in r.state.assetLookup
    ensures r.kind.Success? <==> Convertible(k)
    ensures r.kind.Failure? ==> r.state == ix
    ensures r.kind.Success? ==> r.kind.value.kind == k.kind && (r.kind.value.data.Some? <==> k.kind != "spot")
    ensures r.kind.Success? && k.kind != "spot" ==>
      var s := r.kind.value.data.value.settlementAsset;
      r.kind.value.data.value == WithSettlement(k.data.value, s)
      && s < |r.state.assets|
      && AssetKeyOf(r.state.assets[s].value) == (e, k.data.value.settlementAsset.nameInternal)
  {
    if k.kind == "spot" {
      return Converted(ix, Success(SpotKind()));
    }
    if !IsDerivativeTag(k.kind) {
      return Converted(ix, Failure("Unsupported instrument kind: " + k.kind));
    }
    if !Convertible(k) {
      var tag := if k.kind == "perpetual" then "Perpetual" else if k.kind == "future" then "Future" else "Option";
      return Converted(ix, Failure(tag + " instrument missing contract data"));
    }
    var c := k.data.value;
    var settlement := EnsureAsset(ix, e, c.settlementAsset);
    return Converted(settlement.state, Success(InstrumentKind(k.kind, Some(WithSettlement(c, settlement.index)))));
  }

  /** What an indexed instrument must record of the instrument it was built
      from: the same exchange, names, quote, spec and kind, the same contract
      size, expiry, strike, option kind and exercise, with base, quote and
      settlement assets resolving to the same (exchange, name) keys. */
  ghost predicate Describes(ix: IndexedInstruments, r: IndexedInstrument, i: Instrument<Asset>) {
    r.exchange.value == i.exchange
    && r.nameInternal == i.nameInternal && r.nameExchange == i.nameExchange
    && r.quote == i.quote && r.spec == i.spec
    && r.kind.kind == i.kind.kind && (r.kind.data.Some? ==> i.kind.data.Some?)
    && (r.kind.data.Some? ==> r.kind.data.value == WithSettlement(i.kind.data.value, r.kind.data.value.settlementAsset))
    && r.underlying.base < |ix.assets| && r.underlying.quote < |ix.assets|
    && AssetKeyOf(ix.assets[r.underlying.base].value) == (i.exchange, i.underlying.base.nameInternal)
    && AssetKeyOf(ix.assets[r.underlying.quote].value) == (i.exchange, i.underlying.quote.nameInternal)
    && (r.kind.data.Some? ==>
          r.kind.data.value.settlementAsset < |ix.assets|
          && AssetKeyOf(ix.assets[r.kind.data.value.settlementAsset].value)
             == (i.exchange, i.kind.data.value.settlementAsset.nameInternal))
  }

  /** A described derivative keeps every contract field of its input except
      the settlement asset, which becomes an index. */
  lemma DescribedContract(ix: IndexedInstruments, r: IndexedInstrument, i: Instrument<Asset>)
    requires Describes(ix, r, i) && r.kind.data.Some?
    ensures i.kind.data.Some?
    ensures r.kind.data.value.contractSize == i.kind.data.value.contractSize
    ensures r.kind.data.value.PerpetualContract? <==> i.kind.data.value.PerpetualContract?
    ensures r.kind.data.value.FutureContract? <==> i.kind.data.value.FutureContract?
    ensures r.kind.data.value.OptionContract? ==>
      && i.kind.data.value.OptionContract?
      && r.kind.data.value.optionKind == i.kind.data.value.optionKind
      && r.kind.data.value.exercise == i.kind.data.value.exercise
      && r.kind.data.value.expiry == i.kind.data.value.expiry
      && r.kind.data.value.strike == i.kind.data.value.strike
    ensures r.kind.data.value.FutureContract? ==> r.kind.data.value.expiry == i.kind.data.value.expiry
  {
  }

  lemma DescribesGrows(a: IndexedInstruments, b: IndexedInstruments, r: IndexedInstrument, i: Instrument<Asset>)
    requires Grows(a, b) && Describes(a, r, i)
    ensures Describes(b, r, i)
  {
    assert b.assets[r.underlying.base] == a.assets[r.underlying.base];
    assert b.assets[r.underlying.quote] == a.assets[r.underlying.quote];
    if r.kind.data.Some? {
      assert b.assets[r.kind.data.value.settlementAsset] == a.assets[r.kind.data.value.settlementAsset];
    }
  }

  datatype Added = Added(state: IndexedInstruments, outcome: Outcome<string>)

  /** `IndexedInstrumentsBuilder.add_instrument`. The exchange and the base
      and quote assets are registered before the kind is converted, so a
      refused kind leaves them registered while adding no instrument. A
      successful add appends the next instrument index and points the
      instrument's key at it, replacing any earlier instrument with that key
      in the lookup. */
  method AddInstrument(ix: IndexedInstruments, i: Instrument<Asset>) returns (r: Added)
    requires Valid(ix)
    ensures Valid(r.state) && Grows(ix, r.state)
    ensures i.exchange in r.state.exchangeLookup
    ensures (i.exchange, i.underlying.base.nameInternal) in r.state.assetLookup
    ensures (i.exchange, i.underlying.quote.nameInternal) in r.state.assetLookup
    ensures r.outcome.Pass? <==> Convertible(i.kind)
    ensures r.outcome.Fail? ==> r.state.instruments == ix.instruments
    ensures r.outcome.Pass? ==>
      |r.state.instruments| == |ix.instruments| + 1
      && r.state.instruments[..|ix.instruments|] == ix.instruments
      && Describes(r.state, r.state.instruments[|ix.instruments|].value, i)
      && r.state.instrumentLookup == ix.instrumentLookup[(i.exchange, i.nameInternal) := |ix.instruments|]
  {
    var registered := RegisterUnderlying(ix, i);
    var converted := ConvertKind(registered.state, i.exchange, i.kind);
    var s := converted.state;
    if converted.kind.Failure? {
      return Added(s, Fail(converted.kind.error));
    }
    var u := registered.underlying;
    var record := IndexedInstrument(Keyed(registered.exchange, i.exchange), i.nameInternal, i.nameExchange,
                                    u, i.quote, converted.kind.value, i.spec);
    assert s.assets[u.base] == registered.state.assets[u.base];
    assert s.assets[u.quote] == registered.state.assets[u.quote];
    assert Resolves(s, record);
    AppendInstrument(s, record);
    var next := AppendedInstrument(s, record);
    assert next.instruments[..|ix.instruments|] == ix.instruments;
    return Added(next, Pass);
  }

  datatype RegisteredUnderlying = RegisteredUnderlying(state: IndexedInstruments, exchange: nat, underlying: Underlying<nat>)

  /** The first three steps of `add_instrument`: register the exchange, then
      the base asset, then the quote asset. */
  method RegisterUnderlying(ix: IndexedInstruments, i: Instrument<Asset>) returns (r: RegisteredUnderlying)
    requires Valid(ix)
    ensures Valid(r.state) && Grows(ix, r.state)
    ensures r.state.instruments == ix.instruments && r.state.instrumentLookup == ix.instrumentLookup
    ensures i.exchange in r.state.exchangeLookup
    ensures r.exchange < |r.state.exchanges| && r.state.exchanges[r.exchange].value == i.exchange
    ensures (i.exchange, i.underlying.base.nameInternal) in r.state.assetLookup
    ensures (i.exchange, i.underlying.quote.nameInternal) in r.state.assetLookup
    ensures r.underlying.base < |r.state.assets|
      && AssetKeyOf(r.state.assets[r.underlying.base].value) == (i.exchange, i.underlying.base.nameInternal)
    ensures r.underlying.quote < |r.state.assets|
      && AssetKeyOf(r.state.assets[r.underlying.quote].value) == (i.exchange, i.underlying.quote.nameInternal)
  {
    var ex := EnsureExchange(ix, i.exchange);
    var base := EnsureAsset(ex.state, i.exchange, i.underlying.base);
    var quote := EnsureAsset(base.state, i.exchange, i.underlying.quote);
    assert quote.state.assets[base.index] == base.state.assets[base.index];
    return RegisteredUnderlying(quote.state, ex.index, Underlying(base.index, quote.index));
  }

  function AppendedInstrument(s: IndexedInstruments, record: IndexedInstrument): IndexedInstruments {
    s.(instruments := s.instruments + [Keyed(|s.instruments|, record)],
       instrumentLookup := s.instrumentLookup[InstrumentKeyOf(record) := |s.instruments|])
  }

  /** Appending an instrument whose indices resolve keeps the state valid. */
  lemma AppendInstrument(s: IndexedInstruments, record: IndexedInstrument)
    requires Valid(s) && Resolves(s, record)
    ensures Valid(AppendedInstrument(s, record))
  {
    var next := AppendedInstrument(s, record);
    assert ExchangesIndexed(next) && AssetsIndexed(next);
    forall j | 0 <= j < |next.instruments|
      ensures Resolves(next, next.instruments[j].value)
    {
      if j < |s.instruments| {
        assert next.instruments[j] == s.instruments[j];
      }
    }
    AppendKeepsInstrumentsIndexed(s, record);
  }

  lemma AppendKeepsInstrumentsIndexed(s: IndexedInstruments, record: IndexedInstrument)
    requires InstrumentsIndexed(s)
    ensures InstrumentsIndexed(AppendedInstrument(s, record))
  {
    var next := AppendedInstrument(s, record);
    assert KeysArePositions(next.instruments);
    forall k | k in next.instrumentLookup
      ensures next.instrumentLookup[k] < |next.instruments|
      ensures InstrumentKeyOf(next.instruments[next.instrumentLookup[k]].value) == k
      ensures forall j :: next.instrumentLookup[k] < j < |next.instruments| ==> InstrumentKeyOf(next.instruments[j].value) != k
    {
      if k != InstrumentKeyOf(record) {
        assert next.instrumentLookup[k] == s.instrumentLookup[k];
      }
    }
    forall i | 0 <= i < |next.instruments|
      ensures InstrumentKeyOf(next.instruments[i].value) in next.instrumentLookup
    {
      if i < |s.instruments| {
        assert next.instruments[i] == s.instruments[i];
      }
    }
  }

  /** `IndexedInstrumentsBuilder.build`: an immutable copy of the state. */
  function Build(ix: IndexedInstruments): (r: IndexedInstruments)
    requires Valid(ix)
    ensures Valid(r)
    ensures r.exchanges == ix.exchanges && r.assets == ix.assets && r.instruments == ix.instruments
  {
    ix
  }

  /** Instrument `j` of the collection describes input `j`, for every input. */
  ghost predicate AllDescribed(ix: IndexedInstruments, instruments: seq<Instrument<Asset>>) {
    |instruments| <= |ix.instruments|
    && forall j :: 0 <= j < |instruments| ==> Describes(ix, ix.instruments[j].value, instruments[j])
  }

  /** One successful `add_instrument` extends the described prefix by the
      instrument added. */
  lemma AddStep(ix: IndexedInstruments, done: seq<Instrument<Asset>>, i: Instrument<Asset>, next: IndexedInstruments)
    requires Valid(ix) && |ix.instruments| == |done| && AllDescribed(ix, done)
    requires Grows(ix, next) && |next.instruments| == |done| + 1 && next.instruments[..|done|] == ix.instruments
    requires Describes(next, next.instruments[|done|].value, i)
    ensures AllDescribed(next, done + [i])
  {
    var all := done + [i];
    forall j | 0 <= j < |all|
      ensures Describes(next, next.instruments[j].value, all[j])
    {
      if j < |done| {
        assert next.instruments[j] == ix.instruments[j];
        DescribesGrows(ix, next, ix.instruments[j].value, done[j]);
      }
    }
  }

  /** `IndexedInstruments.new`: add every instrument in order, failing on the
      first kind the builder refuses. On success the collection indexes the
      instruments in input order. */
  method IndexInstruments(instruments: seq<Instrument<Asset>>) returns (r: Result<IndexedInstruments, string>)
    ensures r.Success? <==> forall j :: 0 <= j < |instruments| ==> Convertible(instruments[j].kind)
    ensures r.Success? ==> Valid(r.value) && |r.value.instruments| == |instruments|
    ensures r.Success? ==> AllDescribed(r.value, instruments)
  {
    var ix := NewBuilder();
    ghost var none: seq<Instrument<Asset>> := [];
    assert none + instruments == instruments;
    r := IndexFrom(ix, none, instruments);
  }

  /** The remaining iterations of `IndexedInstruments.new`: add `rest` to a
      builder that already holds `done`. */
  method IndexFrom(ix: IndexedInstruments, ghost done: seq<Instrument<Asset>>, rest: seq<Instrument<Asset>>)
    returns (r: Result<IndexedInstruments, string>)
    requires Valid(ix) && |ix.instruments| == |done| && AllDescribed(ix, done)
    ensures r.Success? <==> forall j :: 0 <= j < |rest| ==> Convertible(rest[j].kind)
    ensures r.Success? ==> Valid(r.value) && |r.value.instruments| == |done| + |rest|
    ensures r.Success? ==> AllDescribed(r.value, done + rest)
    decreases |rest|
  {
    if |rest| == 0 {
      assert done + rest == done;
      return Success(Build(ix));
    }
    var step := AddDescribed(ix, done, rest[0]);
    if step.outcome.Fail? {
      assert !Convertible(rest[0].kind);
      return Failure(step.outcome.error);
    }
    r := IndexFrom(step.state, done + [rest[0]], rest[1..]);
    assert done + [rest[0]] + rest[1..] == done + rest;
    assert forall j :: 1 <= j < |rest| ==> rest[j] == rest[1..][j - 1];
  }

  /** One `add_instrument` call of `IndexedInstruments.new`, seen from the
      loop: it fails exactly on a refused kind and otherwise extends the
      described prefix by one. */
  method AddDescribed(ix: IndexedInstruments, ghost done: seq<Instrument<Asset>>, i: Instrument<Asset>) returns (r: Added)
    requires Valid(ix) && |ix.instruments| == |done| && AllDescribed(ix, done)
    ensures r.outcome.Pass? <==> Convertible(i.kind)
    ensures r.outcome.Pass? ==>
      Valid(r.state) && |r.state.instruments| == |done| + 1 && AllDescribed(r.state, done + [i])
  {
    r := AddInstrument(ix, i);
    if r.outcome.Pass? {
      AddStep(ix, done, i, r.state);
    }
  }

  /** `IndexedInstruments.find_exchange_index`. */
  function FindExchangeIndex(ix: IndexedInstruments, e: ExchangeId): (r: Result<nat, string>)
    requires Valid(ix)
    ensures r.Success? <==> exists i :: 0 <= i < |ix.exchanges| && ix.exchanges[i].value == e
    ensures r.Success? ==> r.value < |ix.exchanges| && ix.exchanges[r.value].value == e
    ensures r.Failure? ==> r.error == "ExchangeId " + e.Name() + " is not present in indexed exchanges"
  {
    if e in ix.exchangeLookup then Success(ix.exchangeLookup[e])
    else Failure("ExchangeId " + e.Name() + " is not present in indexed exchanges")
  }

  /** First entry of a keyed list with key `k`, scanning from the front. */
  function FirstWithKey<V>(s: seq<Keyed<nat, V>>, k: nat): (r: Option<V>)
    ensures r.Some? ==> exists i :: 0 <= i < |s| && s[i] == Keyed(k, r.value)
    ensures r.None? ==> forall i :: 0 <= i < |s| ==> s[i].key != k
  {
    if |s| == 0 then None
    else if s[0].key == k then Some(s[0].value)
    else
      var r := FirstWithKey(s[1..], k);
      assert forall i :: 1 <= i < |s| ==> s[i] == s[1..][i - 1];
      r
  }

  /** Value a dict comprehension over a keyed list keeps for `k`: the last
      entry with that key. */
  function LastWithKey<V>(s: seq<Keyed<nat, V>>, k: nat): (r: Option<V>)
    ensures r.Some? ==> exists i :: 0 <= i < |s| && s[i] == Keyed(k, r.value)
    ensures r.None? ==> forall i :: 0 <= i < |s| ==> s[i].key != k
  {
    if |s| == 0 then None
    else if s[|s| - 1].key == k then Some(s[|s| - 1].value)
    else
      var r := LastWithKey(s[..|s| - 1], k);
      assert forall i :: 0 <= i < |s| - 1 ==> s[i] == s[..|s| - 1][i];
      r
  }

  /** In a list whose keys are positions, both scans find entry `k` exactly
      when it exists. */
  lemma KeyedAt<V>(s: seq<Keyed<nat, V>>, k: nat)
    requires KeysArePositions(s)
    ensures k < |s| ==> FirstWithKey(s, k) == Some(s[k].value) && LastWithKey(s, k) == Some(s[k].value)
    ensures k >= |s| ==> FirstWithKey(s, k).None? && LastWithKey(s, k).None?
  {
  }

  /** How an `ExchangeIndex`, `AssetIndex` or `InstrumentIndex` formats in
      an f-string: the classes define only `__repr__`, `Kind(n)`. */
  function IndexRepr(kind: string, index: nat): string {
    kind + "(" + Text.NatToString(index) + ")"
  }

  /** `IndexedInstruments.find_exchange`: a linear scan of the exchanges. */
  function FindExchange(ix: IndexedInstruments, index: nat): (r: Result<ExchangeId, string>)
    requires Valid(ix)
    ensures r.Success? <==> index < |ix.exchanges|
    ensures r.Success? ==> r.value == ix.exchanges[index].value
    ensures r.Failure? ==>
      r.error == "ExchangeIndex " + IndexRepr("ExchangeIndex", index) + " is not present in indexed exchanges"
  {
    KeyedAt(ix.exchanges, index);
    match FirstWithKey(ix.exchanges, index)
    case Some(e) => Success(e)
    case None =>
      Failure("ExchangeIndex " + IndexRepr("ExchangeIndex", index) + " is not present in indexed exchanges")
  }

  /** `IndexedInstruments.find_asset_index`. */
  function FindAssetIndex(ix: IndexedInstruments, e: ExchangeId, name: string): (r: Result<nat, string>)
    requires Valid(ix)
    ensures r.Success? <==> exists i :: 0 <= i < |ix.assets| && AssetKeyOf(ix.assets[i].value) == (e, name)
    ensures r.Success? ==> r.value < |ix.assets| && AssetKeyOf(ix.assets[r.value].value) == (e, name)
    ensures r.Failure? ==> r.error == "Asset (" + e.Name() + ", " + name + ") not present in indexed assets"
  {
    if (e, name) in ix.assetLookup then Success(ix.assetLookup[(e, name)])
    else Failure("Asset (" + e.Name() + ", " + name + ") not present in indexed assets")
  }

  /** `IndexedInstruments.find_asset`, through the by-index dict. */
  function FindAsset(ix: IndexedInstruments, index: nat): (r: Result<ExchangeAsset, string>)
    requires Valid(ix)
    ensures r.Success? <==> index < |ix.assets|
    ensures r.Success? ==> r.value == ix.assets[index].value
    ensures r.Failure? ==> r.error == "AssetIndex " + IndexRepr("AssetIndex", index) + " is not present in indexed assets"
  {
    KeyedAt(ix.assets, index);
    match LastWithKey(ix.assets, index)
    case Some(a) => Success(a)
    case None =>
      Failure("AssetIndex " + IndexRepr("AssetIndex", index) + " is not present in indexed assets")
  }

  /** `IndexedInstruments.find_instrument_index`: the most recently added
      instrument with that key. */
  function FindInstrumentIndex(ix: IndexedInstruments, e: ExchangeId, name: string): (r: Result<nat, string>)
    requires Valid(ix)
    ensures r.Success? <==> exists i :: 0 <= i < |ix.instruments| && InstrumentKeyOf(ix.instruments[i].value) == (e, name)
    ensures r.Success? ==>
      r.value < |ix.instruments| && InstrumentKeyOf(ix.instruments[r.value].value) == (e, name)
      && forall j :: r.value < j < |ix.instruments| ==> InstrumentKeyOf(ix.instruments[j].value) != (e, name)
    ensures r.Failure? ==> r.error == "Instrument (" + e.Name() + ", " + name + ") not present in indexed instruments"
  {
    if (e, name) in ix.instrumentLookup then Success(ix.instrumentLookup[(e, name)])
    else Failure("Instrument (" + e.Name() + ", " + name + ") not present in indexed instruments")
  }

  /** `IndexedInstruments.find_instrument`, through the by-index dict. */
  function FindInstrument(ix: IndexedInstruments, index: nat): (r: Result<IndexedInstrument, string>)
    requires Valid(ix)
    ensures r.Success? <==> index < |ix.instruments|
    ensures r.Success? ==> r.value == ix.instruments[index].value
    ensures r.Failure? ==>
      r.error == "InstrumentIndex " + IndexRepr("InstrumentIndex", index) + " is not present in indexed instruments"
  {
    KeyedAt(ix.instruments, index);
    match LastWithKey(ix.instruments, index)
    case Some(i) => Success(i)
    case None =>
      Failure("InstrumentIndex " + IndexRepr("InstrumentIndex", index) + " is not present in indexed instruments")
  }

  /** Looking an exchange up by id and then by the index found gives the
      exchange back. */
  lemma ExchangeRoundTrip(ix: IndexedInstruments, e: ExchangeId)
    requires Valid(ix)
    ensures FindExchangeIndex(ix, e).Success? ==> FindExchange(ix, FindExchangeIndex(ix, e).value) == Success(e)
  {
    var r := FindExchangeIndex(ix, e);
    if r.Success? {
      var found := FindExchange(ix, r.value);
      assert found.value == ix.exchanges[r.value].value;
    }
  }

  /** Looking an asset up by key and then by the index found gives an asset
      with that key. */
  lemma AssetRoundTrip(ix: IndexedInstruments, e: ExchangeId, name: string)
    requires Valid(ix)
    ensures FindAssetIndex(ix, e, name).Success? ==>
      AssetKeyOf(FindAsset(ix, FindAssetIndex(ix, e, name).value).value) == (e, name)
  {
    var r := FindAssetIndex(ix, e, name);
    if r.Success? {
      var found := FindAsset(ix, r.value);
      assert found.value == ix.assets[r.value].value;
    }
  }

  /** Looking an instrument up by key and then by the index found gives an
      instrument with that key. */
  lemma InstrumentRoundTrip(ix: IndexedInstruments, e: ExchangeId, name: string)
    requires Valid(ix)
    ensures FindInstrumentIndex(ix, e, name).Success? ==>
      InstrumentKeyOf(FindInstrument(ix, FindInstrumentIndex(ix, e, name).value).value) == (e, name)
  {
    var r := FindInstrumentIndex(ix, e, name);
    if r.Success? {
      var found := FindInstrument(ix, r.value);
      assert found.value == ix.instruments[r.value].value;
    }
  }

  /** After indexing, every input instrument can be found by its key, and
      the index found is that of the last input with the same key. */
  lemma IndexedInstrumentsFindable(ix: IndexedInstruments, instruments: seq<Instrument<Asset>>, j: nat)
    requires Valid(ix) && |ix.instruments| == |instruments| && j < |instruments|
    requires forall i :: 0 <= i < |instruments| ==> Describes(ix, ix.instruments[i].value, instruments[i])
    ensures FindInstrumentIndex(ix, instruments[j].exchange, instruments[j].nameInternal).Success?
    ensures var k := FindInstrumentIndex(ix, instruments[j].exchange, instruments[j].nameInternal).value;
      j <= k && (instruments[k].exchange, instruments[k].nameInternal) == (instruments[j].exchange, instruments[j].nameInternal)
  {
    var key := (instruments[j].exchange, instruments[j].nameInternal);
    assert InstrumentKeyOf(ix.instruments[j].value) == key;
    var k := FindInstrumentIndex(ix, key.0, key.1).value;
    assert InstrumentKeyOf(ix.instruments[k].value) == key;
  }
}
