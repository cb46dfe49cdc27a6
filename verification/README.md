# barter-python bindings core, modelled in Dafny

This project models the self-contained, sequential parts of the barter
trading framework's Python package and its Rust bindings, together with the
risk-limit configuration of the `barter` crate:

- the risk-limit configuration: positive optional thresholds, an exposure
  fraction in (0, 1], a per-instrument limits list kept sorted by instrument
  index, and a bounds check against the instrument count;
- the order and account domain model: order states and their classification,
  derived quantities, the most recent time of a snapshot, order-preserving
  de-duplication of assets and instruments, and the checks of the account
  snapshot constructors;
- the indexed-instruments builder, which hands out dense indices to
  exchanges, assets and instruments in insertion order, and the lookups over
  its result;
- the default risk manager, the engine's market-data update rule, cancel
  generation over an instrument filter, and request dispatch;
- position-closing orders in Python and in Rust;
- market-data arithmetic, kind names and typed projections, and the named
  time intervals;
- the input parsers and validators of the Rust bindings: sides, order kinds,
  time in force, instrument filters, identifiers, summary intervals, initial
  balances, analytics intervals, equity points, and the one/none/many
  collections.

Each source file has its own module. Decimals are exact reals and
timestamps are integers. Python floats that reach a finiteness check are
`Floats.Float`, which is a finite real, NaN or an infinity. Python
arguments that the bindings inspect dynamically are `PyObjects.PyObj`.
Functions of the statistic crate, random and textual conversions, and the
exchange-name recogniser are all function parameters. Errors are the Python
exception raised with its message, or the Rust error variant.

## Model

| member | source | states |
|---|---|---|
| RiskConfig.EnsurePositive | barter/src/system/config.rs:121-135 | an absent threshold passes; a present one passes exactly when it is strictly above zero, otherwise the error is `NonPositive` naming the field and the value |
| RiskConfig.Validate | barter/src/system/config.rs:120-148 | limits pass exactly when the three thresholds are absent or positive and the exposure is absent or in (0, 1]; the first offending field, in the order notional, quantity, leverage, exposure, is the one reported |
| RiskConfig.SetGlobal | barter/src/system/config.rs:43-51 | an update is accepted exactly when the new limits are absent or valid; then the global limits are replaced and the per-instrument list is untouched; a refusal carries the validation error |
| RiskConfig.Lookup | barter/src/system/config.rs:54-59 | the lookup yields the limits of the first entry carrying the index, and nothing when no entry does |
| RiskConfig.InstrumentLimits | barter/src/system/config.rs:53-59 | limits are found exactly when some entry has the index, and then they are that entry's limits |
| RiskConfig.FirstMatch | barter/src/system/config.rs:54-59 | a found result comes from an entry with the index, and no earlier entry has that index |
| RiskConfig.ReplaceFirstEntries | barter/src/system/config.rs:72-77 | replacing the limits of the first entry for an index rewrites only that entry; the entries of every other index are unchanged |
| RiskConfig.WithIndexAppend | barter/src/system/config.rs:78-81 | pushing an entry adds it after the existing entries of its own index and changes no other index |
| RiskConfig.Upsert | barter/src/system/config.rs:71-82 | the list keeps its length when an entry for the index exists, and otherwise gains exactly one entry |
| RiskConfig.UpsertLookups | barter/src/system/config.rs:71-83 | after the upsert and the sort the index finds the new limits, every other index finds what it found before, and the list is ordered by index |
| RiskConfig.InsertSorted | barter/src/system/config.rs:83 | inserting into a list sorted by index keeps it sorted |
| RiskConfig.SortByIndexSorted | barter/src/system/config.rs:83 | the sorted list is ordered by instrument index |
| RiskConfig.SortByIndexPermutes | barter/src/system/config.rs:83 | sorting is a permutation: every entry occurs exactly as often as before |
| RiskConfig.SortByIndexStable | barter/src/system/config.rs:83 | sorting is stable: for every index, that index's entries keep their relative order |
| RiskConfig.RemoveIndex | barter/src/system/config.rs:85 | `retain` leaves no entry for the index and keeps the entries of every other index, in order |
| RiskConfig.RemoveIndexRetains | barter/src/system/config.rs:85 | removing an index is exactly filtering the list by "index differs": every other entry is kept, in its original order, and nothing else |
| RiskConfig.SetInstrumentLimits | barter/src/system/config.rs:61-89 | accepted exactly when the limits are absent or valid; afterwards the lookup for the index returns exactly the new limits (absent limits remove the entry), every other index and the global limits read as before, and a set leaves the list sorted |
| RiskConfig.SetInstrumentLimitsKeepsUnique | barter/src/system/config.rs:71-86 | if no two entries share an index before an update, none do after it |
| RiskConfig.SetGlobalRiskLimits | barter/src/system/config.rs:194-200 | the system-level setter accepts exactly what the risk configuration accepts and changes only the global limits |
| RiskConfig.SetInstrumentRiskLimits | barter/src/system/config.rs:202-216 | an index at or past the number of instruments is refused with `InstrumentIndexOutOfBounds` carrying the index and the count; otherwise it behaves as the per-instrument update and leaves instruments and executions alone |
| RiskConfig.InstrumentRiskLimits | barter/src/system/config.rs:218-221 | the system-level lookup finds limits exactly when the risk configuration holds an entry for the index |
| RiskConfig.SetThenGetRoundTrip | barter/src/system/config.rs:202-221 | setting acceptable limits for a configured instrument succeeds, and reading them back gives exactly what was set |
| Execution.RenderKey | barter-python/python/barter_python/execution.py:128-129 | the rendering of an order key is as long as its four parts plus three separators and starts with the exchange part |
| Execution.RenderKeySplits | barter-python/python/barter_python/execution.py:128-129 | when no part contains a colon, splitting the rendering on colons gives back exactly the exchange, instrument, strategy and client-order-id parts |
| Execution.RenderKeyInjective | barter-python/python/barter_python/execution.py:128-129 | two keys with colon-free parts that render alike have the same strategy, client order id and printed exchange and instrument |
| Execution.Used | barter-python/python/barter_python/execution.py:166-168 | used plus free is the total, and a balance with `0 <= free <= total` has used between zero and the total |
| Execution.ValueQuote | barter-python/python/barter_python/execution.py:287-289 | the notional divided by a non-zero quantity is the fill price, a zero quantity gives a zero notional, and a non-negative price and quantity give a non-negative notional |
| Execution.ValueQuoteAdditive | barter-python/python/barter_python/execution.py:287-289 | splitting a fill into two quantities at the same price splits its notional into the two notionals |
| Execution.QuantityRemaining | barter-python/python/barter_python/execution.py:366-368 | remaining plus filled is the initial quantity, and fills within the initial quantity leave a remainder between zero and the initial quantity |
| Execution.InactiveClassification | barter-python/python/barter_python/execution.py:464-494 | every state built by the four class methods answers exactly one of the four `is_*` questions; a state with any other tag answers none |
| Execution.ActiveInactiveExclusive | barter-python/python/barter_python/execution.py:537-541 | an order state is active or inactive, never both, and the active ones are the open-in-flight, open and cancel-in-flight states |
| Execution.TimeExchange | barter-python/python/barter_python/execution.py:543-553 | a cancelled inactive state yields its cancellation time, an open order its time, a cancel-in-flight the time of the order it carries; every other state yields nothing |
| Execution.TimeExchangeIffOrder | barter-python/python/barter_python/execution.py:543-553 | a state has a timestamp exactly when it holds a cancelled or open order |
| Execution.NewInstrumentSnapshot | barter-python/python/barter_python/execution.py:818-820 | the snapshot keeps the instrument, and a missing order list becomes the empty list |
| Execution.FoldMax | barter-python/python/barter_python/execution.py:863 | the running maximum is absent only when there was nothing to fold, and otherwise is an element of the folded values that no value exceeds |
| Execution.TimeMostRecent | barter-python/python/barter_python/execution.py:854-863 | the result is absent exactly when the snapshot has no balances and no timestamped orders; otherwise it is one of those timestamps and none is later |
| Execution.DistinctLoop | barter-python/python/barter_python/execution.py:865-879 | the `seen`-set loop yields exactly the first occurrences of the input, in order |
| Execution.Assets | barter-python/python/barter_python/execution.py:865-871 | every balance asset appears, each once, and nothing else appears, in order of first occurrence |
| Execution.InstrumentsIter | barter-python/python/barter_python/execution.py:873-879 | every snapshot instrument appears, each once, and nothing else appears, in order of first occurrence |
| Seqs.Distinct | barter-python/src/account.rs:484-507 | the de-duplicated list has no repeated element and holds exactly the elements of the input |
| Seqs.DistinctFirstOccurrenceOrder | barter-python/src/account.rs:484-507 | the de-duplicated elements appear in the order of their first occurrence in the input |
| Instruments.ContractSize | barter-python/python/barter_python/instrument.py:388-399 | spot has contract size one, a perpetual, future or option has its contract's size, and any other tag fails with "Unknown instrument kind: " and the tag |
| Instruments.SettlementAsset | barter-python/python/barter_python/instrument.py:401-408 | spot has no settlement asset, a derivative has its contract's, and any other tag fails with "Unknown instrument kind: " and the tag |
| Instruments.ConstructedKindsAnswer | barter-python/python/barter_python/instrument.py:388-408 | every kind built by the class constructors answers both queries, with the contract's own size and settlement asset |
| Instruments.MapExchangeKey | barter-python/python/barter_python/instrument.py:477-487 | the copy is on the new exchange and agrees with the original in every other field |
| Instruments.MapExchangeKeyInverse | barter-python/python/barter_python/instrument.py:477-487 | mapping back to the original exchange restores the instrument, and two mappings in a row equal the last one alone |
| Instruments.NewBuilder | barter-python/python/barter_python/instrument.py:924-932 | a fresh builder holds no exchange, asset or instrument and satisfies the indexing invariant |
| Instruments.EnsureExchange | barter-python/python/barter_python/instrument.py:975-983 | a known exchange returns its existing index and changes nothing; an unknown one is appended with the next index and entered in the lookup; the invariant that every index is its position is kept |
| Instruments.EnsureAsset | barter-python/python/barter_python/instrument.py:985-995 | a known (exchange, internal name) key returns its existing index and changes nothing; an unknown one is appended with the next index; only the asset list and its lookup change |
| Instruments.ConvertKind | barter-python/python/barter_python/instrument.py:997-1040 | spot converts to spot; a derivative with contract data converts to the same contract with the settlement asset replaced by its registered index; a derivative without data, or any other tag, is refused and leaves the state as it was |
| Instruments.AddInstrument | barter-python/python/barter_python/instrument.py:934-962 | the exchange and base and quote assets are registered even when the kind is refused; a refused kind adds no instrument; an accepted one appends exactly one record describing the input (names, underlying, quote side and the contract fields with the settlement asset replaced by its index) and points its key at the new index |
| Instruments.RegisterUnderlying | barter-python/python/barter_python/instrument.py:939-942 | after the first three steps the exchange and both underlying assets are registered, their indices resolve to them, and the instruments are untouched |
| Instruments.AppendInstrument | barter-python/python/barter_python/instrument.py:955-959 | appending a record whose indices resolve keeps the indexing invariant |
| Instruments.Build | barter-python/python/barter_python/instrument.py:964-973 | the built collection holds the same exchanges, assets and instruments and keeps the invariant |
| Instruments.IndexInstruments | barter-python/python/barter_python/instrument.py:834-840 | indexing succeeds exactly when every kind is convertible, and then instrument `j` of the result describes input `j` (names, assets and contract fields), for every input |
| Instruments.IndexFrom | barter-python/python/barter_python/instrument.py:837-839 | the remaining iterations succeed exactly when every remaining kind is convertible and extend the described prefix, contract fields included, by all of them |
| Instruments.AddDescribed | barter-python/python/barter_python/instrument.py:838-839 | one loop step fails exactly on a refused kind and otherwise extends the described prefix by one instrument whose contract fields are the input's |
| Instruments.DescribedContract | barter-python/python/barter_python/instrument.py:997-1040 | a described instrument keeps the input's contract kind and contract size, an option's kind, exercise, expiry and strike, and a future's expiry |
| Instruments.FindExchangeIndex | barter-python/python/barter_python/instrument.py:858-865 | the lookup succeeds exactly when the exchange is indexed, and returns an index holding that exchange |
| Instruments.FindExchange | barter-python/python/barter_python/instrument.py:867-872 | the scan succeeds exactly for an index below the number of exchanges and returns the exchange at that index; otherwise the error is "ExchangeIndex ExchangeIndex(<n>) is not present in indexed exchanges" |
| Instruments.FindAssetIndex | barter-python/python/barter_python/instrument.py:874-886 | the lookup succeeds exactly when some asset has the (exchange, internal name) key, and returns an index of such an asset |
| Instruments.FindAsset | barter-python/python/barter_python/instrument.py:888-895 | the by-index lookup succeeds exactly for an index below the number of assets and returns the asset at that index; otherwise the error is "AssetIndex AssetIndex(<n>) is not present in indexed assets" |
| Instruments.FindInstrumentIndex | barter-python/python/barter_python/instrument.py:897-909 | the lookup succeeds exactly when some instrument has the key, and returns the last instrument with that key |
| Instruments.FindInstrument | barter-python/python/barter_python/instrument.py:911-918 | the by-index lookup succeeds exactly for an index below the number of instruments and returns the instrument at that index; otherwise the error is "InstrumentIndex InstrumentIndex(<n>) is not present in indexed instruments" |
| Instruments.KeyedAt | barter-python/python/barter_python/instrument.py:830-831 | in a list whose keys are positions, both the first-match scan and the by-index dict find entry `k` exactly when `k` is a position |
| Instruments.ExchangeRoundTrip | barter-python/python/barter_python/instrument.py:858-872 | looking an exchange up by id and then by the index found gives the same exchange back |
| Instruments.AssetRoundTrip | barter-python/python/barter_python/instrument.py:874-895 | looking an asset up by key and then by the index found gives an asset with that key |
| Instruments.InstrumentRoundTrip | barter-python/python/barter_python/instrument.py:897-918 | looking an instrument up by key and then by the index found gives an instrument with that key |
| Instruments.IndexedInstrumentsFindable | barter-python/python/barter_python/instrument.py:834-840 | after indexing, every input instrument is found by its key, at its own position or at a later input with the same key |
| MarketData.MidPrice | barter-python/python/barter_python/data.py:94-98 | a mid price exists exactly when both sides are quoted; it is equidistant from the bid and ask prices and, for an uncrossed book, lies between them |
| MarketData.VolumeWeightedMidPrice | barter-python/python/barter_python/data.py:100-106 | no price when a side is missing; a division error exactly when both amounts sum to zero; otherwise a price that, times the total amount, equals bid price times ask amount plus ask price times bid amount |
| MarketData.VolumeWeightedMidPriceBetween | barter-python/python/barter_python/data.py:100-106 | with non-negative amounts that do not both vanish, the micro-price of an uncrossed book lies between the bid and ask prices |
| MarketData.KindName | barter-python/python/barter_python/data.py:189-201 | "trade", "order_book_l1" and "order_book" are renamed to "public_trade", "l1" and "l2"; every other tag is returned as it is |
| MarketData.KindNamesOfConstructors | barter-python/python/barter_python/data.py:161-201 | the five kinds the class methods build are named "public_trade", "l1", "l2", "candle" and "liquidation" |
| MarketData.MapKind | barter-python/python/barter_python/data.py:235-244 | the mapped event keeps both timestamps, the exchange and the instrument, and its kind is the operation applied to the old kind |
| MarketData.MapKindLaws | barter-python/python/barter_python/data.py:235-244 | mapping the identity changes nothing, and mapping two operations in turn equals mapping their composition |
| MarketData.AsPublicTrade | barter-python/python/barter_python/data.py:279-289 | the projection exists exactly when the payload is a trade; it carries the trade, and re-wrapping its kind gives back the event |
| MarketData.AsOrderBookL1 | barter-python/python/barter_python/data.py:292-302 | the projection exists exactly when the payload is a level-1 book; it carries the book, and re-wrapping its kind gives back the event |
| MarketData.AsOrderBook | barter-python/python/barter_python/data.py:305-314 | the projection exists exactly when the payload is a book event; it carries the event, and re-wrapping its kind gives back the event |
| MarketData.ProjectionRoundTrips | barter-python/python/barter_python/data.py:279-314 | wrapping a typed event's payload and projecting it back returns the event, and the other two projections return nothing |
| Risk.ApprovedIntoItem | barter-python/python/barter_python/risk.py:28-30 | unwrapping an approval gives the item that re-wraps to the same approval |
| Risk.RefusedIntoItem | barter-python/python/barter_python/risk.py:56-58 | unwrapping a refusal gives the item that, with the same reason, re-wraps to the same refusal |
| Risk.WrapperEquality | barter-python/python/barter_python/risk.py:35-38 | wrapping then unwrapping returns the request; approvals are equal exactly when their items are, refusals exactly when items and reasons are |
| Risk.ApproveAll | barter-python/python/barter_python/risk.py:121-122 | one approval per request, in order, each wrapping the request at its position |
| Risk.ApproveAllRoundTrip | barter-python/python/barter_python/risk.py:121-122 | unwrapping every approval recovers the request list exactly |
| Risk.DefaultCheck | barter-python/python/barter_python/risk.py:109-126 | nothing is refused; every cancel and every open is approved, in input order |
| Risk.DefaultCheckApprovesInputs | barter-python/python/barter_python/risk.py:109-126 | the approved items of the default check are exactly its input cancels and opens |
| PyDict.Get | barter-python/python/barter_python/engine.py:138-140 | `get` finds nothing exactly when no entry has the key, and otherwise a value stored under the key |
| PyDict.GetAt | barter-python/python/barter_python/engine.py:138-140 | in a dict without repeated keys, the value at each position is what `get` finds for that position's key |
| PyDict.Set | barter-python/python/barter_python/engine.py:142-144 | assigning to an existing key keeps the length and the key's position; assigning to a new key appends one entry at the end |
| PyDict.SetKeys | barter-python/python/barter_python/engine.py:142-144 | assignment keeps the key order, appends only a new key, and keeps the keys unique |
| PyDict.SetGetSame | barter-python/python/barter_python/engine.py:142-144 | after assigning a value to a key, `get` on that key finds exactly that value |
| PyDict.SetGetOther | barter-python/python/barter_python/engine.py:142-144 | after assigning to one key, every other key finds what it found before |
| Engine.Matches | barter-python/python/barter_python/engine.py:24-38 | the all-instruments filter matches everything; the exchange filter matches exactly the instruments on its exchange |
| Engine.PositionQuantity | barter-python/python/barter_python/engine.py:106-112 | no position gives zero; a "buy" position gives its absolute size and any other side gives its negation |
| Engine.UpdateMarketData | barter-python/python/barter_python/engine.py:240-269 | a trade sets the last price and time; a readable candle sets price, time and candle; a level-1 book sets the time and the book; the book changes only on a level-1 event, the candle only on a candle, the price only on a trade or candle, and anything else changes nothing |
| Engine.ProcessMarketEvent | barter-python/python/barter_python/engine.py:235-279 | an unknown instrument leaves the state unchanged; otherwise only that instrument's market data is replaced, keys, key order, trading flag and every other instrument stay as they were |
| Engine.ProcessAll | barter-python/python/barter_python/engine.py:235-279 | processing a stream of events keeps the instruments dict well formed |
| Engine.ProcessAllKeepsHoldings | barter-python/python/barter_python/engine.py:235-279 | however many market events are processed, no instrument appears or disappears and positions, orders, names and the trading flag stay as they were |
| Engine.OrderIdOf | barter-python/python/barter_python/engine.py:212-214 | a cancel names an order id exactly when the order is open, and then it is that open order's id |
| Engine.CancelsFor | barter-python/python/barter_python/engine.py:211-216 | one cancel per order of the instrument, in dict order, each keyed by its order's key |
| Engine.CancelOrdersOver | barter-python/python/barter_python/engine.py:206-217 | exactly as many cancels as there are orders on the instruments the filter selects |
| Engine.CancelOrders | barter-python/python/barter_python/engine.py:206-217 | over the engine's instruments in dict order, one cancel per order of a selected instrument |
| Engine.CancelOrdersOverMembership | barter-python/python/barter_python/engine.py:206-217 | a cancel is generated exactly when it is the cancel of some order of some instrument the filter selects |
| Engine.CancelOrdersOverAppend | barter-python/python/barter_python/engine.py:206-217 | the loop over instruments distributes over concatenation: the cancels of earlier instruments come first |
| Engine.CancelOrdersOverSingle | barter-python/python/barter_python/engine.py:206-217 | a single instrument contributes all its cancels when the filter selects it and none otherwise |
| Engine.CancelOrdersInDictOrder | barter-python/python/barter_python/engine.py:206-217 | instrument `k` of the dict contributes its block of cancels after those of every earlier instrument and before those of every later one |
| Engine.CancelOrdersContents | barter-python/python/barter_python/engine.py:206-217 | a cancel of `CancelOrders.execute` is exactly the cancel of some order of some instrument the filter selects |
| Engine.SendRequests | barter-python/python/barter_python/engine.py:298-315 | what is sent is the risk check's approved cancels and approved opens, unwrapped, in order |
| Engine.CancelOrdersAction | barter-python/python/barter_python/engine.py:317-321 | `cancel_orders` sends no opens of its own: what is dispatched is the risk check's approved cancels and opens for the generated cancels and no opens, unwrapped, in order |
| Engine.CancelOrdersDispatchesOnlyCancels | barter-python/python/barter_python/engine.py:317-321 | behind a risk check that approves only what it is handed, `cancel_orders` dispatches no opens, and every dispatched cancel cancels an order of an instrument the filter selects |
| Engine.DefaultRiskDispatchesAll | barter-python/python/barter_python/engine.py:298-321 | behind the default risk manager every request is sent unchanged, and `cancel_orders` sends exactly the generated cancels and no opens |
| CloseRequest.EnsurePositive | barter-python/src/strategy.rs:13-19 | passes exactly on a value above zero; otherwise a ValueError "<field> must be positive" |
| CloseRequest.ClosingSide | barter-python/src/strategy.rs:21-26 | the closing side is always the other side |
| CloseRequest.ClosingSideInvolution | barter-python/src/strategy.rs:21-26 | closing a close gives back the position's side |
| CloseRequest.BuildClosePositionRequest | barter-python/src/strategy.rs:28-58 | built exactly when price and quantity are finite and the quantity is positive; the first failing check (price, quantity, positivity) names the error; a built request carries the given key parts, the opposite side, the price and quantity, a market kind and immediate-or-cancel |
| CloseRequest.FallbackClientOrderId | barter-python/src/strategy.rs:77 | the fallback id is "close-" followed by the instrument index in decimal |
| CloseRequest.FallbackClientOrderIdInjective | barter-python/src/strategy.rs:77 | distinct instruments get distinct fallback client ids |
| CloseRequest.BuildIocMarketOrderToClosePosition | barter-python/src/strategy.rs:60-97 | an unknown side string is refused first; the request is built exactly when the side parses, a given client id coerces and price and quantity pass; without a client id the fallback id is used; the side is the opposite of the position's |
| Strategy.InstrumentsIter | barter-python/python/barter_python/strategy.py:177-185 | without a filter every instrument is yielded; with one, exactly the matched instruments are yielded, in order |
| Strategy.FilterAll | barter-python/python/barter_python/strategy.py:181-183 | filtering with no filter is the identity |
| Strategy.CoerceClientOrderId | barter-python/python/barter_python/strategy.py:206-209 | an id object is kept as it is; a string is validated as a new client order id |
| Strategy.PythonTimeInForce | barter-python/python/barter_python/strategy.py:198-203 | each Rust time-in-force reads back, through the table, as the Python value of the same name, and immediate-or-cancel only as itself |
| Strategy.ConvertBindingRequest | barter-python/python/barter_python/strategy.py:212-240 | the Python request has the given key parts and the binding's side, kind and time in force, with the given price and quantity |
| Strategy.BuildIocMarketOrderToClosePosition | barter-python/python/barter_python/strategy.py:386-434 | a client id that fails to coerce is the error; otherwise the order is built exactly when price and quantity are finite and the quantity is positive, with the coerced or `close-<instrument>` id, the opposite side, market kind and immediate-or-cancel |
| Strategy.CloseOne | barter-python/python/barter_python/strategy.py:264-291 | no position gives no order; a quantity not above zero raises "position quantity must be positive"; a missing price raises "instrument price is required to close positions"; a success is the closing order for the position at the instrument's price |
| Strategy.CloseAll | barter-python/python/barter_python/strategy.py:264-291 | a successful loop sends at most one order per instrument |
| Strategy.CloseAllSucceedsIff | barter-python/python/barter_python/strategy.py:264-291 | the loop succeeds exactly when every step does |
| Strategy.CloseAllFirstError | barter-python/python/barter_python/strategy.py:264-291 | a failing loop raises the error of its first failing step, every earlier step having succeeded |
| Strategy.StepEmitsIffPosition | barter-python/python/barter_python/strategy.py:264-291 | a successful step yields an order exactly when the instrument has a position |
| Strategy.CloseAllOrders | barter-python/python/barter_python/strategy.py:264-291 | a successful loop sends exactly one order per instrument with a position, in order |
| Strategy.CloseOpenPositionsWithMarketOrders | barter-python/python/barter_python/strategy.py:243-296 | no cancels are generated, and the opens are the loop's orders over the instruments the filter matches |
| Strategy.ClosesEveryMatchedPosition | barter-python/python/barter_python/strategy.py:243-296 | every open position the filter matches gets the order that closes it |
| Strategy.EveryOrderClosesAPosition | barter-python/python/barter_python/strategy.py:243-296 | every order sent closes an open position of an instrument the filter matches |
| Strategy.NewDefaultStrategy | barter-python/python/barter_python/strategy.py:311-312 | the default strategy's id is validated as a strategy id and, when accepted, is the given string |
| Strategy.DefaultCloseFailsOnlyOnBadPositions | barter-python/python/barter_python/strategy.py:322-328 | for the default strategy a position step fails exactly when the quantity is not a positive finite number or the price is missing or not finite, and each order carries the `close-<instrument>` id |
| Strategy.GenerateAlgoOrders | barter-python/python/barter_python/strategy.py:318-320 | the default strategy generates no cancels and no opens |
| Strategy.DefaultCloseRequests | barter-python/python/barter_python/strategy.py:322-328 | the default close succeeds exactly when every matched position has a finite positive quantity and a finite price; it then sends no cancels, and each order carries the `close-<instrument>` id of a matched position |
| Command.NewOrderKey | barter-python/src/command.rs:36-59 | the key keeps the exchange, instrument and strategy string unchecked; a given client id string is used as it is, and without one the key takes the supplied random id |
| Command.ParseSide | barter-python/src/command.rs:343-349 | "buy" or "b" in any ASCII case is Buy, "sell" or "s" is Sell, and anything else fails with "invalid side: " and the lowered input |
| Command.ParseOrderKind | barter-python/src/command.rs:351-359 | "market" or "mkt" in any ASCII case is Market, "limit" or "lmt" is Limit, and anything else fails with "invalid order kind: " and the lowered input |
| Command.EnsurePostOnlyUnused | barter-python/src/command.rs:402-410 | passes exactly when no post-only flag was given; otherwise a ValueError quoting the time-in-force |
| Command.ParseTimeInForce | barter-python/src/command.rs:366-400 | no value, or any good-until-cancelled alias, gives good-until-cancelled with the post-only flag defaulting to false; a day, fill-or-kill or immediate-or-cancel alias gives that value when no post-only flag is given and a post-only error otherwise; anything else fails with "invalid time_in_force: " and the lowered input |
| Command.GetterNamesRoundTrip | barter-python/src/command.rs:138-172 | the `side`, `kind` and `time_in_force` getters' names parse back to the values they describe |
| Command.SameLowerSameParse | barter-python/src/command.rs:343-400 | two inputs with the same lowercase form get the same result from each of the three parsers |
| Command.ParsersIgnoreCase | barter-python/src/command.rs:343-400 | lowering the input first changes none of the three parsers' results |
| Command.ParseDecimal | barter-python/src/command.rs:361-364 | a float converts exactly when it is finite, to its own value; otherwise "<field> must be a finite numeric value" |
| Command.NewOrderRequestOpen | barter-python/src/command.rs:105-136 | the request is built exactly when side, kind, price, quantity and time in force all pass, and the first that fails, in that order, is the error; a built request keeps the key and the parsed values |
| Command.NewOrderRequestCancel | barter-python/src/command.rs:199-210 | the request keeps the key and carries an order id exactly when one is given, with that string |
| Command.HasOrderId | barter-python/src/command.rs:212-215 | true exactly when the cancel request carries an order id |
| Command.EnsureNonEmptyItems | barter-python/src/command.rs:412-420 | passes exactly on a non-empty list; otherwise "<context> requires at least one entry" |
| Command.FilterExchanges | barter-python/src/command.rs:246-252 | an empty index list is refused; otherwise the filter is on exchanges and lists exactly the given indices |
| Command.FilterInstruments | barter-python/src/command.rs:254-260 | an empty index list is refused; otherwise the filter is on instruments and lists exactly the given indices |
| Command.ToUnderlyings | barter-python/src/command.rs:266-269 | one underlying per pair, in order, with the pair's base and quote |
| Command.FilterUnderlyings | barter-python/src/command.rs:262-274 | an empty pair list is refused; otherwise the filter is on underlyings and lists exactly the given pairs |
| Command.ToOneOrMany | barter-python/src/command.rs:422-430 | no item is an error "<context> requires at least one item", one item is One, more are Many of all the items |
| Command.ToOneOrManyRoundTrip | barter-python/src/command.rs:422-430 | whatever is accepted reads back as the same list |
| Ids.EnsureNonEmpty | barter-python/src/execution.rs:4-10 | passes exactly when the string is not empty after trimming whitespace; otherwise "<what> must not be empty" |
| Ids.NewClientOrderId | barter-python/src/execution.rs:36-43 | a client id is built exactly from a non-blank string, which it keeps unchanged; a blank one raises "client order id must not be empty" |
| Ids.NewOrderId | barter-python/src/execution.rs:100-107 | an order id is built exactly from a non-blank string, which it keeps unchanged; a blank one raises "order id must not be empty" |
| Ids.NewStrategyId | barter-python/src/execution.rs:156-163 | a strategy id is built exactly from a non-blank string, which it keeps unchanged; a blank one raises "strategy id must not be empty" |
| Ids.BlankIdsRefused | barter-python/src/execution.rs:4-10 | whitespace-only strings are refused by all three constructors, while surrounding whitespace around a non-blank value is kept, not trimmed away |
| Ids.ExtractString | barter-python/src/execution.rs:196-200 | only a non-blank `str` is accepted, and kept as it is; a non-string is a TypeError and a blank string the not-empty ValueError |
| Ids.CoerceStrategyId | barter-python/src/execution.rs:216-223 | a strategy id object is taken as it is, a string is validated, and any other object is a TypeError |
| Ids.CoerceClientOrderId | barter-python/src/execution.rs:225-237 | no argument gives the random id, a client id object is taken as it is, a string is validated, and any other object is a TypeError |
| Ids.CoercionsRoundTrip | barter-python/src/execution.rs:216-237 | coercing a valid id's own string gives the same result as coercing the id object |
| Collection.NoneOneOrManyFrom | barter-python/src/collection.rs:115-117 | converting a vector gives None exactly for no item, One of the item exactly for one item, and otherwise Many of all the items |
| Collection.OneOrManyFrom | barter-python/src/collection.rs:234-236 | converting a non-empty vector gives One of the item exactly for one item, and otherwise Many of all the items |
| Collection.NoneOneOrManyToList | barter-python/src/collection.rs:57-69 | the list is empty for None, the single item for One, and all items in order for Many |
| Collection.OneOrManyToList | barter-python/src/collection.rs:81-92 | the list is the single item for One and all items in order for Many |
| Collection.FromToListRoundTrip | barter-python/src/collection.rs:57-92 | converting a vector and reading it back as a list gives the vector again, and `__len__` is the length of that list |
| Collection.ExtractIterable | barter-python/src/collection.rs:337-373 | text, bytes and dicts are never unpacked; a list, a tuple or another iterable is unpacked into its items in order; anything else is not an iterable |
| Collection.NewNoneOneOrMany | barter-python/src/collection.rs:103-137 | no argument or a single None gives None; a single iterable is unpacked; a single other value is One of it; two or more arguments are Many of all of them, in order |
| Collection.NoneOneOrManySingleScalar | barter-python/src/collection.rs:106-128 | a single text, bytes or dict argument is kept whole as One, and a single None or no argument gives an empty collection |
| Collection.NoneOneOrManyOne | barter-python/src/collection.rs:144-149 | `one` holds exactly the given value |
| Collection.NoneOneOrManyMany | barter-python/src/collection.rs:151-160 | `many` succeeds exactly on an iterable and then holds its items in order; otherwise "expected an iterable to construct NoneOneOrMany.many" |
| Collection.NewOneOrMany | barter-python/src/collection.rs:215-248 | no argument is refused, a single empty iterable is refused, a single non-empty iterable is unpacked, a single other value is One of it, and two or more arguments are Many of all of them |
| Collection.OneOrManyOne | barter-python/src/collection.rs:254-259 | `one` holds exactly the given value |
| Collection.OneOrManyMany | barter-python/src/collection.rs:261-278 | `many` succeeds exactly on a non-empty iterable and then holds its items in order; a non-iterable and an empty iterable raise their two messages |
| Collection.OneOrManyNeverEmpty | barter-python/src/collection.rs:215-291 | a OneOrMany built either way has length at least one |
| Common.IntervalChars | barter-python/src/common.rs:21-23 | only ASCII letters and digits survive the filter of an interval name |
| Common.IntervalCharsAppend | barter-python/src/common.rs:21-23 | filtering a concatenation filters each part independently |
| Common.NormaliseInterval | barter-python/src/common.rs:21-25 | a normalised interval name consists only of lowercase ASCII letters and digits |
| Common.IntervalOfNormalised | barter-python/src/common.rs:27-31 | the empty name and "daily" choose Daily, "annual252" Annual252, "annual365" Annual365, and nothing else chooses an interval |
| Common.ParseSummaryInterval | barter-python/src/common.rs:17-39 | no value means Daily; a value chooses each interval exactly when its normalisation is that interval's name, and any other value is refused with the invalid-interval message quoting the trimmed raw text |
| Common.SameNormalisationSameInterval | barter-python/src/common.rs:17-39 | two names with the same normalisation are accepted together and then choose the same interval |
| Common.SeparatorsIgnored | barter-python/src/common.rs:21-25 | a separator anywhere in a name does not affect its normalisation, so `annual_252` and `annual252` agree |
| Common.CaseIgnored | barter-python/src/common.rs:21-25 | lowercasing a name first leaves its normalisation unchanged |
| Common.LowerThenKeep | barter-python/src/common.rs:21-25 | lowercasing commutes with the letters-and-digits filter |
| Common.SeparatorsOnlyMeanDaily | barter-python/src/common.rs:27-28 | a name without any letter or digit chooses Daily |
| Common.NoneKept | barter-python/src/common.rs:21-23 | the filter keeps nothing of a name without letters or digits |
| Common.ParseExchangeIdentifier | barter-python/src/common.rs:132-149 | a blank exchange label is refused as empty; otherwise the trimmed, lowercased label is accepted exactly when it names a known exchange, and an unknown label is refused with a message quoting the raw label |
| Common.ParseNumericField | barter-python/src/common.rs:99-105 | a value with no float conversion (a non-number, an int beyond double range, a number-like object whose conversion raises) is refused as non-numeric, a non-finite float as not finite, and a finite float gives its own value |
| Common.StringField | barter-python/src/common.rs:80-93 | a field is read exactly when it holds a string, and then gives that string |
| Common.RequiredField | barter-python/src/common.rs:74-97 | a field is read exactly when the dict has the key, and a missing key is refused with the entry's "missing '<name>' field" message |
| Common.ParseEntryAmounts | barter-python/src/common.rs:95-124 | a missing total is refused with its "missing 'total' field" message; a parsed balance has a finite total read from the entry, a free amount read from the entry or else equal to the total, and free at most total |
| Common.ParseInitialBalanceEntry | barter-python/src/common.rs:70-130 | a missing or non-string exchange is refused with its own message; a parsed entry takes its exchange from the recognised label, its asset from the entry's string, and its balance from the amounts stage |
| Common.FreeAboveTotalRefused | barter-python/src/common.rs:95-124 | with a finite total and a finite or missing free, the amounts are refused with "free balance cannot exceed total" exactly when free exceeds total, and otherwise give the total and the free amount, free defaulting to total |
| Common.EntryHasAmounts | barter-python/src/common.rs:70-130 | once the exchange and asset of an entry parse, the entry fails with the amounts' error or succeeds with that exchange, asset and balance |
| Common.ParseInitialBalanceItem | barter-python/src/common.rs:58-63 | an element that is not a dict is refused as not a mapping; a dict is parsed as an entry |
| Common.ExtractVec | barter-python/src/common.rs:55 | lists and tuples give their items, bytes give one item per byte, and anything else is a TypeError |
| Common.ParseInitialBalances | barter-python/src/common.rs:41-68 | no value, or None, gives no balances; otherwise the elements are parsed in order and the first error is returned |
| Common.InitialBalancesInOrder | barter-python/src/common.rs:56-67 | a parsed list holds one balance per element, at the element's position, each element being a dict whose entry parses to that balance |
| Common.InitialBalancesBounded | barter-python/src/common.rs:120-124 | every balance of a parsed list has free at most total |
| Analytics.ParseIntervalFromStr | barter-python/src/analytics.rs:480-490 | "daily" chooses Daily and exactly the four spellings of each year choose that year, after trimming and lowercasing; every other identifier is refused with a message quoting its normalised form |
| Analytics.LabelCaseIgnored | barter-python/src/analytics.rs:481 | lowercasing an identifier first does not change what it parses to |
| Analytics.LabelPaddingIgnored | barter-python/src/analytics.rs:481 | whitespace around an identifier does not change what it parses to |
| Analytics.SameNormalFormSameResult | barter-python/src/analytics.rs:480-490 | identifiers with the same trimmed lowercase form parse to the same result |
| Analytics.SpellingsHaveNoSpace | barter-python/src/analytics.rs:484-485 | no accepted spelling of a year contains a space |
| Analytics.InnerSpaceRefused | barter-python/src/analytics.rs:480-490 | an identifier with a space inside its trimmed form is refused |
| Analytics.CalculateWinRate | barter-python/src/analytics.rs:277-292 | wins, then total, must be finite, then a negative total and then negative wins are refused with their messages; the rate is computed exactly when both are finite and non-negative |
| Analytics.AsSequence | barter-python/src/analytics.rs:355-368 | lists, tuples, strings and bytes are sequences, with their items, characters or byte values in order; nothing else is |
| Analytics.ParseNumericValue | barter-python/src/analytics.rs:338-352 | a value with a float conversion must be finite; anything else is read through its text, refused as non-numeric when it has none and as not finite when the text is not a decimal |
| Analytics.ParsePoint | barter-python/src/analytics.rs:324-384 | a point is read exactly when it is a sequence of exactly two elements whose first is a datetime and whose second is numeric, and the three malformed shapes are refused with their own messages |
| Analytics.ParseEquityPoints | barter-python/src/analytics.rs:354-386 | a non-sequence is refused; otherwise the points are read in order and the first bad one raises |
| Analytics.EquityPointsInOrder | barter-python/src/analytics.rs:360-385 | a list of points parses exactly when every element does, into one point per element at its position |
| Analytics.PairsRequired | barter-python/src/analytics.rs:364-374 | a list with an element that is not a two-element sequence is refused, with the error of the first element that fails |
| Analytics.Run | barter-python/src/analytics.rs:392-396 | the updates emit at most one drawdown per point |
| Analytics.DrawdownSeries | barter-python/src/analytics.rs:388-403 | a series has at most one drawdown more than there are points |
| Analytics.BuildDrawdownSeries | barter-python/src/analytics.rs:388-403 | the loop collects, in order, every drawdown the updates complete and then the one the final step emits |
| Analytics.DrawdownSeriesFromPy | barter-python/src/analytics.rs:405-412 | a parse error is passed on, no points give no drawdowns whatever the final step would emit, and otherwise the series is built from the parsed points |
| Analytics.Summarise | barter-python/src/analytics.rs:436-452 | an empty series has no summary, and a non-empty one is the summariser started on its first drawdown and updated with each later one |
| Analytics.SummariseLoop | barter-python/src/analytics.rs:436-452 | the loop that starts the generator on the first drawdown and updates it with the rest computes that summary |
| Analytics.CalculateDrawdownSummary | barter-python/src/analytics.rs:428-478 | a parse error is passed on, no points or no drawdowns give no summary, and otherwise the result is the summariser's fold over the whole drawdown series |
| Analytics.CalculateDrawdownSummaryLoop | barter-python/src/analytics.rs:428-478 | the loop that feeds each drawdown to the summariser in order returns what the functional summary defines |
| Analytics.NoPointsNoDrawdowns | barter-python/src/analytics.rs:405-412 | an empty list of points gives an empty drawdown series and no max or mean drawdown |
| Account.CheckOrderInstrument | barter-python/src/account.rs:292-300 | an order passes exactly when it is for the snapshot's instrument, and otherwise the error names both instrument indices |
| Account.NewInstrumentAccountSnapshot | barter-python/src/account.rs:277-305 | a snapshot is built exactly when every order is for its instrument, and it keeps the orders as given |
| Account.InstrumentSnapshotFirstMismatch | barter-python/src/account.rs:292-300 | a refused snapshot reports the first order that is for another instrument |
| Account.LenCountsOrders | barter-python/src/account.rs:323-325 | the length of a snapshot is the number of orders it was built from |
| Account.NewAssetBalance | barter-python/src/account.rs:398-420 | total, then free, must be finite and non-negative, then free may not exceed total, each with its own message; a converted balance keeps the tuple's asset, amounts and time, with free at most total |
| Account.CheckOrderExchange | barter-python/src/account.rs:435-445 | an order passes exactly when it is for the snapshot's exchange, and otherwise the error names both exchange indices |
| Account.AllOrders | barter-python/src/account.rs:435-436 | the nested loop visits every order of every instrument snapshot and nothing else |
| Account.NewAccountSnapshot | barter-python/src/account.rs:388-450 | the first bad balance tuple decides the error; with good balances, the snapshot is built exactly when every order is for its exchange, and it keeps one balance per tuple and the instrument snapshots as given |
| Account.OrdersFirstMismatch | barter-python/src/account.rs:436-443 | checking a list of orders against the exchange refuses with the message naming the first order on another exchange, every earlier order matching |
| Account.AccountSnapshotFirstMismatch | barter-python/src/account.rs:388-450 | with every balance tuple accepted, a refused snapshot names the first order, in nested loop order, whose exchange differs from the snapshot's |
| Account.AccountSnapshotBalances | barter-python/src/account.rs:388-450 | a snapshot is built exactly when every balance tuple converts and every order is for its exchange, and then each balance at its position carries its tuple's asset, amounts and time with free at most total |
| Account.FreeAboveTotalRefused | barter-python/src/account.rs:412-416 | a balance tuple with free above total anywhere in the list refuses the whole snapshot |
| Statistic.RoundHalfEven | barter-python/python/barter_python/statistic.py:75 | the result is within half a step of the exact quotient, and an exact tie goes to the even integer |
| Statistic.MinutesLabel | barter-python/python/barter_python/statistic.py:75 | the printed minute count is the nearest integer, ties to even, with a negative quotient that rounds to zero printed as "-0" |
| Statistic.Name | barter-python/python/barter_python/statistic.py:32-75 | the three named intervals are "Annual(365)", "Annual(252)" and "Daily", and a custom interval is "Duration N (minutes)" with N its rounded minute count |
| Statistic.IntervalSeconds | barter-python/python/barter_python/statistic.py:36-79 | the named intervals last 365, 252 and 1 days, and a custom interval lasts its own delta |
| Statistic.WholeMinutesName | barter-python/python/barter_python/statistic.py:73-75 | a delta of a whole number of minutes is named by exactly that number |
| Statistic.DeltaNameNearest | barter-python/python/barter_python/statistic.py:73-75 | the minute count in a custom interval's name is within thirty seconds of its length |
| Statistic.NamesIdentifyIntervals | barter-python/python/barter_python/statistic.py:28-79 | the three named intervals have distinct names, and two whole-minute deltas with the same name are equal |
| Statistic.IntToStringInjective | barter-python/python/barter_python/statistic.py:75 | distinct integers print differently |
| Statistic.IntToStringSign | barter-python/python/barter_python/statistic.py:75 | a printed integer is non-empty and starts with a minus sign exactly when it is negative |
| Floats.Trichotomy | barter-python/python/barter_python/strategy.py:274 | Python float comparison orders every non-NaN pair in exactly one way, and NaN compares false with everything, so a NaN quantity is not refused as non-positive |
| Floats.ParseDecimal | barter-python/src/command.rs:361-364 | a float converts to a decimal exactly when it is finite, keeping its value, and otherwise fails with the field's "must be a finite numeric value" message |
| Text.LowerChar | barter-python/src/command.rs:344 | ASCII lowercasing leaves no uppercase letter, moves each uppercase letter by 32 code points and leaves every other character alone |
| Text.ToAsciiLower | barter-python/src/command.rs:344 | lowercasing a string lowercases each character in place |
| Text.ToAsciiLowerIdempotent | barter-python/src/common.rs:21-25 | lowercasing twice is lowercasing once |
| Text.LeadingWhitespace | barter-python/src/execution.rs:5 | counts the whitespace prefix, stopping at the first non-whitespace character |
| Text.TrailingWhitespace | barter-python/src/execution.rs:5 | counts the whitespace suffix, stopping at the last non-whitespace character |
| Text.Trim | barter-python/src/execution.rs:5 | trimming keeps a slice that neither starts nor ends with whitespace and cuts off only whitespace, and leaves nothing exactly for a blank string |
| Text.TrimEmptyIffBlank | barter-python/src/execution.rs:4-10 | an identifier trims to nothing exactly when it is all whitespace |
| Text.LowerKeepsWhitespace | barter-python/src/analytics.rs:481 | lowercasing a character never changes whether it is whitespace |
| Text.LeadingWhitespaceLower | barter-python/src/analytics.rs:481 | lowercasing keeps the length of the whitespace prefix |
| Text.TrailingWhitespaceLower | barter-python/src/analytics.rs:481 | lowercasing keeps the length of the whitespace suffix |
| Text.LowerSlice | barter-python/src/analytics.rs:481 | lowercasing commutes with taking a slice |
| Text.TrimLower | barter-python/src/analytics.rs:481 | trimming and lowercasing commute, so their order in the interval parser does not matter |
| Text.LeadingWhitespacePadded | barter-python/src/analytics.rs:481 | whitespace put before a string that starts with a non-whitespace character is exactly its whitespace prefix |
| Text.TrailingWhitespacePadded | barter-python/src/analytics.rs:481 | whitespace put after a string that ends with a non-whitespace character is exactly its whitespace suffix |
| Text.TrimPadded | barter-python/src/analytics.rs:481 | trimming removes exactly the whitespace padding around a string that does not itself start or end with whitespace |
| Text.NatToString | barter-python/src/account.rs:293-297 | an index prints as a non-empty string of decimal digits |
| Text.NatToStringRoundTrip | barter-python/src/account.rs:293-297 | reading the printed digits back gives the number |
| Text.NatToStringInjective | barter-python/src/account.rs:293-297 | distinct indices print differently, so an error message identifies its indices |
| Text.IntToString | barter-python/python/barter_python/statistic.py:75 | a negative integer prints as a minus sign before its magnitude, and any other integer as its digits |
| Text.Split | barter-python/python/barter_python/execution.py:128-129 | splitting gives at least one piece, and no piece contains the separator |
| Text.SplitJoin | barter-python/python/barter_python/execution.py:128-129 | splitting a joined string recovers the parts, provided none of them contains the separator |
| PyObjects.DictGet | barter-python/src/common.rs:74 | a key is missing exactly when no entry has it, and a found value is stored under that key |
| PyObjects.AsFloat | barter-python/src/common.rs:102 | floats, bools, ints within double range and number-like objects whose conversion succeeds extract as floats of their numeric value; ints at or beyond 2^1024 − 2^970 in magnitude, failing number-like objects and all other objects do not |
| PyObjects.OverflowBoundary | barter-python/src/common.rs:102 | an int one below 2^1024 − 2^970 converts, while that bound and its negation do not |
| Loops.TryEach | barter-python/src/common.rs:58-65 | a successful conversion loop gives one value per element |
| Loops.TryEachPositions | barter-python/src/common.rs:58-65 | the loop succeeds exactly when every element converts, and then each value sits at its element's position |
| Loops.TryEachAt | barter-python/src/common.rs:58-65 | the value a successful loop holds for an element is that element's conversion |
| Loops.TryEachFirstError | barter-python/src/common.rs:58-65 | a failing loop returns the error of the first element that fails |
| Loops.CollectEach | barter-python/python/barter_python/strategy.py:264-291 | a successful collecting loop keeps at most one value per element |
| Loops.CollectEachSucceedsIff | barter-python/python/barter_python/strategy.py:264-291 | the collecting loop succeeds exactly when every step does |
| Loops.CollectEachFirstError | barter-python/python/barter_python/strategy.py:264-291 | a failing collecting loop returns the error of its first failing step, every earlier step having succeeded |
| Loops.CollectEachKept | barter-python/python/barter_python/strategy.py:264-291 | when a step yields a value exactly for the elements a predicate accepts, the loop holds one value per accepted element, in order, each that element's step |
| Loops.CheckEach | barter-python/src/account.rs:292-300 | a check of every element passes exactly when each element passes |
| Loops.CheckEachFirstFailure | barter-python/src/account.rs:292-300 | a failing check reports the first element that fails |
| Seqs.Filter | barter-python/python/barter_python/strategy.py:181-183 | the filtered list keeps, in order, exactly the elements the predicate accepts |
| Seqs.FilterMultiset | barter-python/python/barter_python/strategy.py:181-183 | filtering keeps every accepted element as often as it occurs, and no other element |
| Seqs.FilterAppend | barter-python/python/barter_python/strategy.py:181-183 | filtering a concatenation filters each part |
| Seqs.FirstIndex | barter-python/src/account.rs:484-507 | the first position of an element holds it, and no earlier position does |
| Seqs.FirstIndexPrefix | barter-python/src/account.rs:484-507 | an element's first position in a list is the same after anything is appended |

## Left out

- Decimal precision and range are not modelled: decimals are exact reals, so neither rounding nor the failure of `Decimal::from_f64` on values outside the decimal range appears.
- Binary rounding of `f64` values is not modelled. Finite floats are exact reals.
- The sign of a negative zero is not modelled: `-0.0` is zero.
- Analytics.CalculateWinRate: the source tests `is_sign_negative` on the converted decimals. The model tests `< 0`, so it accepts wins or a total of `-0.0`, assuming the conversion turns them into a positive zero.
- The float-to-Decimal conversion through `str()` in the engine and the Python strategy is not modelled. Prices and quantities are taken as reals.
- The conversion of asset names to `AssetNameInternal` is not modelled: an initial balance keeps the asset label as given.
- The instrument-config conversion (`From<InstrumentConfig>`) is not part of this model.
- Random client-order ids, `str()` of a Python value and `Decimal::from_str` come from outside the bindings. They are function parameters.
- The drawdown, max-drawdown, mean-drawdown and win-rate computations of the statistic crate are not part of this model. They are function parameters, and only the way the bindings feed and collect them is modelled.
- Collection.NoneOneOrManyFrom and Collection.OneOrManyFrom state the conversions from a vector that the collection crate is assumed to provide. That crate is not part of this model.
- Matching by `InstrumentFilter` inside the engine crate is not part of this model. The Python engine's `AllInstrumentsFilter` and `ExchangeFilter` are modelled.
- The engine's candle branch uses `as_candle`, which the Python data module does not define. The model uses a candle payload carrying its close price as a stand-in.
- The following parts of the Python engine are not modelled: the global data and the balances of `EngineState`, and the delegations `set_trading_enabled`, `process_account_event`, `generate_algo_orders` and `close_positions`.
- The `execute` of a `SendRequests` action is a placeholder in the source. Only the dispatch of approved items is modelled.
- The `cancel_all_orders_on_disconnect` and `close_all_positions_on_trading_disabled` hooks are placeholders in the source, so they are not modelled.
- `__repr__`, `__eq__` and `__hash__` of the Python wrappers are not modelled. The one exception is the equality of the risk wrappers.
- The PyO3 `TypeError` texts from failed argument extraction are indicative only. Each failure is modelled as a `TypeError`, but the wording is not checked.
- Number-like Python objects (`Decimal`, `Fraction`, numpy scalars) are described by the outcome of their `__float__` or `__index__` conversion. The Python code run inside that conversion is not modelled.
- Errors raised while iterating a Python object inside `extract_iterable` are not modelled. An iterable yields a finite list of items.
- Sequence types other than list, tuple, str and bytes (for example user classes implementing the sequence protocol) are not modelled.
- Naive datetimes, which the equity-point parser reads as UTC, are not modelled. A datetime is its UTC instant in microseconds.
- The recogniser of exchange names (the serde names of `ExchangeId`) is a parameter, so the list of exchange names is not part of this model.
- Custom time intervals are whole numbers of seconds: sub-second `timedelta` parts are not modelled.
- The `timedelta` branch of `parse_interval_choice` (barter-python/src/analytics.rs:190-219) is not modelled. Only the string identifiers are.
- Instruments.ContractSize and Instruments.SettlementAsset report errors as message text only. The ValueError for an unknown kind and the AttributeError for a derivative kind without contract data are therefore not told apart by exception type.
- The Python strategy raises when an instrument with a position has no price (strategy.py:277-279), although the Python tests expect such instruments to be skipped. The model follows the code.
- The summary-interval parser (common.rs) and the analytics-interval parser (analytics.rs) normalise differently, and the model keeps both: the first drops separators, while the second only trims and lowercases, so "annual 252" is refused there.
- Orders inside account snapshots are the Python order model's records, standing in for the bindings' order snapshot wrappers.
