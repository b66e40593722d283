# A verified model of the trading core

This project models the parts of the trading system that have to stay consistent
with each other: the limit order book in its two implementations (Python and
C++), the engines above them, the market-data stream that clients patch their
books from, the byte frames and the ring buffer between processes, and the
strategy runtime with its ledger. Every piece is proved against a specification,
and the specifications are what the whole-run theorems are about.

## How it is laid out

- `Domain`, `BookSpec`, `EngineSpec`: values and the abstract book and engine. A
  book is, per side, one flat queue of resting orders; an engine is a map of
  books, a map of every order ever admitted, and counters. The two
  implementations differ in what `Backend` says: when an order takes any price
  (`Bound`), how wide the numbers shown are (`Show`, `Deliver`), and which symbols
  get a book (`Lists`).
- `PyLevels`, `PyBook`, `PyEngine`: the Python book and engine as classes that
  change in place: a FIFO per level, sorted levels, running totals, the cancel
  index, the order map.
- `NativeLevels`, `NativeMap`, `NativeBook`, `NativeEngine`: the C++ counterpart:
  doubly linked nodes, unsigned 32-bit counters that wrap, node pointers in the
  cancel map, a facade that owns the nodes. `Rows` is shared sequence theory.
- `Lockstep`, `Agreement`, `Backends`: the two implementations driven side by side,
  as books, order by order, and as the engines the service calls.
- `MatchTheory`, `BookRuns`, `DepthTheory`, `EngineRuns`, `Conservation`: what one
  sweep is, and what holds after any run of a book or of an engine. `Reports` and
  `Counters` tell every status, every reported outcome and every counter after any
  run without following how they are computed.
- `HalCache`: the Python cache above the C++ engine.
- `BookStream`, `MarketData`: snapshot diffs, the client's patch, late joiners.
- `Ledger`, `Runtime`, `MarketMaker`, `EventBus`: strategies, their positions and
  their orders; `TradingDay` is a short run of the runtime in which one trades.
- `SpscRing`, `Bytes`, `OrderCodec`, `SnapshotCodec`, `ResultCodec`: the ring and
  the wire frames. Prices are 64-bit words there (binary64, section 3.4 of IEEE
  754-2019) and order ids 16 bytes (section 4 of RFC 9562).

In the books, prices are reals and ids are only compared. Ghost parameters such
as `e` (the engine as it stands) and ghost fields (`queue`, `nodes`, `rows`,
`world`) carry the specification value; no result depends on them.

## What the code turns out to do

- **Priced market orders.** Python lets an order without a price cross anything,
  C++ an order of market type. On a given queue they trade alike exactly when the
  order is no priced market order, or what rests within its price fills it, or
  everything rests within its price (`SweepsAgreeIff`). Some book of an engine
  separates them exactly if the order is a market order that buys at a price or
  sells at a positive one (`HarmlessAlwaysIff`).
- **The two engines** give the service the same replies, call by call, if and only
  if every call is safe when it is made: symbols registered have one to six
  characters, quantities fit 32 bits, no longer symbol is cut to that of another
  book, orders are harmless in the sense above, and what is shown afterwards fits
  32 bits (`EnginesAgreeIff`).
- **32-bit totals.** C++ level totals and counts wrap; the two snapshots are equal
  exactly when every shown total and count is below 2^32 (`RowsAgreeIff`,
  `Mirror.Snapshot`), and delivered as equal when the sequence is too
  (`DeliveredIff`).
- **Vanishing levels.** Patching a snapshot's diff gives the next snapshot exactly
  when no new or changed row has quantity 0 (`PatchIffNoEmptyRow`). The Python book
  never shows such a row, so its streams always replay (`DashboardConverges`). The
  C++ book does when a level's volume is divisible by 2^32: two orders of 2^31 at
  one price, and clients drop a level on which both still rest (`VanishingLevel`).
  A C++ stream replays exactly when no new or changed level shown has such a volume
  (`DashboardConvergesIff`).
- **Sequence numbers.** The snapshot's documentation says gaps in `sequence` show
  missed updates. Cancelling does not advance it, so different books can share a
  number; a late joiner converges all the same (`LateJoinersConvergeIff`).
- **Match results.** C++ makes a trade's wire id of its time and its number, which
  starts at 1; Python writes its own id and number 0. The two encoders write the
  same bytes for results without trades and for no other
  (`ResultCodec.SameBytesOnlyWithoutTrades`).
- **Resubmitted orders.** Submitting the same order object a second time is refused
  but marks the object rejected, while it still rests if it did; its status is
  right afterwards exactly if it did not rest (`ResubmissionHidesIff`).
- **The counter of resting orders** goes up when an order rests and down when one is
  cancelled, but not when a resting order is filled: it is the number of resting
  orders exactly as long as none of them has been filled completely
  (`CountersTell`).
- **Cancelled and filled orders** stay in the engines' order maps, although the
  Python engine's documentation of `cancel_order` says they do not; cancelling
  one returns nothing because it is not in the book's index.
- **Zero prices and long symbols** do not survive the order frame
  (`LosslessIff`): a price of 0.0 or -0.0 comes back as no price, a symbol is cut
  at six characters and loses trailing NULs. Nor do the strategy, the client's tag,
  the average price and three of the five timestamps, for which it has no room.
- **Counts.** C++ writes 16-bit counts and a 32-bit sequence without checking
  them; a frame decodes to what was written exactly when they fit
  (`SnapshotCodec.NativeSurvivesIff`, `ResultCodec.NativeSurvivesIff`). Python
  refuses to encode what does not fit.
- **Short ring items** shrink the ring's memory: the ring stays sound exactly
  when the item is at least as long as a slot (`SPSCRingBuffer.Put`).

## Model

| member | source | states |
|---|---|---|
| MatchTheory.MatchIffSweep | engine/core/order_book.py:207-241 | the matching loop's outcome is the only one that fills a prefix of the opposite queue completely at the makers' prices, leaves the suffix with at most its head reduced, pays the taker exactly, stays within its limit and passes nothing over |
| MatchTheory.TotalIsMinimum | engine/core/order_book.py:208-216 | the total traded is the smaller of the order's quantity and all resting quantity within its limit |
| PyLevels.PriceLevel.Add | engine/core/order_book.py:30-32 | an order joins the end of the level and its remainder the total |
| PyLevels.PriceLevel.Remove | engine/core/order_book.py:37-43 | the order with that id, wherever it stands, leaves the level and the total; nothing changes if there is none |
| PyLevels.LevelMap.Rest | engine/core/order_book.py:173-177 | the sorted levels stay sound, and in the flat queue the newcomer stands behind everything at least as good |
| PyLevels.LevelMap.TakeFront | engine/core/order_book.py:215-238 | a fill hits the oldest order of the best level, keeps every total, and removes the order exactly when nothing is left of it |
| PyLevels.LevelMap.Withdraw | engine/core/order_book.py:281-295 | the indexed order is always found at its price and taken out of the middle of its level, the emptied level deleted; the fallback exits are unreachable |
| PyLevels.LevelMap.Rows | engine/core/order_book.py:299-305 | the incrementally kept totals and counts are those of the queue aggregated afresh |
| PyLevels.LevelsAreRows | engine/core/order_book.py:26-43 | the levels are exactly the runs of equal price in the queue, with the right totals |
| PyBook.OrderBook.FillLevel | engine/core/order_book.py:214-238 | the inner loop is part of the one sweep the submission must make, and ends with the order or the level exhausted |
| PyBook.OrderBook.MatchAgainst | engine/core/order_book.py:208-241 | the nested loops carry out the abstract sweep, and the index loses exactly the makers that are gone |
| PyBook.OrderBook.RestOrder | engine/core/order_book.py:173-178 | a residual queues behind everything at least as good and is indexed under its id; nothing else in the book changes |
| PyBook.OrderBook.ApplyPolicy | engine/core/order_book.py:243-266 | final status and whether a residual rests: filled if nothing is left, a market order partly filled or as it was, a limit order cancelled, open or partly filled by its time in force, including the status lines 179-182 give a residual |
| PyBook.OrderBook.Submit | engine/core/order_book.py:186-268 | the class refines the abstract submission: same book, order, trades, resting flag and filled makers, with the representation invariant kept |
| PyBook.OrderBook.Cancel | engine/core/order_book.py:270-295 | the class refines the abstract cancellation, succeeds exactly on ids that rest, and changes no other order |
| PyBook.OrderBook.TakeSnapshot | engine/core/order_book.py:297-312 | the depth-limited picture is the abstract one |
| NativeLevels.PriceLevel.PushBack | engine/cpp/include/price_level.hpp:59-67 | the linked list stays well formed, the node last, both counters exact in 32 bits |
| NativeLevels.PriceLevel.Remove | engine/cpp/include/price_level.hpp:69-77 | unlinking from any position keeps prev and next inverse and both counters exact |
| NativeLevels.PriceLevel.FillHead | engine/cpp/src/order_book.cpp:95-118 | a fill reduces the counter once; unlinking the filled node subtracts nothing more |
| NativeBook.OrderBook.MatchAgainst | engine/cpp/src/order_book.cpp:73-124 | the pointer loops carry out the same abstract sweep, and the trade counter advances by the number of trades |
| NativeBook.OrderBook.RestOrder | engine/cpp/src/order_book.cpp:51-66 | a residual queues behind everything at least as good and its node is kept under its id |
| NativeBook.OrderBook.ApplyPolicy | engine/cpp/src/order_book.cpp:140-158 | the same in C++, including the status lines 68-70 give a residual |
| NativeBook.OrderBook.Submit | engine/cpp/src/order_book.cpp:126-160 | the class refines the abstract submission with C++'s crossing rule, and keeps lists, counters and pointers consistent |
| NativeBook.OrderBook.Cancel | engine/cpp/src/order_book.cpp:162-186 | the class refines the abstract cancellation through the stored pointer, and changes no other order |
| NativeBook.OrderBook.TakeSnapshot | engine/cpp/src/order_book.cpp:188-207 | the abstract picture with totals and counts modulo 2^32 |
| Lockstep.Mirror.Submit | engine/cpp/src/order_book.cpp:126-160 | fed the same order, both books report the same trades, status and resting flag, each returned, and stand for the same book again |
| Lockstep.Mirror.Cancel | engine/cpp/src/order_book.cpp:162-186 | both books cancel the same order or neither does, and stand for the same book again |
| Lockstep.Mirror.Snapshot | engine/cpp/src/order_book.cpp:188-207 | both show the same snapshot exactly when the totals and counts fit 32 bits |
| Agreement.RunsAgree | engine/core/order_book.py:163-169 | for any run without priced market orders the two crossing rules give the same reports and books |
| Agreement.PricedMarketsDiffer | engine/cpp/src/order_book.cpp:83-86 | for every priced market order there is a reachable book on which C++ trades and Python does not |
| Agreement.AgreeIffUnpriced | engine/cpp/src/order_book.cpp:83-86 | the two agree on an order in every reachable book if and only if it is not a market order with a price |
| Agreement.RowsAgreeIff | engine/cpp/include/price_level.hpp:48-49 | wrapped rows equal exact rows if and only if they fit 32 bits |
| Agreement.SweepsAgreeIff | engine/cpp/src/order_book.cpp:83-86 | on a given queue the two crossing rules make the same sweep, and the same trades, if and only if the order is no priced market order, or is filled within its price, or finds everything within its price |
| Agreement.DeliveredIff | engine/hal/cpp_hal.py:121-122 | a C++ snapshot reaches the service unchanged if and only if its rows and its sequence fit 32 bits |
| Backends.AnsweredAlikeIff | engine/hal/cpp_hal.py:73-152 | two engines in step answer one call alike if and only if the call is safe, and are then in step again |
| Backends.EnginesAgreeIff | engine/cpp/src/matching_engine.cpp:18-83 | over all instruments and any calls, rejected ones too, the service sees the same replies from both engines if and only if every call is safe when it is made, and they then end in step |
| Backends.NewEnginesAgreeIff | engine/core/matching_engine.py:126-227 | the same from two new engines |
| Backends.HarmlessAlwaysIff | engine/cpp/src/order_book.cpp:83-86 | an order is harmless in every engine that safe calls can reach if and only if it is not a valid market order that buys at a price or sells at a positive one |
| BookRuns.Reachable | engine/core/order_book.py:143-295 | in every reachable book resting orders are live limit orders in price and arrival order, ids are distinct across both sides, and the sides do not cross |
| BookRuns.NeverCrossed | engine/core/order_book.py:208-266 | best bid below best ask in every reachable book |
| BookRuns.PriceTimePriority | engine/core/order_book.py:186-241 | after any run, whoever stands ahead of a traded maker by price or arrival was filled completely by an earlier trade of the same submission and is gone |
| BookRuns.CancelIffResting | engine/core/order_book.py:270-295 | in every reachable book a cancellation succeeds exactly on a resting id, removes that id alone, and does not succeed twice |
| DepthTheory.LevelsTellAll | engine/core/order_book.py:297-312 | the levels of a sorted queue are one per price, best first, with the exact volume and number of its orders |
| DepthTheory.SnapshotsTellTheTruth | engine/core/order_book.py:297-312 | every snapshot of every reachable book is sorted, uncrossed, at most as deep as asked, shows the best price and leaves out nothing as good as a row shown, is numbered by the submissions, and shows each volume and count truthfully, in C++ modulo 2^32 |
| PyEngine.MatchingEngine.RegisterSymbol | engine/core/matching_engine.py:126-129 | a new book opens only for a new symbol; every other book and order is as before |
| PyEngine.MatchingEngine.Check | engine/core/matching_engine.py:248-258 | the first failing check decides the reason |
| PyEngine.MatchingEngine.SubmitOrder | engine/core/matching_engine.py:137-198 | the class with its aliased order objects refines the abstract engine: books, order map, counters and the whole outcome; an object that is already in the order map is refused and marked wherever it is |
| PyEngine.MatchingEngine.CancelOrder | engine/core/matching_engine.py:200-227 | the same for cancellations |
| NativeEngine.MatchingEngineFacade.RegisterSymbol | engine/cpp/src/matching_engine.cpp:18-25 | a book opens for a new symbol of one to six characters; anything longer or empty is refused |
| NativeEngine.MatchingEngineFacade.Submit | engine/cpp/src/matching_engine.cpp:27-69 | the facade copies the order to a node it owns for good and refines the abstract engine with C++'s crossing rule and 32-bit snapshot |
| NativeEngine.MatchingEngineFacade.CancelOrder | engine/cpp/src/matching_engine.cpp:71-83 | cancellations refine the abstract engine |
| NativeEngine.MatchingEngineFacade.GetOrder | engine/cpp/src/matching_engine.cpp:85-88 | every order ever admitted is found, in its present state |
| NativeEngine.MatchingEngineFacade.TakeSnapshot | engine/cpp/src/matching_engine.cpp:90-95 | the book's picture in 32-bit totals, or none without a book |
| EngineRuns.PlayedGood | engine/core/matching_engine.py:137-227 | over any calls the order map, the books, the trade log and the counters stay consistent with each other |
| Reports.StatusesTell | engine/core/order_book.py:243-266 | after any run, exactly which status each admitted order has: filled if and only if its quantity is filled; a market order partly filled or pending by its fill and never cancelled; a limit order cancelled if and only if something is left and it is immediate-or-cancel, fill-or-kill or was withdrawn, and else open or partly filled |
| Reports.WithdrawnWasAsked | engine/core/matching_engine.py:200-227 | only orders whose cancellation was called are withdrawn |
| Reports.ReportTells | engine/core/matching_engine.py:137-198 | after any run, what a submission reports: which refusal applies, in the order of the checks; which event goes with which outcome; status, fill and whether it rests; every trade at its maker's price, within the order's limit, against an order resting on the other side; and the book's ten best levels a side |
| Reports.SeenReportTells | engine/hal/cpp_hal.py:80-131 | the same of what the caller of the C++ engine sees |
| Counters.CountersTell | engine/core/matching_engine.py:158-215 | after any run, what each counter counts: submissions, refusals, orders that traded on arrival, orders withdrawn while resting, and the resting orders together with those that rested until they were filled |
| Conservation.FillsBalance | engine/core/matching_engine.py:170-175 | after any calls filled buys, filled sells, the volume counter and the sum of all trades are equal, and the trade counter is the number of trades |
| Conservation.NothingLost | engine/core/matching_engine.py:165-175 | after any calls, per instrument, quantity accepted is quantity filled plus quantity resting plus what was cancelled or left by market, immediate-or-cancel and fill-or-kill orders |
| Conservation.RestsIff | engine/core/order_book.py:243-266 | an order rests, on one side and in its present state, exactly when its status and type say so |
| Conservation.CancelSucceedsIff | engine/core/matching_engine.py:200-227 | after any calls a cancellation succeeds exactly on orders that rest, and reports them cancelled |
| Conservation.ResubmissionHidesIff | engine/core/matching_engine.py:152-165 | after any calls, an order object submitted again is marked rejected but still rests if it did, so its status tells whether it can be cancelled if and only if it did not rest |
| HalCache.CppMatchingHAL.RegisterSymbol | engine/hal/cpp_hal.py:73-78 | symbols that do not fit the wire are refused; the list names exactly the native books |
| HalCache.CppMatchingHAL.SubmitOrder | engine/hal/cpp_hal.py:80-131 | afterwards every cached order has its native order's status and fill, and the caller and the event show the native outcome: trades under the order's own symbol, reason, kind of event and the snapshot as its frame carries it; a quantity that does not fit the frame changes nothing |
| HalCache.CppMatchingHAL.RefreshMakers | engine/hal/cpp_hal.py:110-111 | refreshing only the makers named in the trades brings the whole cache up to date |
| HalCache.CppMatchingHAL.CancelOrder | engine/hal/cpp_hal.py:133-152 | the cancelled order, and no other, follows the native one, and the event shows the book of its symbol |
| HalCache.CppMatchingHAL.GetOrder | engine/hal/cpp_hal.py:158-168 | looking up returns the cached object and changes nothing, since it was already up to date |
| BookStream.Changes | api/services/book_stream_service.py:48-65 | the changes name every price that differs, once, with its new row or with quantity 0 |
| BookStream.BookDeltaProjector.Project | api/services/book_stream_service.py:32-46 | a snapshot message the first time, then the diff against the last snapshot projected |
| BookStream.ApplyChanges | frontend/src/hooks/useMarketData.ts:60-70 | the loop over set and delete is the fold of the changes |
| BookStream.ApplyDelta | frontend/src/hooks/useMarketData.ts:59-81 | both sides patched and the sequence taken over |
| BookStream.PatchIffNoEmptyRow | api/services/book_stream_service.py:48-65 | patching the old rows with any diff of them gives the new rows if and only if no new or changed row is empty |
| BookStream.DeltaIffNoEmptyRows | frontend/src/hooks/useMarketData.ts:145-152 | one delta passes the sequence guard and reproduces the next snapshot under exactly that condition |
| BookStream.StreamReplays | frontend/src/hooks/useMarketData.ts:142-152 | if no snapshot has a new or changed empty row, a client of all messages shows the last one |
| BookStream.StreamReplaysIff | frontend/src/hooks/useMarketData.ts:142-152 | a client of all messages shows every snapshot in its turn if and only if none has a new or changed empty row |
| BookStream.LateJoinerConverges | frontend/src/hooks/useMarketData.ts:145-152 | if no snapshot has a new or changed empty row and sequences never fall, a client with any baseline, fed from any delta at or before it, shows every later snapshot after its delta, even when sequence numbers repeat |
| BookStream.LateJoinersConvergeIff | frontend/src/hooks/useMarketData.ts:145-152 | if sequences never fall, late joiners converge from every baseline and every delta if and only if no snapshot has a new or changed empty row |
| MarketData.PictureTrue | engine/core/order_book.py:297-312 | what a client that shows a snapshot knows of the book at that moment: volumes and counts, modulo 2^32 from C++, and nothing missing below the depth |
| MarketData.NeverEmptyIff | engine/cpp/src/order_book.cpp:188-207 | snapshots sampled along any run have no new or changed empty row if and only if no new or changed level shown has a volume that the book shows as 0; in Python they never do |
| MarketData.DashboardConvergesIff | api/services/book_stream_service.py:32-65 | for snapshots sampled anywhere along any run of either book, the full stream replays, and late joiners converge as long as C++ sequences fit 32 bits, if and only if no level vanishes between two of them |
| MarketData.DashboardConverges | api/services/book_stream_service.py:32-65 | over the Python book both the full stream and the late joiner converge without further conditions |
| MarketData.VanishingLevel | engine/cpp/include/price_level.hpp:59-67 | two admissible orders of 2^31 at one price rest in the C++ book, which shows their level with volume 0, and any delta makes the client drop it |
| Ledger.StrategyLedger.OnFill | strategy/base.py:68-94 | realised profit minus average times position is minus the cash paid out; total profit is cash plus the position at the mark; the average is 0 when flat, moves only when the position grows or flips, and stays between the prices paid |
| Ledger.StrategyLedger.MarkToMarket | strategy/base.py:96-100 | total profit is cash plus the position at the new mark |
| Runtime.StrategyRuntime.PublishResult | api/services/order_service.py:84-125 | trades reach the queue in order and before the book; once the queue is full the rest is dropped and counted |
| Runtime.StrategyRuntime.RegisterSymbol | api/main.py:233-235 | the exchange opens a book for an instrument, with everything the runtime keeps left sound |
| Runtime.StrategyRuntime.AddStrategy | strategy/runtime.py:59-68 | a strategy joins under a new name only, stopped and flat |
| Runtime.StrategyRuntime.StopStrategy | strategy/runtime.py:73-76 | afterwards none of the strategy's orders is working, exactly the orders it had open were withdrawn, each announced, and the last updates show the books as they now are |
| Runtime.StrategyRuntime.EngageKillSwitch | strategy/runtime.py:78-82 | one strategy, or all of them, stopped with no order left working; the others untouched |
| Runtime.StrategyRuntime.CancelOpenOrders | strategy/runtime.py:182-185 | cancelling what is tracked as open, one by one, leaves nothing of the strategy working, and every cancellation is announced |
| Runtime.StrategyRuntime.SubmitOne | strategy/runtime.py:162-180 | an order goes out if and only if the strategy runs, the order is its own and for its instrument, and the guard lets it pass; it is owned and tracked before it does, and engine and queue are then what the exchange makes of it |
| Runtime.StrategyRuntime.SubmitProposals | strategy/runtime.py:162-180 | exactly the acceptable proposals go out, in order, each under a new id; every order newly owned is that of a proposal the guard let pass, and if it lets none pass nothing changes |
| Runtime.StrategyRuntime.Answer | strategy/runtime.py:128-139 | replacing quotes first withdraws every open order, then the acceptable proposals go out; an answer that raises stops the strategy and withdraws them only |
| Runtime.StrategyRuntime.BookFill | strategy/runtime.py:145-151 | one side of a trade moves the owner's position by its signed quantity, and the order stops counting as open exactly if it is no longer active |
| Runtime.StrategyRuntime.ProcessEvent | strategy/runtime.py:97-160 | one event is consumed and its trade booked on both sides; then exactly the running strategies of its instrument are called in turn, each with the engine as the ones before it left it, and engine, owners and queue are exactly what their answers make of them; every order newly owned is that of a proposal, let pass by the guard, of the strategy that owns it; the raising ones are stopped |
| Runtime.SubmissionTold | api/services/order_service.py:63-125 | with room, a submission that is admitted announces its trades in order and then its book, and one that is refused announces none |
| Runtime.CancelAnnounces | engine/core/matching_engine.py:210-225 | a cancellation that finds its order announces the book without it, one update if there is room and one drop if not; any other cancellation changes nothing |
| Runtime.LastUpdateTells | api/services/order_service.py:118-125 | without drops, in every reachable state the last update published for an instrument shows the ten best levels a side of its book as it is |
| Runtime.OfferedTells | shared/events.py:147-153 | a bounded queue takes what it has room for, trades before the book, and not one event less |
| Runtime.NothingPassesNothingSent | strategy/runtime.py:162-180 | where the guard lets no proposal pass, an event leads to withdrawals of open orders and to nothing else |
| Runtime.OwnedBalance | strategy/runtime.py:141-151 | what all trades say of a strategy, self-crosses counted twice, is what the engine has filled of its orders |
| Runtime.PositionsAgree | strategy/runtime.py:141-180 | without drops, in every reachable state position plus the trades still queued is the signed filled quantity of the strategy's orders |
| Runtime.KillSwitchIsComplete | strategy/runtime.py:73-76 | in every reachable state no order of a strategy that is not running rests in any book |
| Runtime.RestingIsTracked | strategy/runtime.py:172-185 | every resting order of a strategy is among its open orders |
| Runtime.OneQuoteASide | strategy/runtime.py:137-139 | in every reachable state a market maker has at most one bid and one ask in the books |
| TradingDay.Day | strategy/runtime.py:97-180 | such states include one in which a running market maker has traded, holds a position and has a bid in the book |
| MarketMaker.SimpleMarketMaker.OnBookUpdate | strategy/examples/market_maker.py:65-109 | quiet exactly when it does not run, there is no mid, or the mid is less than the threshold away, up or down, from the last one quoted; else a good-till-cancelled limit order of the quote size on each side the position allows, no bid at or above the limit and no ask at or below minus the limit, around the inventory-adjusted mid |
| MarketMaker.SimpleMarketMaker.RequoteOnMove | strategy/examples/market_maker.py:72-76 | after quoting one mid, the next is answered if and only if it has moved by the threshold or more in either direction |
| MarketMaker.SimpleMarketMaker.OnTrade | strategy/examples/market_maker.py:111-115 | prints are not answered |
| MarketMaker.SimpleMarketMaker.OnFill | strategy/examples/market_maker.py:119-120 | after a fill every mid is news |
| MarketMaker.SkewLeans | strategy/examples/market_maker.py:77-80 | a longer inventory lowers both quotes in proportion, by the whole skew at the limit |
| EventBus.Subscription.PutNowait | shared/events.py:147-153 | a bounded first-in first-out queue: what was taken and what waits is what was offered, less the events counted as dropped |
| EventBus.Bus.Subscribe | shared/events.py:126-140 | the new queue is offered every later event of its types |
| EventBus.Bus.PublishNowait | shared/events.py:142-153 | every subscriber of the type is offered the event, and full queues alone drop it |
| EventBus.NothingMissingIff | shared/events.py:147-153 | nothing is missing if and only if nothing was counted as dropped |
| SpscRing.MaskIsRemainder | engine/core/ring_buffer.py:105-109 | masking with one less than a power of two is the remainder |
| SpscRing.MaskWorksIff | engine/core/ring_buffer.py:105-109 | it is so for every counter only when the capacity is a power of two |
| SpscRing.SPSCRingBuffer.constructor | engine/core/ring_buffer.py:103-124 | the capacity is the least power of two that is at least 2 and large enough |
| SpscRing.SPSCRingBuffer.Put | engine/core/ring_buffer.py:128-151 | the item is appended unless the ring is full; the ring stays sound if and only if the item fills its slot |
| SpscRing.SPSCRingBuffer.Get | engine/core/ring_buffer.py:159-180 | the oldest item is taken out |
| SpscRing.SPSCRingBuffer.Peek | engine/core/ring_buffer.py:182-194 | the oldest item is shown |
| SpscRing.BinaryEventRing.PutFrame | engine/core/ring_buffer.py:241-244 | a tagged frame is appended, with the same condition on its length |
| SpscRing.BinaryEventRing.GetFrame | engine/core/ring_buffer.py:246-251 | the oldest tag and frame come out together |
| SpscRing.EveryInterleavingIsFifo | engine/core/ring_buffer.py:128-180 | for every interleaving of the steps of one producer and one consumer, down to single bytes copied, what was got is a prefix of what was accepted, the counters stay within the capacity, and no slot is read while it is written |
| SpscRing.NeverStuck | engine/core/ring_buffer.py:128-180 | in every reachable state a thread past its check has a next step, whatever the other does |
| Bytes.WriteU32 | engine/cpp/include/wire_codec.hpp:48-52 | the four low bytes, most significant first, and nothing else changed |
| Bytes.WriteU64 | engine/cpp/include/wire_codec.hpp:54-58 | the same for eight bytes |
| Bytes.ReadU32 | engine/cpp/include/wire_codec.hpp:28-33 | the value of four bytes |
| Bytes.ReadU64 | engine/cpp/include/wire_codec.hpp:35-41 | the value of eight bytes |
| Bytes.NumBig | engine/cpp/include/wire_codec.hpp:28-58 | reading back what was written gives the value if it fits |
| Bytes.BigNum | engine/cpp/include/wire_codec.hpp:28-58 | writing what was read gives the same bytes |
| Bytes.BigWraps | engine/cpp/include/wire_codec.hpp:43-58 | a value too wide is written as its remainder |
| OrderCodec.BytesOfOrder | engine/core/binary_protocol.py:102-143 | every byte of an encoded order, with the code of each side, type, time in force and status |
| OrderCodec.EncodeInto | engine/core/binary_protocol.py:214-236 | the frame is packed in its place in the buffer, or nothing is written |
| OrderCodec.RoundTrip | engine/core/binary_protocol.py:197-259 | decoding an encoded order gives the order with its symbol and price in canonical form and the six fields without a place on the wire unset |
| OrderCodec.LosslessIff | engine/core/binary_protocol.py:160-259 | nothing is lost if and only if the symbol has at most six characters and no trailing NUL, the price is no zero, and none of the six fields without a place on the wire is set |
| OrderCodec.SymbolSurvivesIff | engine/core/binary_protocol.py:160-168 | which symbols come back as they were |
| OrderCodec.EncodeOrder | engine/cpp/include/wire_codec.hpp:85-99 | writing by offset into a zeroed buffer gives the layout both sides share |
| OrderCodec.DecodeOrder | engine/cpp/include/wire_codec.hpp:68-83 | frames of the exact size are read field by field, others refused |
| OrderCodec.NativeAgrees | engine/cpp/include/wire_codec.hpp:68-99 | C++ reads every Python frame to its wire fields and writes those as the same frame |
| OrderCodec.FrameUnframeIff | engine/cpp/include/wire_codec.hpp:68-99 | decoding and encoding reproduce any 64 bytes if and only if the reserved ones are zero |
| SnapshotCodec.EncodeSnapshot | engine/core/binary_protocol.py:334-352 | the loops write header and levels, or fail when any field does not fit |
| SnapshotCodec.DecodeSnapshot | engine/core/binary_protocol.py:354-382 | the loops read every level behind the header, or fail when the frame is short |
| SnapshotCodec.NativeEncode | engine/cpp/include/wire_codec.hpp:131-152 | C++ writes the same layout, cutting what does not fit |
| SnapshotCodec.RoundTrip | engine/core/binary_protocol.py:334-386 | a snapshot with any number of levels comes back, whatever bytes follow it |
| SnapshotCodec.NativeSurvivesIff | engine/cpp/include/wire_codec.hpp:131-152 | a C++ frame decodes in Python to what C++ had if and only if its counts and sequence fit their fields |
| SnapshotCodec.NativeDecodes | engine/cpp/include/wire_codec.hpp:131-152 | as long as the counts fit, everything arrives but the high bits of the sequence |
| SnapshotCodec.CutFrameRefused | engine/core/binary_protocol.py:359-364 | a frame cut anywhere is refused |
| SnapshotCodec.SameBytesIff | engine/cpp/include/wire_codec.hpp:131-152 | both languages write the same bytes if and only if every field is the same |
| ResultCodec.DecodeResult | engine/core/binary_protocol.py:417-431 | the loop reads every trade, or fails on a short frame or an unknown code |
| ResultCodec.TotalFilled | engine/cpp/include/order_book.hpp:60-64 | the 32-bit sum is the total modulo 2^32 |
| ResultCodec.NativeEncode | engine/cpp/include/wire_codec.hpp:108-129 | C++ writes the shared layout with ids made of time and sequence |
| ResultCodec.RoundTrip | engine/core/binary_protocol.py:267-302 | Python's encoding comes back except for the takers, with sequence 0 |
| ResultCodec.NativeSurvivesIff | engine/cpp/include/wire_codec.hpp:108-129 | all trades of a C++ result come through if and only if the 16-bit count holds their number |
| ResultCodec.NativeIdsDistinct | engine/cpp/include/wire_codec.hpp:101-106 | wire ids are equal if and only if time and sequence are |
| ResultCodec.TradeBytesIff | engine/core/binary_protocol.py:148-149 | a trade frame determines every field |
| ResultCodec.SameBytesIff | engine/cpp/include/wire_codec.hpp:101-129 | Python and C++ write a result as the same bytes if and only if status, resting flag and every field of every trade agree, C++ numbers each trade 0, and Python's id of it is its time followed by 0 |
| ResultCodec.SameBytesOnlyWithoutTrades | engine/cpp/src/order_book.cpp:98-106 | since C++ numbers trades from 1 and Python writes 0, the bytes agree if and only if there is no trade and status and resting flag agree |

## Left out

- Fill-or-kill atomicity: the code calls its path simplified; what is proved is that a fill-or-kill residual never rests.
- Timestamps, latency percentiles, average fill prices, the trade tape and event callbacks that raise: no decision of the core depends on them.
- Floating point: books and ledger compute over reals, so rounding is not modelled; the codecs carry 64-bit words unchanged.
- 64-bit wrap-around of sequences, trade sequences, ring counters and statistics: they are unbounded here. The C++ volume counter adds 32-bit totals that cannot exceed one order's 32-bit quantity.
- Runs in which an order object is submitted again, or one that is already partly filled: orders submitted along a run are new, with nothing filled and status pending. What a second submission does to the Python engine is in PyEngine.MatchingEngine.SubmitOrder and Conservation.ResubmissionHidesIff.
- UUID text and generation: ids are compared only; a malformed id is not modelled. New ids are assumed not to have been used.
- Non-ASCII and NUL-containing symbols outside the codecs: symbols are plain strings there.
- NaN prices and prices past the range of the books' sorted keys.
- The risk guard's arithmetic: whether a proposal passes is an arbitrary input, since the guard ignores open quantity and queued fills.
- Strategy state inside the runtime: only running flag and position; marking to market, counters of rejections and the reason of a stop are not there. The ledger is modelled by itself.
- Recorded-event replay, the asynchronous run loop and publishing that waits: events are taken one at a time.
- HalCache.CppMatchingHAL.SubmitOrder: the native engine is the abstract engine value that NativeEngine.MatchingEngineFacade is proved to implement, not a second object; the byte-level path that bypasses the cache and the second submission of a cached object are not there.
- PyEngine.MatchingEngine.SubmitOrder: the event is part of the returned outcome instead of a callback.
- BookStream.Changes: deletions come in an arbitrary order, as from a set difference; no theorem depends on it.
- BookStream.LateJoinerConverges: clients follow one instrument; the reducer does not look at the message's symbol.
- NativeEngine.MatchingEngineFacade.Submit: frames whose filled quantity exceeds the quantity, which C++ accepts and whose remaining quantity then wraps around, are not modelled.
- EventBus.Bus.Subscribe: event types are given as a set, so none is subscribed to twice in one call.
- ResultCodec.DecodeResult: which of several errors is reported first is not modelled.
- Gaps after drops: what a client shows between a gap and its next snapshot is not claimed.
- Routers, WebSocket fan-out, schemas, persistence, user interface, the FPGA stub and the market simulators: input and output, or foreign calls.
