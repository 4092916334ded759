# A verified model of a crypto trading pipeline

This project models the computational core of a small crypto-currency trading bot in Dafny. The bot is written in Rust, with one Python post-processing script. The model covers:

- **Okex order books** (`src/exchange/okex.rs`).
  - Each pair keeps an ask book sorted ascending and a bid book sorted descending.
  - A depth update at a price either replaces that level, removes it (amount ≤ 0) or inserts a new level at its sorted position.
  - The first snapshot for a pair is stored as it is; later snapshots are applied level by level.
  - Size increments are counted as decimal places.
  - Instrument subscriptions are split into messages of 100 instruments each.
- **Simulated exchange** (`src/exchange/simulation.rs`).
  - It builds a price table keyed by correlation id from its event stream.
  - It fills market orders at the looked-up price after deducting the fee, and overwrites both holdings.
- **Mock exchange** (`src/exchange/mod.rs`): it records every order placed on it.
- **Trader** (`src/exchange/trade.rs`).
  - It turns a Buy or Sell signal into one market order for the whole available balance.
  - It reports the fill as a Bought or Sold event.
- **Crossover strategies** (`src/strategy/simple_crossover.rs` and its older twin `src/processors/simple_crossover.rs`): they emit Buy or Sell when the live price strictly crosses the latest average.
- **Exponential moving average with a warm-up counter** (`src/strategy/sliding_average.rs`).
- **Time-window mean**, kept by the sliding-average aggregator (`src/processors/sliding_average.rs`) and by the preprocessor (`src/preprocessor/sliding_average.rs`).
  - Each live price is pushed onto a buffer.
  - Points older than the window are dropped in place.
  - The mean of what remains is emitted when more than one point is buffered.
- **Pipeline stage loops** (`src/processors/mod.rs`, `src/messaging/processor.rs` and the loop of `src/preprocessor/sliding_average.rs`).
  - They read messages until a Shutdown.
  - For each message they forward it (unless the stage is a filter) and then send what the aggregator or actor produced.
  - The messaging variant stops at the first actor error.
- **Windowed averager** (`averaging_data.py`).
  - It splits candle records into consecutive windows of 5.
  - It keeps each window's last record, with its `close` overwritten by the window's sum of closes divided by 5.

Each stateful object of the source is a Dafny `class` whose methods update its fields. Each method is proved against a specification function: `Place`, `ActOutcome`, `ActOn`, `Aggregated`, `Run`, `ApplyAll`, `Updated` or `AveragedCloses`. The properties the source promises are proved as lemmas about those functions.

Prices, amounts and fees are `real`. Channels are an input sequence and an output sequence. An aggregator or actor is a state-transition function over its own state.

Modules:

| file | modules |
|---|---|
| `common.dfy` | `Common` (Option, Result, ids) |
| `chunking.dfy` | `Chunking` (the `chunks` slicing shared by the subscription chunker and the averager) |
| `messaging.dfy` | `Messaging` (`src/messaging/message.rs` plus the Bought/Sold fills), `Messages` (the older message enum) |
| `exchange.dfy` | `Exchange` (`src/exchange/mod.rs`), `ExchangeApi` (the newer exchange types used by the simulation and the trader) |
| `okex.dfy` | `Okex` |
| `simulation.dfy` | `Simulation` |
| `trade.dfy` | `Trade` |
| `crossover.dfy` | `CrossoverRule`, `StrategyCrossover`, `ProcessorCrossover` |
| `ema.dfy` | `StrategySlidingAverage` |
| `price_window.dfy` | `PriceWindow`, `ProcessorSlidingAverage` |
| `processors.dfy` | `Processors` |
| `messaging_processor.dfy` | `MessagingProcessor` |
| `preprocessor.dfy` | `Preprocessor` |
| `averaging_data.dfy` | `AveragingData` |

## Model

| member | source | states |
|---|---|---|
| Okex.SizeIncrement | src/exchange/okex.rs:58-65 | A string without '.' gives 0. Any result lies between 0 and 127, the `i8` range. An error arises only when there is a '.' (the `i8` conversion failing). |
| Okex.SizeIncrementDecimals | src/exchange/okex.rs:58-65 | For an integer part without '.' followed by '.' and a fraction: the result is the number of characters of the fraction, or the conversion error once that exceeds 127. |
| Okex.SizeIncrementExamples | src/exchange/okex.rs:397-403 | "0.001" gives 3, "1" and "10" give 0, "0.01" gives 2. |
| Okex.Compare | src/exchange/okex.rs:306-314 | The comparator of the two books: Less exactly when the level is ahead of the price in the book's order (ascending for asks, descending for bids), Greater when behind, Equal when the prices match. |
| Okex.BinarySearch | src/exchange/okex.rs:306-314 | `binary_search_by`: Found points at a level with exactly the price. On a sorted book, Missing points at the insertion point: every level before it is ahead of the price and every level from it on is behind. |
| Okex.AddToOrders | src/exchange/okex.rs:316-332 | Found with amount > 0 replaces the level in place; found with amount ≤ 0 removes it; missing with amount > 0 inserts at the position; missing with amount ≤ 0 leaves the book unchanged. |
| Okex.AddToBook | src/exchange/okex.rs:306-332 | On a strictly sorted book, the in-place update equals the reference definition `Updated` (remove the price, then insert the level if its amount is positive). |
| Okex.AddToAskOrders | src/exchange/okex.rs:306-309 | On a strictly ascending ask book, the result is `Updated(book, order, ascending)`. |
| Okex.AddToBidOrders | src/exchange/okex.rs:311-314 | On a strictly descending bid book, the result is `Updated(book, order, descending)`. |
| Okex.UpdatedMembers | src/exchange/okex.rs:316-332 | After an update, the book holds exactly the levels at other prices, plus the new level when its amount is positive. |
| Okex.ReplaceLevel | src/exchange/okex.rs:320-324 | An update at an existing price replaces that level at the same index, so the length is unchanged, when amount > 0. It removes the level when amount ≤ 0. |
| Okex.InsertLevel | src/exchange/okex.rs:326-330 | An update at a new price lands between the levels ahead of it and those behind it (length + 1) when amount > 0, and leaves the book unchanged otherwise. |
| Okex.UpdatedKeepsSorted | src/exchange/okex.rs:306-332 | An update keeps a strictly sorted book strictly sorted, in either direction. |
| Okex.UpdatedKeepsOtherLevels | src/exchange/okex.rs:316-332 | Leaving out the updated price, the book before and after is the same sequence: every other level keeps its amount and its relative order. |
| Okex.WithoutKeepsSorted | src/exchange/okex.rs:320-322 | Removing a price level keeps a strictly sorted book strictly sorted. |
| Okex.InsertKeepsSorted | src/exchange/okex.rs:326-328 | Inserting a level whose price is not yet in the book at its sorted position keeps the book strictly sorted. |
| Okex.ApplyAllKeepsSorted | src/exchange/okex.rs:291-296 | Applying a whole snapshot level by level keeps a strictly sorted book strictly sorted. |
| Okex.PairStore.constructor | src/exchange/okex.rs:102 | The intermediate store starts empty (and therefore well-formed). |
| Okex.PairStore.CreateUpdatedPair | src/exchange/okex.rs:284-304 | The returned pair is stored under its id. A first snapshot is stored as given. Later snapshots keep the stored id, and for well-formed books are applied level by level (bids descending, asks ascending). A well-formed store stays well-formed. |
| Okex.SubscriptionArgs | src/exchange/okex.rs:373-384 | One argument per instrument, "spot/depth:" followed by its id, in input order. |
| Okex.ToSubscriptionMessage | src/exchange/okex.rs:373-384 | The number of messages is the ceiling of n/100. |
| Okex.SubscriptionMessageAt | src/exchange/okex.rs:373-384 | Message k is the subscribe message for instruments 100k up to min(100k+100, n). |
| Okex.SubscriptionArgsInOrder | src/exchange/okex.rs:373-384 | The arguments of all the chunks, concatenated, are the arguments of all the instruments in input order. |
| Okex.SubscriptionMessageExample | src/exchange/okex.rs:417-425 | Two instruments give the single subscribe message of the test. |
| Chunking.Chunks | averaging_data.py:4-7 | There are no chunks exactly when the input is empty. Every chunk has between 1 and n elements, and all but the last have exactly n. |
| Chunking.ChunkBounds | averaging_data.py:6-7 | With c chunks, (c-1)·n < len ≤ c·n, so c is the ceiling of len/n. |
| Chunking.FlattenChunks | averaging_data.py:6-7 | Concatenating the chunks gives back the input. |
| Chunking.ChunkAt | averaging_data.py:6-7 | Chunk k is the slice from k·n to min(k·n+n, len). |
| Chunking.ChunksDisjoint | averaging_data.py:6-7 | Different chunks of a sequence without repeated elements share no element. |
| Exchange.MockExchange.constructor | src/exchange/mod.rs:79-85 | A new mock holds the given assets and has no recorded orders. |
| Exchange.MockExchange.PlaceMarketOrder | src/exchange/mod.rs:93-96 | It always succeeds and appends exactly the order to the end of the record. It changes nothing else, so the assets are unchanged. |
| Exchange.MockExchange.FetchAssets | src/exchange/mod.rs:98-100 | It returns exactly the assets given at construction. |
| Messaging.WithData | src/messaging/message.rs:56-65 | The message carries the data, with default (nil) correlation and causation ids. |
| Simulation.PriceTableDomain | src/exchange/simulation.rs:19-25 | An id is in the price table exactly when some live-price event carries it as correlation id; other message kinds add nothing. |
| Simulation.PriceTableLastWins | src/exchange/simulation.rs:19-25 | The price stored for an id is that of the last live-price event with that id. |
| Simulation.Holdings | src/exchange/simulation.rs:47-72 | After a Buy: USDT 0 and BTC holding the amount. After a Sell: USDT holding the amount and BTC 0. |
| Simulation.Place | src/exchange/simulation.rs:41-73 | It fails exactly when the correlation id has no price, and then leaves the holdings. A Buy returns amount·(1−fee)·price. A Sell returns amount·(1−fee)/price when the price is positive and 0 otherwise. Both holdings are overwritten with the returned amount. |
| Simulation.BuyThenSell | src/exchange/simulation.rs:41-73 | Buying with q and then selling everything at the same positive price returns q·(1−fee)², held as USDT. |
| Simulation.SimulatedExchange.constructor | src/exchange/simulation.rs:19-32 | The loop over the events builds exactly the price table `PriceTable(events)`, and keeps the events, assets and options. |
| Simulation.SimulatedExchange.EventStream | src/exchange/simulation.rs:37-39 | It returns the constructor's events unchanged and in order. |
| Simulation.SimulatedExchange.FetchAssets | src/exchange/simulation.rs:75-77 | It returns the current holdings and changes nothing. |
| Simulation.SimulatedExchange.PlaceMarketOrder | src/exchange/simulation.rs:41-73 | The result and the new holdings are those `Place` specifies for the price table, the fee and the old holdings. |
| Trade.OrderFor | src/exchange/trade.rs:68-76 | An order exists exactly when the asset is present with a positive amount. It spends that whole amount, with the given type and correlation id, base "BTC" and quote "USDT". |
| Trade.Report | src/exchange/trade.rs:77-90 | A Buy reports Bought and a Sell reports Sold, carrying the exchange's amount and the order's quote and base. |
| Trade.ActOutcome | src/exchange/trade.rs:31-56 | Messages other than Buy and Sell produce nothing and leave the holdings. At most one event is produced. |
| Trade.NothingToSpend | src/exchange/trade.rs:59-94 | On a Buy or Sell whose asset is missing or not positive, no order is placed and the output is empty. |
| Trade.BuySpendsQuote | src/exchange/trade.rs:33-41 | A Buy with positive USDT spends all of it at the id's price. It reports one Bought with the converted amount and leaves the holdings a Buy produces. |
| Trade.SellSpendsBase | src/exchange/trade.rs:43-51 | A Sell with positive BTC spends all of it. It reports one Sold with the USDT amount (amount·price = base·(1−fee) at a positive price) and leaves the holdings a Sell produces. |
| Trade.UnknownCorrelationFails | src/exchange/trade.rs:77 | An order whose correlation id has no price fails, and the error is propagated. |
| Trade.Execute | src/exchange/trade.rs:59-94 | Its result and the exchange's new holdings are `ExecuteOutcome` of the old holdings. |
| Trade.Trader.constructor | src/exchange/trade.rs:21-23 | The trader acts on the given exchange. |
| Trade.Trader.Act | src/exchange/trade.rs:31-56 | Its result and the exchange's new holdings are `ActOutcome` of the old holdings and the message. |
| CrossoverRule.Crossing | src/strategy/simple_crossover.rs:25-38 | Buy exactly when both a previous live price and an average are known and previous < average < new price. Sell exactly when new price < average < previous. Nothing otherwise, including touching the average. |
| CrossoverRule.NextSignal | src/strategy/simple_crossover.rs:25-38 | With the average fixed and off every price, the first signal is Sell when the live price starts above the average and Buy when it starts below. |
| CrossoverRule.SignalsAlternate | src/strategy/simple_crossover.rs:25-39 | With the average fixed and no price touching it, consecutive signals alternate between Buy and Sell. |
| StrategyCrossover.SignalData | src/strategy/simple_crossover.rs:29-35 | At most one message: [Buy] exactly for a Buy crossing, [Sell] exactly for a Sell crossing. |
| StrategyCrossover.SimpleCrossover.constructor | src/strategy/simple_crossover.rs:12-18 | Neither a live price nor an average is known. |
| StrategyCrossover.SimpleCrossover.Act | src/strategy/simple_crossover.rs:22-49 | A live price emits the crossing against the previous state and becomes the latest live price. An average is stored and emits nothing. Any other message emits nothing and changes nothing. |
| ProcessorCrossover.SignalMessages | src/processors/simple_crossover.rs:22-32 | At most one message: [Buy] exactly for a Buy crossing, [Sell] exactly for a Sell crossing. |
| ProcessorCrossover.SimpleCrossover.constructor | src/processors/simple_crossover.rs:11-16 | Neither a live price nor an average is known. |
| ProcessorCrossover.SimpleCrossover.Aggregate | src/processors/simple_crossover.rs:19-42 | As in the strategy: a live price emits the crossing and is stored, an average is stored silently, anything else changes nothing. |
| StrategySlidingAverage.EmaStep | src/strategy/sliding_average.rs:30-33 | The first live price seeds the average. Afterwards the step from the previous average is (p − prev)·2/(min+1). |
| StrategySlidingAverage.EmaBetween | src/strategy/sliding_average.rs:30-33 | With min ≥ 1, the new average lies between the previous average and the new price. |
| StrategySlidingAverage.ActOn | src/strategy/sliding_average.rs:27-50 | Every live price sets the average to `EmaStep` of the previous average and the price, whether or not anything is emitted. The counter grows by one while below min and then stays. At most one output, emitted exactly for a live price once the counter has reached min; it is an AveragePriceUpdated carrying the event's pair id, its datetime and the new average. A non-live message leaves the state unchanged and emits nothing. |
| StrategySlidingAverage.WarmUp | src/strategy/sliding_average.rs:35-45 | Over n live prices the counter becomes min(counted + n, min) and never exceeds min. The number of averages emitted is the count of prices beyond the warm-up. |
| StrategySlidingAverage.SlidingAverage.constructor | src/strategy/sliding_average.rs:15-22 | min is window/interval by integer division, truncated to `u16`. Without truncation, min·interval ≤ window < (min+1)·interval. |
| StrategySlidingAverage.SlidingAverage.Act | src/strategy/sliding_average.rs:27-50 | The output, the new average and the new counter are those `ActOn` specifies. The counter stays within min. |
| PriceWindow.RecentMembers | src/processors/sliding_average.rs:32-37 | A point survives `retain` exactly when it was buffered and is not older than the cutoff. |
| PriceWindow.RecentConcat | src/processors/sliding_average.rs:32-37 | `retain` on a concatenation is the concatenation of the retained parts, so the original order is kept. |
| PriceWindow.NewestKept | src/processors/sliding_average.rs:32-37 | With a non-negative window, the new buffer is the still-recent earlier points followed by the new point, so it is never empty. |
| PriceWindow.MeanBounds | src/processors/sliding_average.rs:38-42 | The mean lies between the lowest and the highest buffered price. |
| PriceWindow.AverageUpdate | src/processors/sliding_average.rs:38-49 | An average exists exactly when more than one point is buffered. It carries the event's pair id and datetime, and its price times the count is the sum of the buffered prices. |
| ProcessorSlidingAverage.AverageMessages | src/processors/sliding_average.rs:45-49 | No average gives no output; an average gives exactly one AveragePriceUpdated. |
| ProcessorSlidingAverage.Aggregated | src/processors/sliding_average.rs:29-53 | A live price slides the window. Output appears exactly for a live price with more than one buffered point, and it is that window's average. Any other message leaves the buffer and gives nothing. |
| ProcessorSlidingAverage.SlidingAverageAggregator.constructor | src/processors/sliding_average.rs:20-25 | The buffer starts empty. |
| ProcessorSlidingAverage.SlidingAverageAggregator.Aggregate | src/processors/sliding_average.rs:29-53 | The in-place push and `retain` give the buffer `Slide` specifies and the output `Aggregated` specifies. A non-live message changes nothing. |
| Processors.Processed | src/processors/mod.rs:21-35 | The handled messages are the longest prefix without a Shutdown. The message after them, if any, is a Shutdown. |
| Processors.EndsAtShutdown | src/processors/mod.rs:25 | The loop ends on a Shutdown exactly when the input holds one. |
| Processors.IgnoresAfterEnd | src/processors/mod.rs:25 | After a Shutdown, later inputs are never read. |
| Processors.RunConcat | src/processors/mod.rs:21-35 | Running over a + b is running over a and then over b from the aggregator state a left, with the outputs concatenated in order. |
| Processors.FilterDropsForwarded | src/processors/mod.rs:28-33 | A filter reaches the same aggregator state and ending, and sends exactly one message less per handled message. |
| Processors.Processor.constructor | src/processors/mod.rs:7-15 | The stage holds the filter flag, the aggregator and its state. |
| Processors.Processor.Start | src/processors/mod.rs:21-35 | The loop's output, ending and final aggregator state are `Run`'s. Per handled message that is [m] followed by aggregate(m), or only aggregate(m) when filtering. |
| MessagingProcessor.FailureStops | src/messaging/processor.rs:25 | An actor error ends the loop with that error. The output is exactly what was sent for the earlier messages, and nothing is sent for the failing one. |
| MessagingProcessor.IgnoresAfterEnd | src/messaging/processor.rs:22-25 | Once the loop has ended on a Shutdown or an error, later inputs are never read. |
| MessagingProcessor.RunConcat | src/messaging/processor.rs:20-35 | Running over a + b is running over a and then over b, with the outputs concatenated in order. |
| MessagingProcessor.FilterDropsForwarded | src/messaging/processor.rs:27-32 | A filter reaches the same actor state and ending, and sends one message less per message the actor handled. |
| MessagingProcessor.Processor.constructor | src/messaging/processor.rs:6-14 | The stage holds the filter flag, the actor and its state. |
| MessagingProcessor.Processor.Start | src/messaging/processor.rs:20-35 | The loop's output, ending (Shutdown, the actor's error, or input exhausted) and final actor state are `Run`'s. |
| Preprocessor.AverageEvents | src/preprocessor/sliding_average.rs:57-61 | The average is sent exactly when there is one. |
| Preprocessor.Handled | src/preprocessor/sliding_average.rs:40-43 | The handled events are the longest prefix without a Shutdown. |
| Preprocessor.StopsAtShutdown | src/preprocessor/sliding_average.rs:43 | A Shutdown ends the loop, is not forwarded, and nothing after it is processed. |
| Preprocessor.FilterSendsOnlyAverages | src/preprocessor/sliding_average.rs:57-67 | When filtering, only AveragePriceUpdated events are sent. |
| Preprocessor.FilterDropsForwarded | src/preprocessor/sliding_average.rs:65-67 | A filter keeps the same buffer and ending and sends exactly one event less per handled input. |
| Preprocessor.AverageBeforeForwarded | src/preprocessor/sliding_average.rs:44-67 | When not filtering, a live price's average (if the buffer holds more than one point) is sent first and the live price itself right after. |
| Preprocessor.OnlyLivePricesMoveTheWindow | src/preprocessor/sliding_average.rs:63 | Inputs that are not live prices never change the buffer. |
| Preprocessor.AgreesWithAggregatorStage | src/preprocessor/sliding_average.rs:39-69 | The filtering preprocessor sends the same messages, keeps the same buffer and ends the same way as a filtering stage of `src/processors/mod.rs` over the sliding-average aggregator. |
| Preprocessor.Processor.constructor | src/preprocessor/sliding_average.rs:24-31 | The buffer starts empty. |
| Preprocessor.Processor.Start | src/preprocessor/sliding_average.rs:39-69 | The loop's output, ending and final buffer are `Run`'s. |
| Preprocessor.Processor.Handle | src/preprocessor/sliding_average.rs:44-67 | One turn of the loop for a non-Shutdown event: the buffer and the sent events `Step` specifies. |
| AveragingData.Candle.constructor | averaging_data.py:10-12 | A record holds the given fields. |
| AveragingData.Closes | averaging_data.py:20 | The `close` fields of the records, index by index. |
| AveragingData.AveragedCloses | averaging_data.py:15-22 | One value per window, and each value times 5 is the window's sum of closes (even for a shorter final window). |
| AveragingData.MeanCloses | averaging_data.py:15-22 | The intended average: one value per window, each value times the window's length being its sum of closes. |
| AveragingData.MeanClosesBounded | averaging_data.py:15-22 | Each corrected average lies between the lowest and highest close. |
| AveragingData.WholeWindowsAgree | averaging_data.py:15-22 | When the length is a multiple of 5, the source's averages are the true means. |
| AveragingData.FullWindow | averaging_data.py:4-7 | When the length is a multiple of 5, every window holds exactly 5 records. |
| AveragingData.WholeWindowExample | averaging_data.py:15-22 | Closes 1 to 5 give one record with close 3. |
| AveragingData.ShortWindowExample | averaging_data.py:22 | Closes 1 and 2 form one short window whose close becomes 3/5 = 0.6 as written. |
| AveragingData.ShortWindowSkewed | averaging_data.py:22 | Six closes of 1.0 give 1.0 and 0.2 as written, where the true means are 1.0 and 1.0. |
| AveragingData.SumWindow | averaging_data.py:17-21 | The inner loop sums the window's closes and ends on its last record. |
| AveragingData.AverageWindow | averaging_data.py:16-23 | One outer turn: the window's last record gets close = sum/5 of the original closes. Earlier results and every record not yet chosen keep their close. |
| AveragingData.Run | averaging_data.py:14-23 | One result per window, in order. Each is that window's last record, mutated in place, with close equal to `AveragedCloses` of the original closes. Every other record keeps its close. |

## Left out

- Network and file I/O: websocket workers and channel fan-in, deflate decompression, JSON event parsing and `parse_orders`, signed REST order placement and its HMAC signature, the `reqwest` instrument fetches, the JSON read and write of `averaging_data.py`, and the whole of `fetch_history_data.py`.
- `src/view/graph.rs` (plotting), `src/tools/*` (HTTP wrapper, random ids, clock, logging) and `src/main.rs` (wiring): no logic to verify.
- `src/strategies/simple_crossover.rs`: an unconditional forwarding loop whose Shutdown arm does not stop it.
- Floating point: prices, amounts and fees are reals. f64 rounding, NaN (a mean of an empty buffer, a `partial_cmp` panic) and infinities are not modelled.
- Channels are an input and an output sequence. When the input runs out without a Shutdown, a stage stops with `InputExhausted`, where the source would block in `recv`. Send failures are not modelled.
- Two API generations coexist in the source. `Exchange` follows `src/exchange/mod.rs` (fiat/coin, `Result<()>`). `ExchangeApi` holds the quote/base types with correlation ids that `simulation.rs` and `trade.rs` use, reconstructed from those uses. `Messages` is the older message enum `src/processors/*` use, reconstructed from its uses.
- Trade.Trader.Act: the trader is modelled over the simulated exchange only, the one exchange of that API generation with a body. The mock's fixed return amounts in the trader tests are not encoded.
- Simulation.Place: the `expect("unknown correlation id")` panic is modelled as an `Err` result; nothing else changes in that case.
- Okex.SizeIncrement: counts characters, not UTF-8 bytes. The `i8` conversion panic beyond 127 decimals is an `Err` result.
- Okex.SubscriptionMessageAt: strings are quoted without Rust's Debug escaping of special characters.
- StrategySlidingAverage.SlidingAverage.constructor: requires a positive interval (the source divides by it and would panic). The `u16` truncation is modelled. The `u16` overflow of `min_price_points + 1` at 65535 is not.
- StrategySlidingAverage.EmaBetween: requires min ≥ 1. With min = 0 the step is 2·(p − prev) and overshoots.
- PriceWindow.Slide: `datetime - window` is unbounded, so the `i64` overflow is not modelled.
- Aggregators and actors are pure state-transition functions passed to the stage. After an actor error, the model keeps the state from before the failing message, because the loop returns at once.
- MessagingProcessor.Run: in `src/messaging/processor.rs` the actor returns whole `Msg`s; the loop matches Shutdown on the message's data.
- AveragingData.Run: requires the records to be distinct objects, as `json.load` produces them.

## Findings

| source | as written | input that shows it | evidently intended | confidence | as-written member | corrected member |
|---|---|---|---|---|---|---|
| averaging_data.py:22 | the final, shorter window's sum is divided by the nominal size 5 | six records with close 1.0 give closes [1.0, 0.2] | divide by the window's own length, giving [1.0, 1.0] | not executed | AveragingData.ShortWindowSkewed | AveragingData.MeanCloses |

The rest of the model keeps the source's behaviour (`AveragedCloses`, which `Run` is proved against). `WholeWindowsAgree` shows the two definitions coincide whenever the length is a multiple of 5.

`run` overwrites the `close` of each window's last record in place and divides the window's sum by `chunk_size` (averaging_data.py:21-23); `AverageWindow` and `Run` model exactly that update.
