# TT-vol-workflows, modelled in Dafny

TT-vol-workflows keeps an FX futures and futures-options inventory priced and risk-measured. This project models its core in three parts.

* **The quote streamer** (`websocket_streamer.py`):
  * the `MarketDataWebSocket` handler. It answers the dxFeed SETUP / AUTH_STATE / CHANNEL_OPENED / FEED_CONFIG handshake, appends every FEED_DATA payload and marks the tracked symbols the payload reports. It closes once all of them are reported.
  * the `MarketDataProcessor` table work: the symbol list, the 6-field COMPACT decoder with its last-wins de-duplication, the two-leg quote merge, the numeric coercion, the mid prices, and the column drop and reorder.
* **The risk run** (`risk_fx.py`): BSM price, delta and implied volatility over abstract numerics, and the `OptionDataProcessor` steps. The steps are the Future Option filter, time to expiry, IV, delta, pos_delta, merge with the original rows, unit pos_delta for futures, bc_delta, the currency code and the per-currency summary.
* **The inventory enrichment** (`inventory_handler.py`, `inventory.py`): the FX filter, the last-wins futures streamer map, the option-chain left join, the minifuture fallback with `combine_first`, the contract-size fill and the sort by underlying symbol. The script sorts before the fill; the handler sorts after it. The model proves that both save the same table.

Modules, one per file:

| file | module |
|---|---|
| `wrappers.dfy` | `Wrappers`, the Option type |
| `values.dfy` | `Values`: a table cell (text, number or missing), `pd.to_numeric(errors='coerce')` and `float()` |
| `strings.dfy` | `Strings`: lexicographic order, prefixes, word characters |
| `tables.dfy` | `Tables`: the pandas operations the core uses, as functions on sequences of rows (`drop_duplicates`, boolean filters, left merges, the sort) |
| `decoder.dfy` | `QuoteDecoder` |
| `streamer.dfy` | `Streamer` |
| `positions.dfy` | `Positions` |
| `quote_join.dfy` | `QuoteJoin` |
| `bsm.dfy` | `Bsm` |
| `risk.dfy` | `Risk` |
| `inventory_handler.dfy` | `Inventory` |
| `inventory_script.dfy` | `InventoryScript` |

Where the code changes things step by step, the model is imperative:
* The handler is a class whose methods update its flags map and its received-payload list.
* `OptionDataProcessor` is a class whose `df` each step reassigns.
* Column-by-column coercion, the mid prices, the streamer-symbol assignment and the futures pos_delta work in place on arrays.
* Each such method is proved against the function that specifies it.

Behaviour of the code worth knowing:
* After `process()`, a row that is neither a Future nor a Future Option has a **missing** pos_delta. Such a row comes from the original table, which has no pos_delta column (`ExpectedPosDelta`). A Future Option whose direction is neither Long nor Short gets 0.
* An empty tracked-symbol set makes `check_all_data_received` true. But the socket only closes when a FEED_DATA message arrives on the channel, not as soon as tracking starts.
* The handler marks a symbol found at offset 6k+1 even when its record is cut short. The decoder drops such a record, because it needs a full stride. `Streamer.TruncatedRecordReportedButNotDecoded` exhibits this.
* A row-wise `apply(axis=1)` on a table with no rows fails. pandas probes the lambda with a row of NaN, which raises, so `apply` returns an empty frame. Assigning a frame with several columns to one column then raises ValueError. Two consequences follow:
  * The contract-size fill fails on an empty FX inventory, in both `update_inventory` and the script (`Inventory.FillContractSize`).
  * `process()` fails when no row is a Future Option (`Risk.OptionDataProcessor.Process`). The pos_delta lambda returns a scalar on the probe row, so that step alone would not fail.

The operations that only compute are specified by the lemmas beside them, and their rows below name those lemmas:
* `QuoteDecoder.DecodeBatch`: `DecodeBatchLength`, `DecodeBatchAt`, `DecodeBatchSplit`, `DecodeEncode`.
* `QuoteJoin.MergeData`: `MergeDataSpec`, `MergeDataKeepsRows`.
* `Bsm.Price`, `Bsm.Delta`, `Bsm.ImpliedVolatility`: `PutCallParity`, `DeltaBounds`, `PutDeltaIsCallDeltaMinusOne`, `ImpliedVolatilitySpec`, `ImpliedVolatilityInBracket`.
* `Risk.Summarize`: `SummarizeSpec`, `SummarizeIgnoresNoCurrency`, `MissingBcDeltaAddsNothing`.
* `Inventory.FillContractSize`: `FillContractSizeSpec`, `FillRowsSpec`.
* `Streamer.Run`, the session as a function of the inbound messages: `RunWhileOpen`, `RunClosesOnce`, `RunAfterClose`, `TwoBatchSession`.

## Model

| member | source | states |
|---|---|---|
| Values.ToNumeric | websocket_streamer.py:96 | coercion never leaves text; numbers stay, missing stays missing, text becomes a number exactly when it parses as a plain signed decimal (the narrower grammar is under Left out) |
| Values.ToNumericIdempotent | websocket_streamer.py:93-97 | coercing a coerced cell changes nothing |
| Values.ToNumericOfNatText | websocket_streamer.py:96 | a digit string coerces to the number it spells |
| Tables.KeepLastSpec | websocket_streamer.py:63 | `drop_duplicates(keep='last')`: distinct keys, same key set, each kept row is the last with its key |
| Tables.KeepFirstSpec | risk_fx.py:160 | `drop_duplicates()` keeping the first: distinct keys, same key set, each kept row is the first with its key |
| Tables.LeftJoinUnique | websocket_streamer.py:78-91 | a left merge on distinct right keys is row for row, each row combined with the right row of its key or with a missing right side |
| Tables.LeftJoinKeepsRows | websocket_streamer.py:78-91 | a left merge never loses a left row |
| Tables.SortBySpec | inventory_handler.py:154-155 | the sort gives a permutation, ordered by the key |
| QuoteDecoder.DecodeBatchLength | websocket_streamer.py:49-50 | a payload of n values gives floor(n/6) records |
| QuoteDecoder.DecodeBatchAt | websocket_streamer.py:49-59 | record k is the feed type followed by values 6k..6k+5, for every full stride |
| QuoteDecoder.DecodeBatchIgnoresPartialTail | websocket_streamer.py:50 | fewer than six trailing values add no record |
| QuoteDecoder.DecodeBatchSplit | websocket_streamer.py:49-59 | decoding splits at any multiple of six |
| QuoteDecoder.DecodeEncode | websocket_streamer.py:49-62 | flattening records six values each (plus any short tail) and decoding gives the records back |
| QuoteDecoder.DecodePayload | websocket_streamer.py:49-59 | the stride loop over one payload appends exactly that payload's decoding |
| QuoteDecoder.ParseMarketData | websocket_streamer.py:44-63 | the result is the last-wins de-duplication of every decoded record of every payload: one row per streamer-symbol, the same symbols, each the last record for it |
| Streamer.ControlReply | websocket_streamer.py:170-199 | only AUTH_STATE is answered regardless of channel; the reply is AUTH exactly for UNAUTHORIZED, and every other reply is addressed to the session's channel |
| Streamer.AuthOnEveryUnauthorized | websocket_streamer.py:170-171 | every AUTH_STATE UNAUTHORIZED, on any channel, is answered with AUTH on channel 0 carrying the token |
| Streamer.ChannelRequestOnAuthorized | websocket_streamer.py:172-178 | AUTH_STATE AUTHORIZED requests the session channel with service FEED and contract AUTO |
| Streamer.FeedSetupOnChannelOpened | websocket_streamer.py:181-190 | CHANNEL_OPENED on the channel sets up the COMPACT Quote feed with aggregation 0.1 and the six fields the decoder strides over |
| Streamer.SubscriptionOnFeedConfig | websocket_streamer.py:193-199 | FEED_CONFIG on the channel sends a reset subscription with one Quote entry per tracked symbol, in tracking order |
| Streamer.OtherChannelsIgnored | websocket_streamer.py:170-219 | apart from AUTH_STATE, a message for another channel gets no reply |
| Streamer.TruncatedRecordReportedButNotDecoded | websocket_streamer.py:210-213 | a symbol at offset 1 of a two-value Quote payload is reported to the tracker while the decoder yields no record |
| Streamer.ReportedSinceSnoc | websocket_streamer.py:204 | after one more payload, a symbol has been reported iff it was before or the new payload reports it |
| Streamer.MarkedKeepsFlags | websocket_streamer.py:204-213 | flags that mirror the payloads received since tracking began still do after one more payload is appended and marked |
| Streamer.MarketDataWebSocket.constructor | websocket_streamer.py:134-139 | no tracked symbols, no received payloads, the token and channel kept |
| Streamer.MarketDataWebSocket.SetSymbolsToTrack | websocket_streamer.py:233-235 | the flags become exactly the given symbols, all false, in first-occurrence order; received payloads are left alone |
| Streamer.MarketDataWebSocket.CheckAllDataReceived | websocket_streamer.py:227-231 | true iff every flag is true, iff every tracked symbol was reported by a payload received since tracking began |
| Streamer.MarketDataWebSocket.MarkReported | websocket_streamer.py:209-213 | a tracked flag becomes true iff it was true or the symbol sits at some offset 6k+1; other symbols are ignored and no key is added |
| Streamer.MarketDataWebSocket.OnMessage | websocket_streamer.py:165-219 | FEED_DATA on the channel appends the payload, marks reported symbols and closes iff all flags are true; FEED_DATA without data raises and changes nothing; every other message gets the handshake reply and changes nothing; the flag invariant is kept |
| Streamer.RunSession | websocket_streamer.py:141-163 | SETUP (channel 0, version 0.1-DXF-JS/0.3.0, keepalive 15/20) goes out first. The flags, the received payloads, the sent messages and the close flag are those of `Run` over the inbound messages in order, which stops at the close. The session closes only when every tracked symbol is reported |
| Streamer.RunAfterClose | websocket_streamer.py:216-219 | once the socket is closed, further inbound messages change nothing |
| Streamer.RunWhileOpen | websocket_streamer.py:165-219 | while the socket is open, the buffer is the old one plus every FEED_DATA payload with data on the channel, in order. The sent list is the old one plus each handshake reply, in order. The flags are the old ones marked by those payloads one after another |
| Streamer.RunClosesOnce | websocket_streamer.py:203-219 | a session that closes does so on one FEED_DATA message with data: open just before it, closed just after it, and nothing after it counts |
| Streamer.TwoBatchSession | websocket_streamer.py:203-219 | with 6E and 6B tracked, a batch reporting 6E leaves the socket open and a batch reporting 6B then closes it. A third batch is never buffered; the buffer holds the two batches and only SETUP was sent |
| QuoteJoin.UsableSymbolsMembers | websocket_streamer.py:42 | exactly the present, non-empty symbols other than 'None' survive the clean-up |
| QuoteJoin.StreamerSymbolsSpec | websocket_streamer.py:34-42 | the tracked symbols are exactly the usable streamer and option-streamer symbols of the inventory |
| QuoteJoin.MergeDataSpec | websocket_streamer.py:76-91 | with one quote per symbol the merge is row for row: the option leg from the option-streamer-symbol's quote, the future leg from the streamer-symbol's quote |
| QuoteJoin.QuoteForSpec | websocket_streamer.py:78-91 | a leg is missing iff its symbol cell is missing or no quote has that symbol; otherwise it is that quote's four columns |
| QuoteJoin.MergeDataKeepsRows | websocket_streamer.py:76-91 | without distinct quotes, the merge still keeps every inventory row |
| QuoteJoin.CoercedThroughAll | websocket_streamer.py:93-97 | after the four numeric columns both legs' bid and ask are coerced and the sizes and other columns are untouched |
| QuoteJoin.CoercionIdempotent | websocket_streamer.py:93-97 | coercing the numeric columns twice equals once |
| QuoteJoin.ConvertColumnsToNumeric | websocket_streamer.py:93-97 | in place, each row becomes its coercion through all four numeric columns |
| QuoteJoin.MidSpec | websocket_streamer.py:99-103 | a mid is a number iff both sides are, then it lies between bid and ask and is equidistant from them |
| QuoteJoin.CalculateMidPrices | websocket_streamer.py:99-103 | in place, each row gets mid_option and mid_future from its legs |
| QuoteJoin.CoerceAndAddMids | websocket_streamer.py:127-128 | each merged row is coerced through the numeric columns and then given its mids, row count unchanged |
| QuoteJoin.QuotedRowSpec | websocket_streamer.py:93-103 | a processed row keeps the position, and its mids are numbers exactly when its quotes parsed |
| QuoteJoin.DropExistingColumnsSpec | websocket_streamer.py:72-74 | exactly the columns outside columns_to_check remain; dropping again removes nothing |
| QuoteJoin.ReorderColumnsSpec | websocket_streamer.py:112-115 | the result exists iff every new column is present; it is a permutation ending with the new columns, preceded by the other columns in order |
| QuoteJoin.ProcessMarketData | websocket_streamer.py:117-131 | the received payloads are those of the session run over the inbound messages, with the usable streamer symbols tracked; there is one output row per inventory row, each the quoted row for the last-wins decoding of those payloads |
| Bsm.ImpliedVolatilitySpec | risk_fx.py:35-42 | IV is missing iff the objective has the same sign at 1e-6 and 1, otherwise it is brentq's root on that bracket with tolerance 1e-6 |
| Bsm.ImpliedVolatilityInBracket | risk_fx.py:40 | when the root finder stays in its bracket, a present IV lies in [1e-6, 1] |
| Bsm.PutDeltaIsCallDeltaMinusOne | risk_fx.py:45-53 | put delta is call delta minus one |
| Bsm.DeltaBounds | risk_fx.py:45-53 | for a distribution function, call delta lies in [0, 1] and put delta in [-1, 0] |
| Bsm.PutCallParity | risk_fx.py:23-32 | at zero rate, with a symmetric distribution, call minus put equals S minus K |
| Risk.OptionTypeOfSpec | risk_fx.py:99 | a call iff one of the symbol's last ten characters is 'C' |
| Risk.BcDeltaSpec | risk_fx.py:139-146 | bc_delta is the product of pos_delta, coerced quantity and coerced contract size when all three are numbers, missing otherwise |
| Risk.CcyMatch | risk_fx.py:150 | the leftmost position of a '6' followed by a word character, or none when there is none |
| Risk.CcySpec | risk_fx.py:148-150 | the currency code is missing iff no '6' is followed by a word character; otherwise it is the first such pair |
| Risk.SummarizeSpec | risk_fx.py:152-156 | the summary has one entry per currency present, whose value sums the present bc_delta of that currency's rows |
| Risk.GroupTotalAbsent | risk_fx.py:154 | a currency no row carries totals zero |
| Risk.SummarizeIgnoresNoCurrency | risk_fx.py:154 | rows without a currency code change no total |
| Risk.MissingBcDeltaAddsNothing | risk_fx.py:152-156 | a row with a missing bc_delta leaves every currency's total unchanged; its currency still gets an entry |
| Risk.MissingQuotePropagates | risk_fx.py:90-146 | a Long or Short Future Option with a missing or unparsable option or future mid gets no IV, no delta, no pos_delta and no bc_delta |
| Risk.MergeWithOriginalSpec | risk_fx.py:158-160 | one row per symbol; a processed option row wins over its original, and every other original row is kept |
| Risk.AssignPosDeltaForFutures | risk_fx.py:131-137 | in place, Future rows get pos_delta +1 when Long and -1 otherwise; other rows are untouched |
| Risk.SetFuturesPosDelta | risk_fx.py:178-181 | the merged table with each Future row's pos_delta set and every other row unchanged |
| Risk.OptionDataProcessor.constructor | risk_fx.py:58-59 | df holds the given rows |
| Risk.OptionDataProcessor.FilterInstrumentType | risk_fx.py:78-80 | keeps exactly the rows of the given instrument type, in order |
| Risk.OptionDataProcessor.CalculateTimeToExpiry | risk_fx.py:86-88 | each row's T is the year fraction of its expiry from the supplied clock |
| Risk.OptionDataProcessor.CalculateImpliedVolatility | risk_fx.py:90-103 | each row's IV, in percent, from its mids, strike, T and call/put type; fails on an empty table and then leaves it unchanged |
| Risk.OptionDataProcessor.CalculateDelta | risk_fx.py:105-118 | each row's delta from its future mid, strike, T and IV divided by 100; fails on an empty table and then leaves it unchanged |
| Risk.OptionDataProcessor.CalculatePosDelta | risk_fx.py:120-129 | each row's pos_delta: delta when a Long Future Option, minus delta when Short, 0 otherwise |
| Risk.OptionDataProcessor.CalculateBcDelta | risk_fx.py:139-146 | each row's bc_delta from pos_delta, quantity and contract size |
| Risk.OptionDataProcessor.AssignCcy | risk_fx.py:148-150 | each row's currency code from its underlying symbol |
| Risk.OptionDataProcessor.SummarizeBcDeltaByCcy | risk_fx.py:152-156 | the per-currency totals of the current table |
| Risk.OptionDataProcessor.Process | risk_fx.py:162-194 | fails exactly when no original row is a Future Option, leaving the empty filtered table. Otherwise the returned table is also the processor's table, equal to the composed steps on the original rows, and the summary is its per-currency totals |
| Risk.OptionsStepsCompose | risk_fx.py:168-175 | the option steps applied one after another give each filtered row's derived columns |
| Risk.OptionSymbolsDerived | risk_fx.py:158-160 | every Future Option symbol of the original rows is a processed row's symbol |
| Risk.ProcessedPosDelta | risk_fx.py:120-137 | every processed row's pos_delta is ±delta for a Long/Short Future Option, 0 for another direction, ±1 for a Future, and missing for any other instrument type |
| Inventory.FilterFxPositionsSpec | inventory_handler.py:90-92 | exactly the positions whose third symbol character is '6' are kept, in order; filtering distributes over concatenation |
| Inventory.StreamerOfLastWins | inventory_handler.py:96 | in the symbol-to-streamer dict a later futures row overrides the earlier ones and leaves other symbols alone |
| Inventory.BuildStreamerMap | inventory_handler.py:96 | the dict has exactly the futures symbols as keys, each mapped to the streamer of its last row |
| Inventory.MapSymbolsToStreamers | inventory_handler.py:94-98 | in place, each position's streamer-symbol becomes its underlying's mapped streamer, missing when unmapped |
| Inventory.ChainJoinSpec | inventory_handler.py:133-137 | no position is lost; each is paired with every chain row of its symbol, or given a missing option streamer and strike when there is none |
| Inventory.ChainJoinUnique | inventory_handler.py:133-147 | with one chain row per symbol the join is row for row |
| Inventory.MinifutureFallbackSpec | inventory_handler.py:139-144 | with one master row per symbol, a present streamer-symbol is kept, a missing one of a '/M' symbol is taken from its master row, and the contract size comes from that row |
| Inventory.FillRowsSpec | inventory_handler.py:148-151 | the row-wise part succeeds iff no row lacks both a contract size and a master row for its underlying; then it is row for row |
| Inventory.FillContractSizeSpec | inventory_handler.py:148-151 | the fill succeeds iff there is at least one row and no row lacks both a contract size and a master row for its underlying. Then it is row for row, keeping a present size and taking the first master row's otherwise |
| Inventory.HandlerInventorySorted | inventory_handler.py:153-155 | the saved table is sorted by underlying-symbol and is a permutation of the enriched rows |
| Inventory.UpdateInventory | inventory_handler.py:120-157 | saves the enriched rows sorted by underlying-symbol, or fails when the fill raises, including on an empty table |
| InventoryScript.FillSucceedsOnPermutation | inventory.py:172-175 | whether the fill raises depends only on the rows, not on their order |
| InventoryScript.FillCommutesWithSort | inventory.py:170-175 | sorting then filling equals filling then sorting |
| InventoryScript.ScriptAgreesWithHandler | inventory.py:146-175 | the script's table equals update_inventory's |
| InventoryScript.EnrichFxInventory | inventory.py:122-182 | the script's table logic, equal to both its own composition and the handler's; its filter and streamer map (inventory.py:85-93) are the same functions as the handler's |

## Left out

- Transport and I/O are not modelled: the websocket library, JSON encoding, TLS, sqlite reads and writes, the REST session, credentials and Discord posts. Inbound messages and database tables are parameters; outbound messages are returned values.
- The clock (`datetime.now()` and the timezone) is a parameter `years`, the year fraction to an expiry.
- Floating point is not modelled. The normal CDF, d1, the square root and brentq are the fields of `Bsm.Numerics`; the arithmetic uses exact reals.
- Bsm.ImpliedVolatility: brentq's RuntimeError on non-convergence and NaN inputs are not modelled; NaN inputs give a missing IV.
- Rounding of IV to one decimal and delta to two decimals is not modelled.
- Risk.OptionTypeOf: the ValueError branches of `price` and `delta` are unreachable, because the caller only passes 'call' or 'put'.
- Values.ToNumeric: only plain signed decimals parse (an optional sign, digits, an optional '.' and more digits). Text that pandas reads as a number in other spellings, such as `1e3`, ` 2.5 ` with surrounding whitespace, `inf` or `nan`, becomes missing in the model. The text `NaN` becomes missing in pandas as well, so it agrees. Infinity has no exact-real counterpart.
- Values.FloatOf: `float()` on text that does not parse raises in the code; the model gives a missing value.
- Risk.CcyMatch: `\w` is modelled as ASCII letters, digits and underscore, not Unicode word characters.
- Risk.OptionDataProcessor.Process: on a table with no Future Option the model places the failure at the implied-volatility step. The time-to-expiry subtraction may already raise there, because an empty `expires-at` column parses as tz-naive and `now` is tz-aware. The outcome is the same: `process()` raises with an empty filtered table.
- Risk.SummarizeBcDeltaByCcy: the summary is a map from currency to total; the sort order of `groupby` and the dataframe layout are not modelled.
- Tables.LeftJoin: a missing key matches nothing; pandas would match NaN with NaN.
- Tables.SortBy: `sort_values` uses an unstable quicksort; the model sorts stably, which is one of the orders pandas may produce.
- Inventory.MinifutureFallbackSpec and Inventory.ChainJoinUnique assume one master row and one chain row per symbol. The general join, with repeated rows, is covered by Inventory.ChainJoinSpec and Tables.LeftJoinKeepsRows.
- Positions carry no contract-size, strike-price or option-streamer-symbol column before the joins add them. A clash of suffixes with such columns is not modelled.
- Streamer.MarketDataWebSocket.OnMessage: a FEED_DATA payload that is not a two-element list, and a malformed JSON message, are not modelled; the payload is a typed pair. A missing `data` key is modelled as KeyError.
- Column operations (`drop_existing_columns`, `reorder_columns`) are modelled on the list of column names; rows are records with fixed fields.
- `read_inventory_from_db`, `save_inventory_to_db`, `get_db_paths`, `run_position_feed`, `on_error` and `on_close` are I/O only and are not modelled.
