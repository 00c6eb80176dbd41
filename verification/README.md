# Upbit backend core in Dafny

A model of the pure logic inside a small Flask backend for the Upbit
exchange. The backend has three parts.

- **Refresh job and reader** (`api/upbit_crawling.py`). Every ten minutes a
  job fetches the 200 most recent ten-minute KRW-BTC candles. It computes
  the Heikin-Ashi candles, the 200-period EMA and the smoothed stochastic
  RSI, and stores the value at the last index of each series in one
  in-memory slot. `/technical-indicators` reads that slot.
- **Read routes** (`api/upbit_connect.py`). `/chart` maps an interval name
  to a candle endpoint. `/balance` returns the account list. `/profit-loss`
  adds up balance × average buy price over the accounts. Each route wraps
  its result in a `{success, data}` / `{success, error}` envelope.
- **Trade route** (`api/upbit_trading.py`). `/trade` dispatches on `buy`,
  `sell` or `hold`. It looks up the first account of a currency and builds
  a limit order on KRW-BTC. It signs requests with a JWT whose payload
  carries a SHA-512 hash of the query when there is one.

Modules, one per file:

- `Wrappers`: `Option` (a Python `None` or a pandas NaN) and the reply envelope.
- `Text`: Python's substring test and `str.replace`, plus an equivalent
  split/join formulation of `replace`.
- `Indicators`: the Heikin-Ashi transform and the rolling means that smooth
  the stochastic RSI.
- `Exchange`: the constants and reply shapes shared by the routes.
- `Crawling`: the candle fetch, the slot update, the reader, and a whole run
  of the job.
- `Connect`: the chart, balance and profit/loss routes.
- `Trading`: the trade route.

Outside effects are parameters:

- Each HTTP reply is a value of `HttpReply`: the call raised, or a status and
  a decoded body came back.
- The `ta` library's EMA and raw stochastic RSI are the functions of `Library`.
- JWT signing, SHA-512, URL encoding and `str(float)` are the functions of
  `Primitives`.
- The uuid4 nonces are `Nonces`, and the clock reading is a string.
- Python's `float()` on the exchange's decimal strings is a function `parse`.

Prices are Dafny `real`s.

Two behaviours of the code that a reader might not expect:

- The Heikin-Ashi open averages the raw previous row's open and close. It
  does not use the previous Heikin-Ashi row. The first row has no open
  (NaN).
- Rows are never reordered. The exchange lists candles newest first, and
  the code processes the array in that order. So `iloc[-1]` reads the
  OLDEST of the 200 candles. Its Heikin-Ashi open averages the next-newer
  candle, and the EMA and stochastic-RSI series run backwards in time. The
  model keeps the array order: what is stored is the value at the last
  index (`Crawling.SnapshotReadsLastRow`, `Crawling.SnapshotIndicators`).

Other behaviours of the code that the model keeps:

- `str.replace` removes every occurrence of "minute" in one pass, so
  "mminuteinute" becomes "minute" (`Text.ReplaceIsSinglePass`).
- `get_balance` does not look at the status code. An error body from the
  exchange is returned as data, and `/balance` reports it as a success.
- A sell without a BTC account still sends an order, with volume `0`. A buy
  without a KRW account bids volume 0.0.
- A sell never converts its balance and never checks the price for zero.
- An action other than `hold`, `buy` or `sell` makes the view return None.
  That is outside the route's `try`, so Flask answers with its own error
  page (`NoResponse`).

## Model

| member | source | states |
|---|---|---|
| Wrappers.Wrap | api/upbit_connect.py:100-105 | the envelope is a success exactly when the collaborator returned a value, carries that value, and otherwise carries the route's own error text |
| Text.Replace | api/upbit_connect.py:28 | removing "minute" leaves a text without the target unchanged and never makes a text longer; it shortens any text that contains the target |
| Text.ReplaceIsJoinSplit | api/upbit_connect.py:28 | the one-pass rewrite equals the equivalent formulation `repl.join(s.split(target))` |
| Text.JoinSplit | api/upbit_connect.py:28 | splitting on a separator and joining back with it restores the text |
| Text.ReplaceIsSinglePass | api/upbit_connect.py:28 | removal is a single pass: "mminuteinute" becomes "minute", which still contains "minute" |
| Indicators.Max3 | api/upbit_crawling.py:18 | the row-wise max is at least each column and equals one of them |
| Indicators.Min3 | api/upbit_crawling.py:19 | the row-wise min is at most each column and equals one of them |
| Indicators.HaRow | api/upbit_crawling.py:16-19 | close is the mean of the row's four prices; open is defined exactly when there is a previous raw row, and is then the mean of that row's open and close; high/low are the max/min of raw high/low, open, close |
| Indicators.HeikinAshi | api/upbit_crawling.py:15-26 | the output has one row per input row, and its open is NaN exactly on row 0 |
| Indicators.HeikinAshiRows | api/upbit_crawling.py:16-19 | per row against the raw series: close is the mean of the same raw row; open is NaN at row 0 and otherwise uses the raw previous open and close; high and low are the max and min over raw high/low, open, close |
| Indicators.HeikinAshiRange | api/upbit_crawling.py:18-19 | on every row the HA high is at least the HA low and the raw high, and the HA low is at most the raw low |
| Indicators.HeikinAshiWellFormed | api/upbit_crawling.py:18-19 | for candles whose high and low bound open and close, HA high and low are the raw high and low and HA close lies between them |
| Indicators.HeikinAshiPrefix | api/upbit_crawling.py:15-26 | the transform is causal: later candles never change an earlier HA row |
| Indicators.RollingMean | api/upbit_crawling.py:33-34 | one output per input; a value is a number exactly when its full trailing window exists and holds no NaN |
| Indicators.RollingMeanBounds | api/upbit_crawling.py:33-34 | a rolling mean stays within any band that bounds its inputs |
| Indicators.RollingMean3At | api/upbit_crawling.py:33 | a width-3 mean is defined exactly where the current and two previous values are numbers, and is their plain mean |
| Indicators.StochRsi | api/upbit_crawling.py:31-35 | %K and %D have the raw series' length, and %D is NaN on the first smoothK + smoothD - 2 rows |
| Indicators.StochDefaultLines | api/upbit_crawling.py:33-34 | with smoothing 3 and 3, %K[i] is the mean of raw[i-2..i] and %D[i] the mean of %K[i-2..i], each NaN where its window is incomplete |
| Indicators.StochDefaultD | api/upbit_crawling.py:33-34 | %D[i] is defined exactly when raw[i-4..i] are numbers, and is then their 1-2-3-2-1 weighted mean |
| Indicators.StochRsiUnitRange | api/upbit_crawling.py:33-34 | a raw stochastic RSI within [0, 1] gives %K and %D within [0, 1] |
| Crawling.MarketDataRequest | api/upbit_crawling.py:37-42 | the job requests 200 ten-minute candles of the given market |
| Crawling.Rename | api/upbit_crawling.py:49-50 | opening_price, high_price, low_price and trade_price become open, high, low and close |
| Crawling.FetchMarketData | api/upbit_crawling.py:44-55 | a frame comes back exactly for a 200 reply whose body is a non-empty array of rows with the four prices; it has one renamed candle per row, in the order received |
| Crawling.Publish | api/upbit_crawling.py:57-80 | a snapshot is produced exactly when the fetch succeeds and both library series are non-empty, stamped with the clock reading |
| Crawling.Refresh | api/upbit_crawling.py:57-80 | a refresh that stores nothing leaves the slot unchanged; one that stores replaces the whole slot |
| Crawling.SnapshotReadsLastRow | api/upbit_crawling.py:61-74 | the stored Heikin-Ashi values are those of the last element of the upstream array (the oldest candle, as the exchange orders them), with open taken from the element before it (NaN for a single row) |
| Crawling.SnapshotIndicators | api/upbit_crawling.py:62-79 | the stored EMA, %K and %D are the values at the last index of their series; %K is a number exactly when the last three raw values are, and is their mean; %D is a number exactly when the last five are, and is their 1-2-3-2-1 weighted mean |
| Crawling.Run | api/upbit_crawling.py:57-86 | a run of scheduled refreshes leaves the slot untouched while every refresh fails, and ends with the last tick's snapshot when that refresh succeeds |
| Crawling.TechnicalIndicators | api/upbit_crawling.py:89-97 | the reader succeeds with the stored snapshot exactly when one is stored, and otherwise reports "데이터 없음" |
| Crawling.RunKeepsLatest | api/upbit_crawling.py:57-86 | after any sequence of ticks the slot holds the most recent successful snapshot, or its previous content if none succeeded |
| Crawling.LatestPublishedNone | api/upbit_crawling.py:57-80 | no snapshot has been published exactly when every tick's refresh stored nothing |
| Crawling.NoDataUntilFirstSuccess | api/upbit_crawling.py:83-97 | from start-up the reader says "no data" exactly until some refresh succeeds, then returns the latest successful snapshot |
| Connect.ChartUrl | api/upbit_connect.py:24-38 | every chart URL starts with the candles base URL |
| Connect.NamedPeriodsHaveNoMinute | api/upbit_connect.py:27-35 | no day/week/month spelling contains "minute", so the substring case never shadows them |
| Connect.ChartUrlMinutes | api/upbit_connect.py:27-29 | an interval containing "minute" maps to /minutes/ followed by the interval with every "minute" removed |
| Connect.ChartUrlPeriods | api/upbit_connect.py:30-35 | /days, /weeks and /months are reached by exactly "day"/"days", "week"/"weeks" and "month"/"months" |
| Connect.DefaultIntervalIsHourly | api/upbit_connect.py:27-29 | "minute60" maps to /minutes/60 |
| Connect.ChartUrlFallback | api/upbit_connect.py:36-38 | any unrecognised interval gives the same URL as "minute60"; /minutes/60 is reached by exactly those and by minute intervals that reduce to "60" |
| Connect.RefreshJobUsesTenMinuteCandles | api/upbit_crawling.py:38 | the refresh job's endpoint is the one the chart route builds for "minute10" |
| Connect.GetChartData | api/upbit_connect.py:21-54 | candle data comes back exactly for a 200 reply with a JSON body, requested from the URL of the interval |
| Connect.ChartRoute | api/upbit_connect.py:92-105 | missing arguments default to KRW-BTC, minute60 and 24; success exactly when the upstream answered 200 with JSON, else "차트 데이터 조회 실패" |
| Connect.ChartRouteDefaults | api/upbit_connect.py:95-97 | with no arguments the route asks for 24 hourly KRW-BTC candles |
| Connect.GetBalance | api/upbit_connect.py:56-71 | the account body comes back whenever the call returned JSON, whatever the status |
| Connect.BalanceRoute | api/upbit_connect.py:107-117 | success exactly when the account call returned JSON, else "잔고 조회 실패" |
| Connect.Holdings | api/upbit_connect.py:80 | the sum of balance × avg_buy_price is 0 when every holding is 0, and non-negative when every holding is |
| Connect.HoldingsAppend | api/upbit_connect.py:80 | the total over a list is the sum of the totals over any split of it |
| Connect.HoldingsNonNegative | api/upbit_connect.py:80 | non-negative amounts give a non-negative total |
| Connect.TotalBalance | api/upbit_connect.py:80 | the total is defined exactly when every balance and average price converts, and is then the sum of balance × avg_buy_price |
| Connect.ProfitLoss | api/upbit_connect.py:73-86 | a summary exactly for a non-empty account list whose amounts all convert; it holds the total and the list unchanged |
| Connect.ProfitLossRoute | api/upbit_connect.py:119-128 | success under the same condition, with the total and the assets unchanged, else "수익/손실 조회 실패" |
| Trading.PlainPayload | api/upbit_trading.py:22-28 | the plain token payload has exactly the keys access_key and nonce |
| Trading.HashedPayload | api/upbit_trading.py:32-43 | the query payload adds query_hash, the SHA-512 of the URL-encoded query, and query_hash_alg "SHA512" |
| Trading.GetHeaders | api/upbit_trading.py:30-45 | one Authorization header "Bearer <jwt>", signing the plain payload without a non-empty query and the hashed payload with one |
| Trading.HeadersUseOneNonce | api/upbit_trading.py:30-45 | the header depends on only one of the two nonces, and on a query only through its URL encoding |
| Trading.FirstBalance | api/upbit_trading.py:62-63 | the default 0 exactly when no account has the currency; otherwise the balance of the first account that does |
| Trading.FirstBalanceIsFirstMatch | api/upbit_trading.py:88-89 | the lookup returns the balance at the first matching index |
| Trading.AmountValue | api/upbit_trading.py:74 | the default 0 converts to 0.0; a reported balance converts with float() |
| Trading.Pairs | api/upbit_trading.py:33 | the URL-encoded query lists market, side, volume, price and ord_type in that order; the volume is the rendered float of a buy, the balance text of a sell, or "0" for the default |
| Trading.CurrentPrice | api/upbit_trading.py:68 | the price is the first ticker entry's trade_price, and is missing for an empty or malformed ticker list |
| Trading.PlaceOrder | api/upbit_trading.py:79-82 | the order goes to /v1/orders with the query signed over its hash; it is placed exactly when the POST returns a JSON body, which becomes the data, and otherwise fails with the request or decode error |
| Trading.BuyVolumeNotional | api/upbit_trading.py:74 | price × volume equals 0.9995 × the KRW amount |
| Trading.StatusOf | api/upbit_trading.py:110-111 | a failure answers 500, hold and placed orders answer 200, and a None view answers nothing |
| Trading.MessageOf | api/upbit_trading.py:53-108 | hold and placed orders carry a message, failures do not: "포지션 유지" for hold, "매수 주문 완료" for a bid, "매도 주문 완료" for an ask |
| Trading.FetchAccounts | api/upbit_trading.py:60-63 | the account list is read exactly when the account call, made with the unhashed header, returns a list of accounts |
| Trading.Buy | api/upbit_trading.py:58-82 | a buy ends in a KRW-BTC limit bid with a computed volume, or in a failure inside the `try` |
| Trading.Sell | api/upbit_trading.py:84-108 | a sell ends in a KRW-BTC limit ask with an unconverted volume, or in a failure that is never a conversion or zero-price error |
| Trading.Trade | api/upbit_trading.py:47-111 | a body that is not a JSON object fails with 500; hold exactly for "hold"; no response exactly for an action other than hold/buy/sell; a placed order is a KRW-BTC limit order on /v1/orders, a bid exactly for "buy" and an ask exactly for "sell" |
| Trading.HoldConsultsNothing | api/upbit_trading.py:53-54 | hold answers 200 with "포지션 유지" whatever the exchange would answer |
| Trading.BuyPlacedOrder | api/upbit_trading.py:58-82 | a placed buy order bids at the first ticker price, which is non-zero, the fee-adjusted volume of the first KRW account's amount |
| Trading.BuyFailures | api/upbit_trading.py:58-77 | an unreadable account list fails the buy; a zero price fails it with the division error once the amount converts; without a KRW account the volume is 0 |
| Trading.SellPlacedOrder | api/upbit_trading.py:84-108 | a placed sell order asks at the first ticker price the first BTC account's balance text unconverted, or 0 without a BTC account |
| Trading.SellIgnoresParse | api/upbit_trading.py:97-103 | a sell never converts the balance |
| Trading.OrderHeadersHashed | api/upbit_trading.py:71-80 | every order is signed over the SHA-512 of its own URL-encoded query with the second nonce |

## Left out

- HTTP I/O, Flask request parsing and `jsonify` are not modelled. Replies are inputs of type `HttpReply`, and the route outcome is a datatype.
- A reply body that decodes to JSON `null` is not distinguished from other JSON. The code would treat it like None.
- The `ta` library's EMA-200 and raw stochastic RSI are not modelled. Their code is not part of this model, so they are the parameters of `Library`.
- Floating-point rounding is not modelled: prices and volumes are reals. `str(float)` is an opaque `render` function.
- JWT encoding, SHA-512, URL encoding, the UTF-8 encoding of the query and uuid4 are uninterpreted functions or parameters.
- The background scheduler, its thread and `datetime.now()` are not modelled. A tick is a sequential slot update given its reply and clock reading.
- `api/openai_api.py` and `app.py` are not modelled: the first is a pass-through to a chat API and the second only registers blueprints.
- Environment variables, logging and printing are not modelled. Keys are parameters and are always present strings.
- Crawling.FetchMarketData: a reply in which some rows lack a price field is modelled as no data. pandas would fill NaN when other rows carry the field, and raise only when no row does.
- Connect.ChartRoute: takes `count` already converted to an integer. A non-numeric count makes `int()` raise outside the route's `try`, which is not modelled.
- Trading.Trade: any account body that is not a list fails the buy or sell. In the code an empty JSON object iterates like an empty list, so it leads to an order with the default amount 0; that case is not distinguished.
- Indicators.RollingMean: windows of width 0 are excluded. The code only uses width 3.
- Connect.GetBalance: the authorization header of the account call has the same plain-payload shape as `Trading.PlainPayload`. It is not modelled separately.
