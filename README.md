# CryptoDash trend and market-list core, in Dafny

CryptoDash is a browser dashboard for crypto markets. Around its HTTP calls and
JSX sits a small deterministic core, and this project models and proves it:

- **Trend decision** (`fetchMarketTrends`, `fetchCoinGeckoHistory`). The dashboard
  takes the 30-day price history of the selected coin. It derives the 7-sample
  and 2-sample tail windows and checks them for length and NaN. Then it either
  publishes the degraded record (every horizon `unknown`) or posts the three
  windows to the prediction service and publishes the reply unchanged. A failed
  call publishes the degraded record too. The two network calls are inputs: the
  history response is a `Result`, and the service is a function from request to
  `Result`. `marketTrends` is a field of the `CryptoDashboard` class, written by
  `FetchMarketTrends`.
- **Trend classifier** (`get_trend`, `predict_trend` in the Python service).
  Fewer than two prices give `unknown`. Otherwise the last price is compared with
  the first: `bullish` when it is higher, `bearish` otherwise. This is applied
  separately to each horizon's list.
- **Market lists.** Coins are formatted with a capitalised symbol and a
  `BINANCE:<SYMBOL>USDT` chart ticker. The search filter matches symbols without
  regard to case. The ranking drops coins without price data and sorts by 24h
  change, largest first. It then takes the top three gainers, and the bottom
  three losers with the last one first.
- **Gauge.** A total mapping from a trend value (a string or `null`) to pointer
  angle, stroke colour, caption colour class and caption text.

Modules: `Builtins` (the JavaScript built-ins the code relies on), `Labels`,
`Backend`, `Gauge`, `Trends` (the trend decision as functions), `Markets`, and
`Dashboard` (the component state as a class).

Prices are reals, because they are only compared. A client-side sample is
`Num(real) | NaN`, so that the `isNaN` checks mean something. A trend record is
a JSON object `map<string, Option<string>>`, where `None` stands for `null`.
This lets the service's reply pass through unchanged and also covers the
all-`null` initial state.

Three facts about the code shape the model:

- The gauge has a case for `neutral`, but the service never produces that label
  (`Backend.GetTrendNeverNeutral`). Only `bullish`, `bearish` and `unknown` reach
  the dashboard.
- The dashboard keeps a single trend record, `marketTrends`. It has no per-coin
  cache, and it does not check whether a reply belongs to the coin that is still
  selected.
- Only an empty history throws. A one-sample history passes that check and is
  then caught by the window guard. Both paths publish the degraded record.

## Model

| member | source | states |
|---|---|---|
| `Builtins.ToUpper` | src/CryptoDashboard.jsx:64 | the result has the input's length, contains no lower-case letter and equals the input when case is ignored |
| `Builtins.ToLower` | src/CryptoDashboard.jsx:197 | the result has the input's length, contains no upper-case letter and equals the input when case is ignored |
| `Builtins.LowerOfUpper` | src/CryptoDashboard.jsx:197 | lower-casing a symbol that was upper-cased at formatting time gives the lower case of the original |
| `Builtins.Includes` | src/CryptoDashboard.jsx:197 | `includes` is true exactly when the needle occurs at some index of the haystack |
| `Builtins.Filter` | src/CryptoDashboard.jsx:196-198 | `filter` keeps an order-preserving subsequence; every kept element passes the test, and every element that passes is kept as often as it occurs |
| `Builtins.RelativeIndex` | src/CryptoDashboard.jsx:146-147 | the index never exceeds n; a non-negative argument x gives min(x, n), and a negative one gives n - min(-x, n) |
| `Builtins.Slice` | src/CryptoDashboard.jsx:214 | `slice(start, end)` has to - from elements for the normalised indices, none when the end does not lie past the start; when it is non-empty the array is what precedes the start, then the result, then what follows the end |
| `Builtins.SliceFrom` | src/CryptoDashboard.jsx:146-147 | `slice(start)` is the suffix from the normalised start |
| `Builtins.SliceLast` | src/CryptoDashboard.jsx:146-147 | `slice(-k)` has min(k, n) elements and is a suffix of the array |
| `Builtins.SliceFirst` | src/CryptoDashboard.jsx:214 | `slice(0, k)` has min(k, n) elements and is a prefix of the array |
| `Builtins.Reverse` | src/CryptoDashboard.jsx:215 | `reverse` keeps the length and puts element n-1-i at index i |
| `Backend.GetTrend` | backend/app.py:22-25 | `unknown` exactly when there are fewer than 2 prices; otherwise `bullish` exactly when last > first and `bearish` exactly when last <= first; the range is {unknown, bullish, bearish} |
| `Backend.GetTrendNeverNeutral` | backend/app.py:22-25 | the classifier never answers `neutral` |
| `Backend.GetTrendDependsOnlyOnEnds` | backend/app.py:25 | two lists of length >= 2 that agree on their first and last prices get the same trend, whatever lies between |
| `Backend.GetTrendOfPair` | backend/app.py:25 | for `[a, b]` the trend is bullish iff b > a and bearish iff b <= a |
| `Backend.GetTrendOfEnds` | backend/app.py:23-25 | with two or more prices the label is bullish when the last beats the first and bearish otherwise |
| `Backend.PredictTrend` | backend/app.py:27-33 | the record has exactly the keys trend_1d, trend_7d, trend_30d, each the trend of its own list |
| `Backend.PredictTrendHorizonsIndependent` | backend/app.py:28-33 | each horizon's label is unchanged when only the other two lists change |
| `Backend.PredictTrendRange` | backend/app.py:28-33 | every value of a prediction is unknown, bullish or bearish |
| `Gauge.GaugeAngle` | src/HalfCircleGauge.jsx:1-6 | the angle is always 0, 90 or 180; it is 0 iff the trend is bullish and 180 iff it is bearish |
| `Gauge.UprightUnlessDirectional` | src/HalfCircleGauge.jsx:4-5 | null, neutral, unknown and every other value give 90 |
| `Gauge.StrokeColour` | src/HalfCircleGauge.jsx:33-39 | the stroke is green iff bullish, red iff bearish, amber otherwise |
| `Gauge.CaptionClass` | src/HalfCircleGauge.jsx:45 | the caption class is green iff bullish, red iff bearish, yellow otherwise |
| `Gauge.GaugeSplitAgrees` | src/HalfCircleGauge.jsx:33-45 | angle, stroke and caption class always fall in the same one of the three cases |
| `Gauge.Caption` | src/HalfCircleGauge.jsx:46 | a falsy trend (null or empty) gives LOADING; otherwise the caption is the trend in capitals, of the same length |
| `Gauge.CaptionsOfLabels` | src/HalfCircleGauge.jsx:46 | the four labels caption as BULLISH, BEARISH, NEUTRAL, UNKNOWN; null and "" as LOADING |
| `Trends.InitialTrends` | src/CryptoDashboard.jsx:20-24 | the initial record has the three horizon keys, all null |
| `Trends.Degraded` | src/CryptoDashboard.jsx:174-178 | the degraded record has the three horizon keys, all `unknown` |
| `Trends.PricesOf` | src/CryptoDashboard.jsx:188 | one price per point, in order: element i is the second component of point i |
| `Trends.ExtractPrices` | src/CryptoDashboard.jsx:184-193 | a failed fetch gives []; a successful one gives every point's price, in order and with the same length |
| `Trends.Week` | src/CryptoDashboard.jsx:146 | the 7d window has min(7, n) samples and is the tail of the history |
| `Trends.Day` | src/CryptoDashboard.jsx:147 | the 1d window has min(2, n) samples and is the tail of the history |
| `Trends.HasNaN` | src/CryptoDashboard.jsx:154-156 | `some(isNaN)` is true exactly when NaN is one of the samples |
| `Trends.WindowsRejected` | src/CryptoDashboard.jsx:150-157 | the guard passes exactly when every window has at least two samples and holds only numbers |
| `Trends.WindowsAreSuffixes` | src/CryptoDashboard.jsx:146-147 | the 7d window is the last min(7, n) samples and the 1d window the last min(2, n); both are suffixes of the history, and the 1d window is a suffix of the 7d window |
| `Trends.WindowEnds` | src/CryptoDashboard.jsx:146-147 | both short windows end at the latest price; the 1d window starts at the price before it and the 7d window at index n - min(7, n) |
| `Trends.NaNInSuffix` | src/CryptoDashboard.jsx:154-156 | a NaN in a tail of the history is a NaN in the history |
| `Trends.RejectionIsAboutHistory` | src/CryptoDashboard.jsx:150-157 | the six-part length/NaN guard holds iff the history has fewer than 2 samples or contains a NaN |
| `Trends.PlanRequest` | src/CryptoDashboard.jsx:144-164 | a request is sent iff the history has >= 2 samples and no NaN; it carries the history, its last min(7, n) and its last 2 samples |
| `Trends.PublishedTrends` | src/CryptoDashboard.jsx:142-179 | a short or NaN-holding history publishes the degraded record whatever the service would say; otherwise the service's reply is published unchanged, or the degraded record if the call fails |
| `Trends.EmptyHistoryDegrades` | src/CryptoDashboard.jsx:144-178 | a failed history fetch or an empty price list publishes the degraded record for every service |
| `Trends.Values` | src/CryptoDashboard.jsx:167-171 | the posted numbers are exactly the NaN-free samples, in order |
| `Trends.OverWire` | src/CryptoDashboard.jsx:172 | the service's dictionary reaches the client with the same keys and values |
| `Trends.Service` | backend/app.py:17-33 | a request with a NaN in any window is refused; otherwise the reply has exactly the three horizon keys, each the `get_trend` label of its window's numbers |
| `Trends.WindowTrend` | backend/app.py:22-25 | the service labels a posted window bullish iff its last price beats its first, else bearish |
| `Trends.ServiceLabels` | backend/app.py:22-33 | for NaN-free windows of two or more samples the service answers, with the three keys, each labelled by comparing that window's last price with its first |
| `Trends.ServedWindows` | src/CryptoDashboard.jsx:146-172 | for a usable history the posted windows are NaN-free, the service accepts them, and its reply is what the client publishes |
| `Trends.EndToEndTrends` | src/CryptoDashboard.jsx:146-172 | with the real service, a usable history publishes the three keys: 1d bullish iff the last price beats the one before it, 7d iff it beats the first of the last 7, 30d iff it beats the first; bearish otherwise |
| `Markets.FormatCoin` | src/CryptoDashboard.jsx:62-66 | the id is kept, the symbol is the capitalised symbol, and the ticker is "BINANCE:" + symbol + "USDT" |
| `Markets.TickerNamesSymbol` | src/CryptoDashboard.jsx:65 | stripping the 8-character prefix and the 4-character suffix from the ticker gives the symbol back |
| `Markets.FormatCoins` | src/CryptoDashboard.jsx:62-66 | one formatted coin per input coin, in order |
| `Markets.MatchesQuery` | src/CryptoDashboard.jsx:197 | a coin matches exactly when the lower-cased query occurs somewhere in the lower-cased symbol |
| `Markets.FilterCoins` | src/CryptoDashboard.jsx:196-198 | the result is an order-preserving subsequence of the coins; every kept coin matches, and every matching coin is kept as often as it occurs |
| `Markets.EmptyQueryKeepsAll` | src/CryptoDashboard.jsx:196-198 | an empty query keeps every coin |
| `Markets.QueryCaseIgnored` | src/CryptoDashboard.jsx:197 | upper-casing the query filters the same coins |
| `Markets.FormattedCoinMatchesOwnSymbol` | src/CryptoDashboard.jsx:196-198 | a formatted coin is found by its original symbol |
| `Markets.Attach` | src/CryptoDashboard.jsx:202-209 | the ranked entry keeps the coin's id and symbol and takes the USD price and the 24h change from its price data |
| `Markets.PricedCoins` | src/CryptoDashboard.jsx:200-211 | the coins that survive `filter(Boolean)` form an order-preserving subsequence of the list; each has price data, and each coin with price data is kept as often as it occurs |
| `Markets.PricedCoinsMembers` | src/CryptoDashboard.jsx:200-211 | a coin survives exactly when it is listed and has price data |
| `Markets.WithPrices` | src/CryptoDashboard.jsx:200-211 | one entry per priced coin, in list order: entry k is the k-th priced coin joined with its own price data |
| `Markets.Insert` | src/CryptoDashboard.jsx:212 | inserting one coin into a list sorted by change keeps it sorted, adds exactly that coin, and leaves the coin or the old head in front |
| `Markets.SortByChange` | src/CryptoDashboard.jsx:212 | the result is sorted by change, largest first, and is a permutation of the input |
| `Markets.SortedCoins` | src/CryptoDashboard.jsx:200-212 | the ranked list is sorted by change, largest first, and is a permutation of the priced coins |
| `Markets.SortedCoinsArePricedCoins` | src/CryptoDashboard.jsx:200-212 | the ranked list holds exactly the coins with price data, each carrying its own price and change |
| `Markets.TopGainers` | src/CryptoDashboard.jsx:214 | the gainers are the first min(3, n) ranked coins |
| `Markets.TopLosers` | src/CryptoDashboard.jsx:215 | the losers are the last min(3, n) ranked coins, the last one first |
| `Markets.GainersAreTop` | src/CryptoDashboard.jsx:212-214 | over a ranked list the gainers are in descending change, and none of the other coins changed more than any gainer |
| `Markets.LosersAreBottom` | src/CryptoDashboard.jsx:212-215 | over a ranked list the losers are in ascending change, and none of the other coins changed less than any loser |
| `Markets.FewCoinsMirror` | src/CryptoDashboard.jsx:214-215 | with at most 3 ranked coins the losers are the gainers reversed |
| `Dashboard.CryptoDashboard.constructor` | src/CryptoDashboard.jsx:7-24 | the initial state has no coins, no selection and the all-null trend record |
| `Dashboard.CryptoDashboard.FetchTopCoins` | src/CryptoDashboard.jsx:49-75 | on success the coin list is the formatted response, and the first coin is selected if nothing was; on failure nothing changes |
| `Dashboard.CryptoDashboard.FetchMarketTrends` | src/CryptoDashboard.jsx:139-182 | with no selection nothing changes; otherwise the service is called iff the history has >= 2 samples and no NaN, and `marketTrends` becomes `Trends.PublishedTrends` of the history |
| `Dashboard.GaugesBeforeFirstRun` | src/HalfCircleGauge.jsx:1-46 | before the first run every gauge points up, amber, and reads LOADING |
| `Dashboard.GaugesWhenDegraded` | src/HalfCircleGauge.jsx:1-46 | after a degraded run every gauge points up, amber, and reads UNKNOWN |
| `Dashboard.GaugesWithService` | src/HalfCircleGauge.jsx:1-6 | with the real service, a usable history points every gauge left or right, never up |

## Left out

- Network I/O is not modelled: the CoinGecko, CryptoPanic and proxy requests and the `/predict` POST. Their outcomes are inputs (`Result` values and the service function).
- The coin-info fetch (`fetchData`) and the news fetch (`fetchNews`) are left out: each is a request followed by a state write, with no logic.
- The price fetch (`fetchCoinPrices`) is left out for the same reason. Its result, the `coinPrices` map, is a parameter of the ranking functions.
- The 300 ms search and selection debounces (`setTimeout`/`clearTimeout`) are left out, and so is the `pendingCoin` state they drive. Timing belongs to the React runtime.
- Effect scheduling and out-of-order completion of async effects are left out. The code has no staleness guard, and none is modelled.
- The FastAPI app, the CORS middleware and pydantic's request validation are left out.
- `Trends.Service`: a NaN in a posted window stands for every body pydantic would refuse, and such a request is modelled as a failed call. How the real stack encodes and answers NaN is not modelled. The client never posts one (`Trends.ServedWindows`).
- Dark mode, localStorage, the sidebar, the chart iframe, the news list, all JSX layout, `InsightRow` and `TopMoversList` are presentation only.
- The pointer's trigonometric coordinates and the number formatting (`toFixed`, `toLocaleString`) are floating-point rendering.
- `Trends.Sample`: only NaN is modelled as a non-number. What `isNaN` does with `null` or strings is not modelled, and neither is the Python service's comparison of NaN values.
- `Trends.TrendRecord`: a reply is modelled as an object whose fields are strings or null. Other JSON shapes are not modelled.
- `Builtins.ToUpper`: maps ASCII letters only. JavaScript's `toUpperCase` is full Unicode and can even change a string's length, for example ß becomes SS. `Builtins.LowerOfUpper` and `Markets.QueryCaseIgnored` hold only under this limit: in JavaScript "ß" upper-cases to "SS" and lower-cases back to "ss", so the queries "ß" and "SS" filter differently.
- `Builtins.ToLower`: maps ASCII letters only. JavaScript's `toLowerCase` is full Unicode, and İ becomes a two-character string. `Builtins.LowerOfUpper` and `Markets.QueryCaseIgnored` depend on this limit too.
- `Markets.SortByChange`: does not state the order among coins with equal change. Array sort is stable, and this insertion sort keeps equal coins in their input order, but no lemma proves that. A change that is not a number, which would make the comparator return NaN, is not modelled.
- `Dashboard.CryptoDashboard.FetchTopCoins`: the effect runs once at mount, and its closure sees the first render's `selectedCoin`, which is always null. The model reads the field instead, and the field is null at mount too. The `setPendingCoin` call belongs to the debounce and is not modelled.
- The history request's coin id and day count (`selectedCoin.id`, 30) are not recorded by the model. The history response is taken as given for the current selection.
