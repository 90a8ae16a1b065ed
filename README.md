# crypto-api price services in Dafny

This project models the price services of crypto-api, a small proxy that
answers "what is this coin worth" and "how much of B is this amount of A". The
model covers:

- **services/coingecko.py.** It resolves a ticker to a CoinGecko id through a
  cache, the `/search` endpoint and the `/coins/list` endpoint. It caches
  `/simple/price` replies by key. `convert_currency` classifies the pair
  against a fixed fiat set and prices it in one of three ways: crypto to
  crypto via USD, crypto to fiat directly, or fiat to crypto inverted.
- **services/marketcap.py.** It makes one CoinMarketCap price-conversion
  attempt. When that attempt yields no price, it falls back to CoinPaprika, which resolves ids from
  the full coin list and prices with tickers.
- **services/coins.py.** This is the list of active CoinPaprika coins.
- **services/kraken.py, services/kucoin.py, services/coinbase.py.** These hold
  each exchange's symbol rewrite and the way it reads a price out of the reply.

Two support modules model the Python the services lean on:

- `PyStrings` covers `lower`, `upper`, `strip`, `startswith`, `endswith` and
  `replace`.
- `PyJson` covers decoded JSON values, plus `dict.get`, subscripting, `in`,
  iteration, `float` and `/`. Each of these raises the exception Python would
  raise on a value of the wrong shape. A computation is a `Py<T>`: a value,
  or the exception in flight.

Design choices:

- **The network is a parameter.** It is a function from request to decoded
  body. `JNull` stands for the `None` that `_fetch_json` returns on any
  failure.
- **Requests are recorded.** Every operation returns the list of requests it
  made, so "no fetch" means an empty list.
- **Module-level caches are classes.** The caches are fields of a class
  (`CoinGecko.Service`, `MarketCap.Service`). Each method there is proved to
  equal a specification function. The properties are proved about those
  functions in `CoinGeckoFacts` and `MarketCapFacts`.
- **Parsing is a parameter.** Python's parsing of text to `float` is the
  `parse` parameter of the exchange modules.

## Model

| member | source | states |
|---|---|---|
| PyStrings.Lower | services/coingecko.py:38 | `lower()` keeps the length, leaves no upper-case letter, keeps every other character, and turns each capital into its own small letter |
| PyStrings.Upper | services/marketcap.py:61-62 | `upper()` keeps the length, leaves no small letter, keeps every other character, and turns each small letter into its own capital |
| PyStrings.LowerUpper | services/marketcap.py:37 | lower-casing an upper-cased symbol gives the same as lower-casing the symbol, so the upper-cased symbols `convert_currency` passes to `get_coin_id` look up the same cache key |
| PyStrings.LowerLower | services/coingecko.py:38 | lower-casing twice is lower-casing once, so `get_coin_id(f)` on the already lower-cased `f` uses `f` itself |
| PyStrings.UpperUpper | services/coingecko.py:161 | upper-casing twice is upper-casing once |
| PyStrings.LowerOfEmpty | services/coingecko.py:36-38 | a symbol is empty exactly when its lower-cased form is, so the emptiness test can be read before or after lowering |
| PyStrings.StripUpper | services/marketcap.py:61-62 | `upper().strip()` equals `strip().upper()` |
| PyStrings.ReplaceAllKeepsSuffix | services/kucoin.py:6-7 | replacing `USDT` in a symbol that ends with `USDT` gives a string ending with the replacement, because `USDT` cannot overlap itself |
| PyJson.Lookup | services/coingecko.py:45 | a key is missing exactly when no member of the object has that name |
| PyJson.LookupLastWins | services/coingecko.py:45 | when a name is repeated, the member after which no other has that name gives the value, so the last one wins, as `json.loads` does |
| PyJson.Div | services/coingecko.py:158 | division succeeds exactly when the divisor is non-zero (otherwise `ZeroDivisionError`), and the quotient times the divisor is the dividend |
| PyJson.FirstMatchFrom | services/coingecko.py:70-74 | the match the symbol loop reports is a position of the list at or after the starting point |
| PyJson.ScanForSymbol | services/marketcap.py:45-49 | the `for coin in data` loop, stopping at the first coin whose lower-cased `symbol` equals the query, returns exactly `FirstMatchFrom` from position 0 |
| PyJson.FirstMatchIsFirst | services/marketcap.py:45-49 | on a list of objects with string or missing symbols, the loop cannot raise; it finds the first matching entry, and it reports no match exactly when no entry matches |
| PyJson.NonObjectStopsScan | services/coingecko.py:70-71 | an entry that is not an object, reached before any match, raises `AttributeError` (`str` and `list` have no `get`) |
| PyJson.ContainsThenIndex | services/coingecko.py:150-154 | on a dict, `k in data` holds exactly when `data[k]` succeeds |
| PyJson.SymbolIsTotal | services/coingecko.py:51 | the symbol test cannot raise on an object whose `symbol` is missing or a string |
| CoinGecko.ScanSearch | services/coingecko.py:47-58 | the `best`/`best_rank` loop over `/search` candidates computes `SearchPick`, whose choice is characterised by the two lemmas below |
| CoinGeckoFacts.SearchPicksFirstUnrankedMatch | services/coingecko.py:51-55 | the first exact symbol match without `market_cap_rank` is chosen, whatever ranks the matches before it carry |
| CoinGeckoFacts.SearchPicksLowestRank | services/coingecko.py:49-58 | when every match is ranked, the choice is a match with the smallest rank, and every earlier match has a strictly larger rank (ties keep the first); nothing is chosen exactly when nothing matches |
| CoinGeckoFacts.NoMatchTakesFirstCandidate | services/coingecko.py:59-65 | with no exact match, the search step still returns the first candidate's id, although its symbol differs from the query |
| CoinGeckoFacts.ResolveWithoutFetch | services/coingecko.py:36-40 | an empty symbol gives `None`, and a cached symbol gives its cached id; neither makes a request or changes the cache |
| CoinGeckoFacts.ResolveFetchesListOnlyAfterSearch | services/coingecko.py:43-74 | the requests are nothing, `/search` alone, or `/search` then `/coins/list`; there are none exactly when the symbol is empty or cached; `/coins/list` is asked exactly when the search step produced no truthy id |
| CoinGeckoFacts.ResolveCacheInvariant | services/coingecko.py:39-74 | the cache only grows, by the queried symbol at most; every truthy id returned is cached; whatever is cached for the symbol is what was returned, including a `None` saved by the list step |
| CoinGeckoFacts.ResolveAgainIsFetchFree | services/coingecko.py:39-40 | once a symbol is cached, resolving it again makes no request and returns the same id, whatever the network does |
| CoinGeckoFacts.ListStepTakesFirstMatch | services/coingecko.py:67-77 | when `/search` yields no id, a list of coins gives the `id` of the first case-insensitive symbol match, cached even when it is `None`, after which the symbol is answered from the cache with no request; with no match the answer is `None` and nothing is cached |
| CoinGeckoFacts.ResolveIgnoresCase | services/coingecko.py:38 | a symbol and its upper-case form resolve identically: same id, same cache, same requests |
| CoinGecko.Service.constructor | services/coingecko.py:10-13 | both caches start empty |
| CoinGecko.Service.GetCoinId | services/coingecko.py:31-77 | `get_coin_id` returns `Resolve` on the old cache and leaves the new cache and request log it gives; a cached symbol is answered from the cache with no request; the price cache is untouched |
| CoinGecko.Service.SimplePriceOf | services/coingecko.py:80-93 | `_simple_price` returns `LookupPrice` on the old price cache; a cached key is answered with no request; the id cache is untouched |
| CoinGeckoFacts.PriceCacheBehaviour | services/coingecko.py:86-93 | a cached `ids\|vs` key is answered from the cache with no request; any other key makes exactly one `/simple/price` request, and its reply is stored exactly when it is not `None` |
| CoinGeckoFacts.PriceKeyKeepsOrder | services/coingecko.py:86 | for id lists without the separator bar, two calls share a cache entry exactly when both lists are equal, so the same ids in another order are a different entry |
| CoinGeckoFacts.PriceKeyExample | services/coingecko.py:86 | an example: `a,b` and `b,a` with `usd` are two cache entries |
| CoinGecko.CryptoToCrypto | services/coingecko.py:142-164 | every reply is well formed (upper-cased symbols, the amount, `converted == amount * rate`, the trace only under `debug`); its only failure codes are `no_price_usd` and `missing_usd_prices` |
| CoinGecko.CryptoToFiat | services/coingecko.py:167-181 | every reply is well formed; its only failure code is `no_rate_crypto_to_fiat` |
| CoinGecko.FiatToCrypto | services/coingecko.py:184-202 | every reply is well formed; its only failure codes are `no_rate_fiat_to_crypto` and `zero_price` |
| CoinGeckoFacts.CryptoToCryptoOutcomes | services/coingecko.py:150-156 | on a dict payload, a missing id entry gives `no_price_usd`, and a falsy USD price on either side gives `missing_usd_prices` |
| CoinGeckoFacts.CryptoToCryptoPriced | services/coingecko.py:153-164 | two non-zero numeric USD prices `pf`, `pt` give rate `pf/pt` and `converted = amount * pf/pt` |
| CoinGeckoFacts.CryptoToFiatOutcomes | services/coingecko.py:173-174 | on a dict payload, a missing id entry or a missing fiat quote gives `no_rate_crypto_to_fiat` |
| CoinGeckoFacts.CryptoToFiatPriced | services/coingecko.py:176-181 | a numeric quote `q` in the target fiat is the rate as it is (zero included) and `converted = amount * q` |
| CoinGeckoFacts.FalsyPayloadFails | services/coingecko.py:150-191 | a failed or falsy `/simple/price` payload takes each branch's `if not data` exit: `no_price_usd` crypto to crypto (lines 150-151), `no_rate_crypto_to_fiat` crypto to fiat (lines 173-174), `no_rate_fiat_to_crypto` fiat to crypto (lines 190-191) |
| CoinGeckoFacts.FiatToCryptoOutcomes | services/coingecko.py:190-202 | a missing entry or quote gives `no_rate_fiat_to_crypto`; a price equal to 0 gives `zero_price`, never a division fault; any other number `p` gives rate `1/p` and `converted = amount/p` |
| CoinGecko.Service.ResolveSideOf | services/coingecko.py:128-139 | a crypto side is resolved with `get_coin_id`; a fiat side has no id, no request and no cache change |
| CoinGecko.Service.PriceAndConvert | services/coingecko.py:141-205 | the branch after id resolution returns `PriceStage` on the old price cache, with its new cache and requests; the id cache is untouched |
| CoinGecko.Service.ConvertCurrency | services/coingecko.py:96-205 | `convert_currency` returns `Convert` on the two old caches and leaves both new caches and the request log it gives |
| CoinGeckoFacts.NoAmountNoWork | services/coingecko.py:103-104 | a `None` amount returns `None` at once: no request, no cache change |
| CoinGeckoFacts.FiatPairRejected | services/coingecko.py:123-125 | two fiat sides fail with `fiat->fiat not supported` (with `debug`) or `None`, before any request and with both caches untouched |
| CoinGeckoFacts.MissingIdsBeforePriceFetch | services/coingecko.py:142-144 | crypto to crypto with either id unresolved fails with `missing_ids` (or `None`); no `/simple/price` request is made and the price cache is untouched |
| CoinGeckoFacts.MissingFromIdBeforePriceFetch | services/coingecko.py:167-169 | crypto to fiat with the coin's id unresolved fails with `missing_from_id` (or `None`); no `/simple/price` request is made and the price cache is untouched |
| CoinGeckoFacts.MissingToIdBeforePriceFetch | services/coingecko.py:184-186 | fiat to crypto with the coin's id unresolved fails with `missing_to_id` (or `None`); no `/simple/price` request is made and the price cache is untouched |
| CoinGeckoFacts.ConvertRepliesWellFormed | services/coingecko.py:96-205 | every reply of a call with an amount is well formed: a success carries the caller's symbols upper-cased, the amount and `converted == amount * rate`; a failure is `None` without `debug` and an error dict with it |
| CoinGeckoFacts.PriceStageWellFormed | services/coingecko.py:141-202 | every reply of the pricing stage is well formed |
| CoinGeckoFacts.PriceStageCodes | services/coingecko.py:141-202 | once a crypto side is involved, the only failure codes are the eight branch codes |
| CoinGeckoFacts.NeverUnsupportedCase | services/coingecko.py:204-205 | the four classifications cover every pair, so `unsupported_case` is never returned |
| CoinGeckoFacts.BranchesEraseDebug | services/coingecko.py:142-202 | each branch's reply without `debug` is its reply with `debug`, with the trace removed and error dicts turned into `None` |
| CoinGeckoFacts.DebugOnlyChangesPresentation | services/coingecko.py:96-205 | `debug` changes only the presentation: the same requests, the same caches, and the same reply once the trace is removed |
| CoinGeckoFacts.PriceStageIgnoresTrace | services/coingecko.py:141-202 | without `debug` the pricing stage depends on the symbols only through their upper-case forms, and not on the trace |
| CoinGeckoFacts.ConvertIgnoresCase | services/coingecko.py:106-107 | without `debug`, upper-casing both symbols changes neither the reply, nor the caches, nor the requests |
| CoinGeckoFacts.BtcToEthFromCache | services/coingecko.py:142-164 | 2 BTC to ETH, with both ids and the payload cached (BTC 50000 USD, ETH 2500 USD), gives rate 20 and 40 with no request |
| CoinGeckoFacts.UsdToBtcFromCache | services/coingecko.py:184-202 | 1000 USD to BTC, with the id and the quote cached (BTC 50000 USD), gives rate 0.00002 and 0.02 with no request |
| MarketCap.Service.constructor | services/marketcap.py:17 | the id cache starts empty |
| MarketCap.Service.GetCoinId | services/marketcap.py:35-50 | `get_coin_id` returns `Resolve` on the old id cache and leaves the new cache and request log it gives; a cached symbol is answered with no request and no cache change |
| MarketCapFacts.ResolveWithoutFetch | services/marketcap.py:37-39 | a cached symbol, in any case, is answered from the cache with no request |
| MarketCapFacts.ResolveCacheInvariant | services/marketcap.py:37-50 | at most one request, none exactly when the symbol is cached; the cache is unchanged or gains the lower-cased symbol with the id returned |
| MarketCapFacts.ResolveAgainIsFetchFree | services/marketcap.py:38-39 | once cached, asking again makes no request and gives the same answer |
| MarketCapFacts.ResolveTakesFirstMatch | services/marketcap.py:45-50 | on a list of objects with string symbols, the id of the first matching coin is returned and cached, `None` included; with no match the answer is `None` and nothing is cached |
| MarketCapFacts.FalsyListingIsNone | services/marketcap.py:41-43 | a failed `/coins` fetch or an empty list answers `None` after the one request and caches nothing |
| MarketCapFacts.ObjectListingRaises | services/marketcap.py:45-46 | a coin list that arrives as a non-empty dict is iterated by key, and a key has no `get`: `AttributeError` escapes, nothing is cached |
| MarketCap.CmcRate | services/marketcap.py:81-89 | when the CoinMarketCap payload gives a price, the amount is non-zero and `rate * amount == converted`, where `converted` is the price itself |
| MarketCapFacts.CmcPriceGivesRate | services/marketcap.py:79-92 | a price `p` at `data.quote[to].price`, for a non-zero amount, gives rate `p/amount` and converted `p` |
| MarketCapFacts.CmcListPayloadIsCaught | services/marketcap.py:79-94 | a `data` that is a list (the shape of the v2 endpoint) fails inside the `try`, and the attempt is caught |
| MarketCapFacts.ZeroAmountIsNeverPriced | services/marketcap.py:87-94 | an amount of 0 divides by zero inside the `try`, so CoinMarketCap never prices it |
| MarketCapFacts.CmcAttemptEnds | services/marketcap.py:79-94 | only the `"data" in cmc_data` test outside the `try` can raise out of the attempt; a falsy payload or one without `data` is skipped; any exception in the `try` body is caught; otherwise the price read there is the answer |
| MarketCapFacts.NumericCmcPayloadRaises | services/marketcap.py:76-79 | `"data" in cmc_data` is outside the `try`: any non-zero number as payload raises `TypeError` out of `convert_currency` after one request, with the cache untouched |
| MarketCapFacts.NoFiatToCrypto | services/marketcap.py:105-146 | there is no fiat-to-crypto case: without a truthy `from_id` the fallback answers `conversion_not_available` with no ticker request |
| MarketCapFacts.FiatTickerPrices | services/marketcap.py:109-123 | a ticker quote `q` in the fiat target is the rate, and `converted = amount * q` |
| MarketCapFacts.MissingQuotesRaises | services/marketcap.py:131-132 | the crypto-to-crypto path reads `quotes.USD.price` unguarded, so a missing `quotes` raises `KeyError` |
| MarketCapFacts.ZeroTargetPriceRaises | services/marketcap.py:133 | a target USD price of 0 raises `ZeroDivisionError`, which nothing catches |
| MarketCapFacts.UsdPricesGiveRatio | services/marketcap.py:130-134 | two numeric USD prices, the target's non-zero, give their ratio as the rate |
| MarketCapFacts.ToFiatWellFormed | services/marketcap.py:109-123 | the crypto-to-fiat case only requests tickers, and a success is `PricedAt` some rate (`converted = amount * rate`) |
| MarketCapFacts.ToCryptoWellFormed | services/marketcap.py:126-144 | the crypto-to-crypto case only requests tickers, and a success is `PricedAt` some rate |
| MarketCapFacts.PaprikaWellFormed | services/marketcap.py:105-146 | the fallback's pricing stage only requests tickers, and every reply is well formed with the trace it was given or none |
| MarketCap.Service.PriceWithIds | services/marketcap.py:105-146 | the two CoinPaprika cases, once both ids are known, give `Paprika`'s reply, or `conversion_not_available` when both fall through |
| MarketCap.Service.RunFallback | services/marketcap.py:96-146 | from the fallback's first line, the method returns `Fallback` on the old id cache, with the new cache and requests it gives |
| MarketCap.Service.ConvertCurrency | services/marketcap.py:55-146 | `convert_currency` returns `Convert` on the old id cache, with the new cache and requests it gives |
| MarketCapFacts.ConvertRepliesWellFormed | services/marketcap.py:55-146 | every reply carries the normalised symbols and the amount; a conversion has `converted == amount * rate` and a trace exactly under `debug`; an error is `conversion_not_available` from the fallback; every trace records the path that ran: `attempts` is CoinMarketCap alone and `fallback_used` is false exactly when CoinMarketCap gave the price, and otherwise CoinMarketCap then CoinPaprika with `fallback_used` set and both ids; the error note is present exactly when the `try` body was caught |
| MarketCapFacts.NoCmcPriceRunsFallback | services/marketcap.py:76-98 | when CoinMarketCap gives no price and nothing escapes, the call is the fallback's reply, cache and requests after the one CoinMarketCap request, with the error note only when the `try` body was caught |
| MarketCapFacts.UnreachableCmcFallsBack | services/marketcap.py:76-79 | a failed CoinMarketCap fetch (`None`) is skipped with no error note, and the call is exactly the fallback |
| MarketCapFacts.CmcFirstAndOnce | services/marketcap.py:72-98 | CoinMarketCap is asked first and exactly once, with the normalised symbols; a CoinMarketCap price ends the call there with the cache untouched |
| MarketCapFacts.FallbackAsksPaprikaOnly | services/marketcap.py:96-146 | every request the fallback makes goes to CoinPaprika |
| MarketCapFacts.ConvertIgnoresCase | services/marketcap.py:61-62 | symbols are upper-cased first, so upper-casing them beforehand changes nothing: same reply, cache and requests |
| Coins.ActiveFrom | services/coins.py:19-28 | the comprehension never returns more records than there are coins |
| Coins.ActiveIndicesExact | services/coins.py:27 | the reference filter's positions are strictly increasing, and a position is kept exactly when that coin's `is_active` is truthy |
| Coins.ActiveFromSelects | services/coins.py:19-28 | on a list of objects the comprehension cannot fail, and it returns, in order, the projection of exactly the coins the reference filter keeps |
| Coins.GetCoinsSelectsActive | services/coins.py:9-32 | `get_coins` on a list of objects returns the projections of exactly the active coins, in input order, and never more records than the body has coins |
| Coins.ActiveFromKeepsActive | services/coins.py:24-27 | every record returned has a truthy `is_active` |
| Coins.ProjectCopiesFields | services/coins.py:20-26 | `id`, `name`, `symbol` and `type` are copied from the coin, and a missing field becomes `None` |
| Coins.NonObjectEntryEmptiesList | services/coins.py:27 | an entry that is not an object anywhere in the list makes the comprehension raise |
| Coins.FailuresGiveEmptyList | services/coins.py:11-32 | every failure gives `[]`: no body, a body that cannot be iterated, or a non-object entry |
| Coins.ObjectBodyGivesEmptyList | services/coins.py:27-32 | an error payload (a non-empty dict) is iterated by key, and a key has no `get`, so the result is `[]` |
| Kraken.PairPrefixesX | services/kraken.py:7-8 | a symbol starting with `BTC` gets `X` in front, one character longer; any other symbol is used as given |
| Kraken.PairIdempotent | services/kraken.py:7-8 | rewriting twice changes nothing more |
| Kraken.BtcUsdtPair | services/kraken.py:6-8 | `BTCUSDT` is sent as `XBTCUSDT`, not as `XBTUSDT` |
| Kraken.IntendedPairRenamesBtc | services/kraken.py:6 | the rewrite the comment describes keeps the length and the quote currency, puts `XBT` in front, and sends `BTCUSDT` as `XBTUSDT` |
| Kraken.PairMissesIntended | services/kraken.py:6-8 | for every symbol starting with `BTC`, the pair sent differs from the intended one |
| Kraken.PriceOfFirstPair | services/kraken.py:12-14 | the first pair's first last-trade value, when it parses, is the price |
| Kraken.MissingResultIsNone | services/kraken.py:12-16 | a reply without `result`, or with an empty `result`, gives `None` |
| Kraken.MissingTradeIsNone | services/kraken.py:12-16 | an entry without `c`, or with an empty `c`, gives `None` |
| Kraken.UnparsableTradeRaises | services/kraken.py:14-15 | a last-trade text that is not a number raises `ValueError`, which is not caught |
| Kraken.NullReplyRaises | services/kraken.py:11-16 | a `null` reply raises `TypeError`, which is not caught |
| Kraken.PriceNoneIff | services/kraken.py:12-16 | the answer is `None` exactly when the extraction raised `KeyError` or `IndexError` |
| KuCoin.PairKeepsUsdtSuffix | services/kucoin.py:6-7 | a rewritten symbol ends with `-USDT`, so it still ends with `USDT` and now contains a dash |
| KuCoin.PairUnchanged | services/kucoin.py:6-7 | a symbol with a dash, or not ending with `USDT`, is used as given |
| KuCoin.PairIdempotent | services/kucoin.py:6-7 | rewriting twice changes nothing more |
| KuCoin.PairExamples | services/kucoin.py:6-7 | `BTCUSDT` becomes `BTC-USDT`; `replace` rewrites every occurrence, so `USDTUSDT` becomes `-USDT-USDT`; `BTC-USDT` is unchanged |
| KuCoin.PriceOfBook | services/kucoin.py:12-13 | a `data.price` that parses is the answer |
| KuCoin.MissingPriceIsNone | services/kucoin.py:12-15 | a `null` reply, a reply without `data`, a `null` `data` or a `null` price all give `None` |
| KuCoin.UnparsablePriceRaises | services/kucoin.py:13-14 | a price text that is not a number raises `ValueError`, which is not caught |
| KuCoin.PriceNoneIff | services/kucoin.py:12-15 | the answer is `None` exactly when the extraction raised `KeyError` or `TypeError` |
| Coinbase.PairEndsWithUsd | services/coinbase.py:7-8 | a symbol ending with `USDT` becomes a pair ending with `-USD`, which no longer ends with `USDT` |
| Coinbase.PairUnchanged | services/coinbase.py:9-10 | any other symbol is the pair as it is |
| Coinbase.PairIdempotent | services/coinbase.py:7-10 | rewriting twice changes nothing more |
| Coinbase.PairExample | services/coinbase.py:6-8 | `BTCUSDT` becomes `BTC-USD` |
| Coinbase.PriceOfSpot | services/coinbase.py:15 | a `data.amount` that parses is the answer |
| Coinbase.MissingAmountRaises | services/coinbase.py:15 | nothing is caught: a reply without `data` raises `KeyError`, and a `null` reply or `null` amount raises `TypeError` |

## Left out

- HTTP transport, timeouts, status checks and JSON decoding are not modelled. So are `_fetch_json` and `client.get`. A failed fetch and a `null` body both reach the model as `JNull`, as they reach the code as `None`.
- `async`/`await` and concurrency are not modelled. Each call runs alone, and the network is a fixed function for the length of one call. A ticker asked for twice in one call therefore gets the same reply both times.
- Cache expiry (`TTLCache` time-to-live and `maxsize` eviction) is not modelled. The caches are plain maps that never lose an entry, since expiry depends on a clock.
- Floating point is not modelled. Prices and amounts are exact reals, so `converted == amount * rate` holds exactly.
- Parsing text with `float` is not modelled. It is the `parse` parameter.
- CoinGecko.Resolve: an `id` that is not a string (a number, say) is treated as a missing id. The model keeps ids as strings.
- PyStrings.Lower and PyStrings.Upper map ASCII letters only. `IsSpace` follows `str.isspace` only up to U+00FF.
- PyJson.Less: comparing two ranks that are lists or dicts is reported as `TypeError`, without modelling Python's element-wise list comparison.
- PyJson.Number: a `bool` price takes part in arithmetic as 1 or 0, as in Python. The reply then carries the number rather than the `bool`.
- The amount is a real number. Python also accepts an `int` or other types there, with other meanings of `*`, and the model does not follow them.
- The `notes` list in the CoinGecko debug trace is not modelled. Neither are the `coin_usd_raw` slot (the model records the payload as `raw` in every branch) and the `print` in `get_coins`.
- services/marketcap.py's `price_cache` is declared but never used, so it is not modelled. The same holds for the `cache` of services/coins.py.
- Configuration is not modelled: API keys, base URLs and `load_dotenv`. The requests are identified by their endpoint and parameters only.
- `get_binance_price` in services/binance.py is not part of this model. Neither is the routing in main.py.
- `convert_currency` can raise. Examples are a `TypeError` from `"data" in cmc_data` on a numeric payload and a `KeyError` or `ZeroDivisionError` from the unguarded CoinPaprika reads. In these cases callers get an exception, not a reply; the model follows the code and proves where these exceptions arise. Likewise, no reply carries a `source` field, because the code sets none.

## Findings

| source | as written | input that shows it | evidently intended | confidence | as-written member | corrected member |
|---|---|---|---|---|---|---|
| services/kraken.py:6-8 | the rewrite prefixes `X`, keeping `BTC` | `BTCUSDT` is sent as `XBTCUSDT` | `XBTUSDT`, as the comment beside the rewrite says (Kraken's code for bitcoin is `XBT`) | high (the intent is written next to the code); not executed | Kraken.BtcUsdtPair | Kraken.IntendedPairRenamesBtc |
