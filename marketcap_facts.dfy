/**
 * What services/marketcap.py promises, proved about the model in
 * marketcap.dfy: how the id cache behaves, how the CoinMarketCap attempt
 * ends, what the trace records about attempts and the fallback, and what
 * every reply carries.
 */
module MarketCapFacts {
  import opened PyStrings
  import opened PyJson
  import opened MarketCap

  // =====================================================================
  // get_coin_id
  // =====================================================================

  /** A cached symbol, in any case, is answered from the cache without a request. */
  lemma ResolveWithoutFetch(cache: map<string, Json>, symbol: string, net: Net)
    requires Lower(symbol) in cache
    ensures Resolve(cache, symbol, net) == Resolution(Ok(cache[Lower(symbol)]), cache, [])
  {
  }

  /**
   * A lookup makes at most one request, makes none exactly when the symbol
   * is cached, and either leaves the cache alone or adds the lower-cased
   * symbol with the id it returns.
   */
  lemma ResolveCacheInvariant(cache: map<string, Json>, symbol: string, net: Net)
    ensures var r := Resolve(cache, symbol, net);
            && (r.log == [] <==> Lower(symbol) in cache)
            && (r.log == [] || r.log == [PaprikaCoins])
            && (r.cache == cache
                || (Lower(symbol) !in cache && r.id.Ok? && r.cache == cache[Lower(symbol) := r.id.value]))
  {
  }

  /** Once a symbol is cached, asking again costs nothing and gives the same answer. */
  lemma ResolveAgainIsFetchFree(cache: map<string, Json>, symbol: string, net: Net, net2: Net)
    ensures var r := Resolve(cache, symbol, net);
            Lower(symbol) in r.cache ==> Resolve(r.cache, symbol, net2) == Resolution(r.id, r.cache, [])
  {
  }

  /**
   * On a coin list of objects with string symbols, the id returned is the
   * `id` of the first coin whose symbol matches, and it is cached; with no
   * match the answer is `None` and nothing is cached.
   */
  lemma ResolveTakesFirstMatch(cache: map<string, Json>, symbol: string, net: Net, items: seq<Json>)
    requires Lower(symbol) !in cache
    requires net(PaprikaCoins) == JArr(items) && |items| > 0
    requires forall k | 0 <= k < |items| :: Listed(items[k])
    ensures var r := Resolve(cache, symbol, net);
            && r.id.Ok?
            && ((forall k | 0 <= k < |items| :: SymbolIs(items[k], Lower(symbol)) == Ok(false)) ==>
                  r.id == Ok(JNull) && r.cache == cache)
            && (forall j | 0 <= j < |items| ::
                  SymbolIs(items[j], Lower(symbol)) == Ok(true)
                  && (forall k | 0 <= k < j :: SymbolIs(items[k], Lower(symbol)) == Ok(false)) ==>
                  r.id == Ok(IdField(items[j])) && r.cache == cache[Lower(symbol) := IdField(items[j])])
  {
    var s := Lower(symbol);
    FirstMatchIsFirst(items, s);
    var m := FirstMatchFrom(items, s, 0);
    forall j | 0 <= j < |items| && SymbolIs(items[j], s) == Ok(true)
                 && (forall k | 0 <= k < j :: SymbolIs(items[k], s) == Ok(false))
      ensures m == Ok(Some(j))
    {
    }
  }

  /**
   * A failed `/coins` fetch, or an empty list, answers `None` after the one
   * request and caches nothing, so the next call asks again.
   */
  lemma FalsyListingIsNone(cache: map<string, Json>, symbol: string, net: Net)
    requires Lower(symbol) !in cache
    requires !Truthy(net(PaprikaCoins))
    ensures Resolve(cache, symbol, net) == Resolution(Ok(JNull), cache, [PaprikaCoins])
  {
  }

  /**
   * A coin list that arrives as a non-empty object (an error payload, say)
   * is iterated by key, and the first key, a `str`, has no `get`: the
   * lookup raises `AttributeError`, which nothing in the module catches.
   */
  lemma ObjectListingRaises(cache: map<string, Json>, symbol: string, net: Net)
    requires Lower(symbol) !in cache
    requires net(PaprikaCoins).JObj? && |net(PaprikaCoins).fields| > 0
    ensures Resolve(cache, symbol, net) == Resolution(Raise(AttributeError), cache, [PaprikaCoins])
  {
    var items := Iterate(net(PaprikaCoins)).value;
    assert items[0].JStr?;
    NonObjectStopsScan(items, Lower(symbol), 0, 0);
  }

  // =====================================================================
  // The CoinMarketCap attempt
  // =====================================================================

  /** A CoinMarketCap price `p` for a non-zero amount gives rate `p / amount` and converts to `p`. */
  lemma CmcPriceGivesRate(cmc: Json, to: string, amount: real, p: real)
    requires Truthy(cmc) && cmc.JObj?
    requires Index(cmc, "data").Ok? && Index(Index(cmc, "data").value, "quote").Ok?
    requires var quotes := Index(Index(cmc, "data").value, "quote").value;
             Index(quotes, to).Ok? && Index(Index(quotes, to).value, "price") == Ok(JNum(p))
    requires amount != 0.0
    ensures CmcAttempt(cmc, to, amount) == Ok(Priced(p / amount, p))
  {
    assert Contains(cmc, "data") == Ok(true);
  }

  /**
   * CoinMarketCap's v2 endpoint answers with a list under `data`; indexing
   * that list with `"quote"` raises inside the `try`, so the attempt is
   * caught and the fallback runs.
   */
  lemma CmcListPayloadIsCaught(cmc: Json, to: string, amount: real, entries: seq<Json>)
    requires cmc.JObj? && Lookup(cmc.fields, "data") == Some(JArr(entries))
    ensures CmcAttempt(cmc, to, amount) == Ok(Caught)
  {
    assert Contains(cmc, "data") == Ok(true);
    assert CmcRate(cmc, to, amount) == Raise(TypeError);
  }

  /**
   * The attempt's four ends. Only the membership test `"data" in cmc_data`,
   * outside the `try`, can raise out of it. A falsy payload or one without
   * `data` is skipped. Any exception in the `try` body is caught, and
   * otherwise its price is the answer.
   */
  lemma CmcAttemptEnds(cmc: Json, to: string, amount: real)
    ensures CmcAttempt(cmc, to, amount).Raise? <==> Truthy(cmc) && Contains(cmc, "data").Raise?
    ensures !Truthy(cmc) || Contains(cmc, "data") == Ok(false) ==> CmcAttempt(cmc, to, amount) == Ok(Skipped)
    ensures Truthy(cmc) && Contains(cmc, "data") == Ok(true) && CmcRate(cmc, to, amount).Raise? ==>
            CmcAttempt(cmc, to, amount) == Ok(Caught)
    ensures Truthy(cmc) && Contains(cmc, "data") == Ok(true) && CmcRate(cmc, to, amount).Ok? ==>
            CmcAttempt(cmc, to, amount)
            == Ok(Priced(CmcRate(cmc, to, amount).value.0, CmcRate(cmc, to, amount).value.1))
  {
  }

  /** An amount of zero divides by zero inside the `try`: a payload with `data` is never priced. */
  lemma ZeroAmountIsNeverPriced(cmc: Json, to: string)
    ensures !(CmcAttempt(cmc, to, 0.0).Ok? && CmcAttempt(cmc, to, 0.0).value.Priced?)
  {
  }

  /**
   * The membership test `"data" in cmc_data` is outside the `try`: a truthy
   * number as the payload raises `TypeError` out of `convert_currency`,
   * after the one request and with the cache untouched.
   */
  lemma NumericCmcPayloadRaises(cache: map<string, Json>, fromSymbol: string, toSymbol: string, amount: real,
                                debug: bool, net: Net)
    requires net(PriceConversion(amount, Strip(Upper(fromSymbol)), Strip(Upper(toSymbol)))).JNum?
    requires net(PriceConversion(amount, Strip(Upper(fromSymbol)), Strip(Upper(toSymbol)))).n != 0.0
    ensures Convert(cache, fromSymbol, toSymbol, amount, debug, net)
            == Outcome(Raise(TypeError), cache, [PriceConversion(amount, Strip(Upper(fromSymbol)), Strip(Upper(toSymbol)))])
  {
  }

  // =====================================================================
  // The CoinPaprika fallback
  // =====================================================================

  /**
   * There is no fiat-to-crypto case: without a truthy `from_id` the fallback
   * answers `conversion_not_available` whatever the target, without a
   * ticker request.
   */
  lemma NoFiatToCrypto(from: string, to: string, amount: real, debug: bool, fromId: Json, toId: Json,
                       tr: Trace, net: Net)
    requires !Truthy(fromId)
    ensures Paprika(from, to, amount, debug, fromId, toId, tr, net) == Step(Ok(Some(Failed(NOT_AVAILABLE, tr))), [])
  {
  }

  /** A ticker quote `q` in the fiat target is the rate, and the amount is multiplied by it. */
  lemma FiatTickerPrices(from: string, to: string, amount: real, debug: bool, fromId: Json, tr: Trace, net: Net,
                         quotes: Json, q: real)
    requires Truthy(fromId) && Lower(to) in FIATS
    requires var data := net(Ticker(fromId));
             data.JObj? && Lookup(data.fields, "quotes") == Some(quotes)
    requires quotes.JObj? && Lookup(quotes.fields, to).Some?
    requires Index(Lookup(quotes.fields, to).value, "price") == Ok(JNum(q))
    ensures ToFiat(from, to, amount, debug, fromId, tr, net)
            == Step(Ok(Some(PricedAt(from, to, amount, q, debug, tr))), [Ticker(fromId)])
  {
    var data := net(Ticker(fromId));
    assert Truthy(data);
    assert Contains(data, "quotes") == Ok(true);
    assert Contains(quotes, to) == Ok(true);
    assert FiatQuote(data, to) == Ok(Some(q));
  }

  /** The crypto-to-crypto path reads `quotes.USD.price` unguarded: a missing `quotes` raises `KeyError`. */
  lemma MissingQuotesRaises(fromData: Json, toData: Json)
    requires UsdPrice(fromData).Ok?
    requires toData.JObj? && Lookup(toData.fields, "quotes").None?
    ensures CryptoRate(fromData, toData) == Raise(KeyError)
  {
  }

  /** A USD price of zero for the target coin raises `ZeroDivisionError`, which nothing catches. */
  lemma ZeroTargetPriceRaises(fromData: Json, toData: Json, p: real)
    requires UsdPrice(fromData) == Ok(JNum(p))
    requires UsdPrice(toData) == Ok(JNum(0.0))
    ensures CryptoRate(fromData, toData) == Raise(ZeroDivisionError)
  {
  }

  /** Two numeric USD prices, the target's non-zero, give their ratio as the rate. */
  lemma UsdPricesGiveRatio(fromData: Json, toData: Json, pf: real, pt: real)
    requires UsdPrice(fromData) == Ok(JNum(pf))
    requires UsdPrice(toData) == Ok(JNum(pt)) && pt != 0.0
    ensures CryptoRate(fromData, toData) == Ok(pf / pt)
  {
  }

  // =====================================================================
  // convert_currency
  // =====================================================================

  /** The trace a reply carries, if any. */
  function TraceOf(r: Reply): Option<Trace> {
    match r
    case Converted(_, _, _, _, _, debug) => debug
    case Failed(_, tr) => Some(tr)
  }

  /**
   * What every reply promises: the normalised symbols and the amount;
   * a conversion has `converted == amount * rate` and carries the trace
   * exactly under `debug`; an error is `conversion_not_available` and comes
   * from the fallback.
   */
  ghost predicate WellFormed(r: Reply, from: string, to: string, amount: real, debug: bool) {
    match r
    case Converted(f, t, a, rate, converted, tr) =>
      f == from && t == to && a == amount && converted == amount * rate && (tr.Some? <==> debug)
    case Failed(error, tr) =>
      error == NOT_AVAILABLE && tr.from == from && tr.to == to && tr.amount == amount && tr.fallbackUsed
  }

  /**
   * The trace's record of the attempts: CoinMarketCap alone and no fallback,
   * or CoinMarketCap then CoinPaprika with `fallback_used` set and both ids
   * recorded. `fallback_used` is set exactly when CoinPaprika was tried.
   */
  ghost predicate AttemptsRecorded(tr: Trace) {
    || (tr.attempts == [CoinMarketCap] && !tr.fallbackUsed && tr.errorCmc.None? && tr.fromId.None? && tr.toId.None?)
    || (tr.attempts == [CoinMarketCap, CoinPaprika] && tr.fallbackUsed && tr.fromId.Some? && tr.toId.Some?)
  }

  lemma ToFiatWellFormed(from: string, to: string, amount: real, debug: bool, fromId: Json, tr: Trace, net: Net)
    ensures var p := ToFiat(from, to, amount, debug, fromId, tr, net);
            && (forall i | 0 <= i < |p.log| :: p.log[i].Ticker?)
            && (p.result.Ok? && p.result.value.Some? ==>
                  exists rate :: p.result.value.value == PricedAt(from, to, amount, rate, debug, tr))
  {
    var p := ToFiat(from, to, amount, debug, fromId, tr, net);
    if p.result.Ok? && p.result.value.Some? {
      var rate := FiatQuote(net(Ticker(fromId)), to).value.value;
      assert p.result.value.value == PricedAt(from, to, amount, rate, debug, tr);
    }
  }

  lemma ToCryptoWellFormed(from: string, to: string, amount: real, debug: bool, fromId: Json, toId: Json,
                           tr: Trace, net: Net)
    ensures var p := ToCrypto(from, to, amount, debug, fromId, toId, tr, net);
            && (forall i | 0 <= i < |p.log| :: p.log[i].Ticker?)
            && (p.result.Ok? && p.result.value.Some? ==>
                  exists rate :: p.result.value.value == PricedAt(from, to, amount, rate, debug, tr))
  {
    var p := ToCrypto(from, to, amount, debug, fromId, toId, tr, net);
    if p.result.Ok? && p.result.value.Some? {
      var rate := CryptoRate(net(Ticker(fromId)), net(Ticker(toId))).value;
      assert p.result.value.value == PricedAt(from, to, amount, rate, debug, tr);
    }
  }

  /** The fallback's price stage asks only for tickers, and what it answers is well formed. */
  lemma PaprikaWellFormed(from: string, to: string, amount: real, debug: bool, fromId: Json, toId: Json,
                          tr: Trace, net: Net)
    requires tr.from == from && tr.to == to && tr.amount == amount && tr.fallbackUsed
    ensures var p := Paprika(from, to, amount, debug, fromId, toId, tr, net);
            && (forall i | 0 <= i < |p.log| :: p.log[i].Ticker?)
            && (p.result.Ok? && p.result.value.Some? ==>
                  WellFormed(p.result.value.value, from, to, amount, debug)
                  && TraceOf(p.result.value.value) in {None, Some(tr)})
  {
    if Truthy(fromId) || Truthy(toId) {
      var fiat := ToFiat(from, to, amount, debug, fromId, tr, net);
      ToFiatWellFormed(from, to, amount, debug, fromId, tr, net);
      if fiat.result.Ok? && fiat.result.value.Some? {
        var rate :| fiat.result.value.value == PricedAt(from, to, amount, rate, debug, tr);
        PricedAtWellFormed(from, to, amount, rate, debug, tr);
      } else if fiat.result.Ok? {
        var crypto := ToCrypto(from, to, amount, debug, fromId, toId, tr, net);
        ToCryptoWellFormed(from, to, amount, debug, fromId, toId, tr, net);
        if crypto.result.Ok? && crypto.result.value.Some? {
          var rate :| crypto.result.value.value == PricedAt(from, to, amount, rate, debug, tr);
          PricedAtWellFormed(from, to, amount, rate, debug, tr);
        }
      }
    }
  }

  /** A fallback price is well formed and carries the fallback's trace exactly under `debug`. */
  lemma PricedAtWellFormed(from: string, to: string, amount: real, rate: real, debug: bool, tr: Trace)
    requires tr.from == from && tr.to == to && tr.amount == amount && tr.fallbackUsed
    ensures WellFormed(PricedAt(from, to, amount, rate, debug, tr), from, to, amount, debug)
    ensures TraceOf(PricedAt(from, to, amount, rate, debug, tr)) == (if debug then Some(tr) else None)
  {
  }

  /**
   * Every reply `convert_currency` gives is well formed, and its trace
   * records the path that ran: `attempts == ["coinmarketcap"]` without
   * `fallback_used` exactly when CoinMarketCap gave the price, and the
   * CoinMarketCap error note exactly when its `try` body was caught.
   */
  lemma ConvertRepliesWellFormed(cache: map<string, Json>, fromSymbol: string, toSymbol: string, amount: real,
                                 debug: bool, net: Net)
    ensures var o := Convert(cache, fromSymbol, toSymbol, amount, debug, net);
            var a := CmcAttempt(net(PriceConversion(amount, Strip(Upper(fromSymbol)), Strip(Upper(toSymbol)))),
                                Strip(Upper(toSymbol)), amount);
            o.reply.Ok? ==>
            && WellFormed(o.reply.value, Strip(Upper(fromSymbol)), Strip(Upper(toSymbol)), amount, debug)
            && (TraceOf(o.reply.value).Some? ==>
                  && AttemptsRecorded(TraceOf(o.reply.value).value)
                  && (TraceOf(o.reply.value).value.fallbackUsed <==> !(a.Ok? && a.value.Priced?))
                  && (TraceOf(o.reply.value).value.attempts == [CoinMarketCap] <==> a.Ok? && a.value.Priced?)
                  && (TraceOf(o.reply.value).value.errorCmc == Some(CMC_ERROR) <==> a == Ok(Caught)))
  {
    var from := Strip(Upper(fromSymbol));
    var to := Strip(Upper(toSymbol));
    var req := PriceConversion(amount, from, to);
    var a := CmcAttempt(net(req), to, amount);
    if a.Ok? && !a.value.Priced? {
      var errorCmc := if a.value.Caught? then Some(CMC_ERROR) else None;
      var rf := Resolve(cache, from, net);
      if rf.id.Ok? {
        var rt := Resolve(rf.cache, to, net);
        if rt.id.Ok? {
          var tr := Trace(from, to, amount, [CoinMarketCap, CoinPaprika], true, errorCmc, Some(rf.id.value), Some(rt.id.value));
          PaprikaWellFormed(from, to, amount, debug, rf.id.value, rt.id.value, tr, net);
        }
      }
    }
  }

  /**
   * CoinMarketCap is asked exactly once, first, with the normalised symbols;
   * CoinPaprika is asked only when the fallback runs, and a CoinMarketCap
   * price ends the call there with the cache untouched.
   */
  lemma CmcFirstAndOnce(cache: map<string, Json>, fromSymbol: string, toSymbol: string, amount: real,
                        debug: bool, net: Net)
    ensures var o := Convert(cache, fromSymbol, toSymbol, amount, debug, net);
            var req := PriceConversion(amount, Strip(Upper(fromSymbol)), Strip(Upper(toSymbol)));
            && |o.log| > 0 && o.log[0] == req
            && (forall i | 0 < i < |o.log| :: !o.log[i].PriceConversion?)
            && (CmcAttempt(net(req), Strip(Upper(toSymbol)), amount).Ok?
                && CmcAttempt(net(req), Strip(Upper(toSymbol)), amount).value.Priced? ==>
                  o.log == [req] && o.ids == cache)
  {
    var from := Strip(Upper(fromSymbol));
    var to := Strip(Upper(toSymbol));
    var req := PriceConversion(amount, from, to);
    var a := CmcAttempt(net(req), to, amount);
    if a.Ok? && !a.value.Priced? {
      var errorCmc := if a.value.Caught? then Some(CMC_ERROR) else None;
      var f := Fallback(cache, from, to, amount, debug, errorCmc, net);
      FallbackAsksPaprikaOnly(cache, from, to, amount, debug, errorCmc, net);
      assert Convert(cache, fromSymbol, toSymbol, amount, debug, net).log == [req] + f.log;
    }
  }

  /**
   * Whenever CoinMarketCap gives no price and raises nothing, the call is
   * exactly the fallback: its reply, its cache and its requests after the
   * one CoinMarketCap request, with the error note set only when the `try`
   * body was caught.
   */
  lemma NoCmcPriceRunsFallback(cache: map<string, Json>, fromSymbol: string, toSymbol: string, amount: real,
                               debug: bool, net: Net)
    ensures var from := Strip(Upper(fromSymbol));
            var to := Strip(Upper(toSymbol));
            var req := PriceConversion(amount, from, to);
            var a := CmcAttempt(net(req), to, amount);
            a.Ok? && !a.value.Priced? ==>
              var f := Fallback(cache, from, to, amount, debug, if a.value.Caught? then Some(CMC_ERROR) else None, net);
              Convert(cache, fromSymbol, toSymbol, amount, debug, net) == Outcome(f.reply, f.ids, [req] + f.log)
  {
  }

  /**
   * An unreachable CoinMarketCap (the fetch failed, so the payload is
   * `None`) is skipped without an error note: the call is the fallback.
   */
  lemma UnreachableCmcFallsBack(cache: map<string, Json>, fromSymbol: string, toSymbol: string, amount: real,
                                debug: bool, net: Net)
    requires net(PriceConversion(amount, Strip(Upper(fromSymbol)), Strip(Upper(toSymbol)))) == JNull
    ensures var from := Strip(Upper(fromSymbol));
            var to := Strip(Upper(toSymbol));
            var f := Fallback(cache, from, to, amount, debug, None, net);
            Convert(cache, fromSymbol, toSymbol, amount, debug, net)
            == Outcome(f.reply, f.ids, [PriceConversion(amount, from, to)] + f.log)
  {
  }

  /** Every request the fallback makes goes to CoinPaprika. */
  lemma FallbackAsksPaprikaOnly(cache: map<string, Json>, from: string, to: string, amount: real, debug: bool,
                                errorCmc: Option<string>, net: Net)
    ensures var f := Fallback(cache, from, to, amount, debug, errorCmc, net);
            forall i | 0 <= i < |f.log| :: !f.log[i].PriceConversion?
  {
    var rf := Resolve(cache, from, net);
    ResolveCacheInvariant(cache, from, net);
    if rf.id.Ok? {
      var rt := Resolve(rf.cache, to, net);
      ResolveCacheInvariant(rf.cache, to, net);
      if rt.id.Ok? {
        var tr := Trace(from, to, amount, [CoinMarketCap, CoinPaprika], true, errorCmc, Some(rf.id.value), Some(rt.id.value));
        PaprikaWellFormed(from, to, amount, debug, rf.id.value, rt.id.value, tr, net);
      }
    }
  }

  /** Symbols are upper-cased before use, so their case never matters. */
  lemma ConvertIgnoresCase(cache: map<string, Json>, fromSymbol: string, toSymbol: string, amount: real,
                           debug: bool, net: Net)
    ensures Convert(cache, Upper(fromSymbol), Upper(toSymbol), amount, debug, net)
            == Convert(cache, fromSymbol, toSymbol, amount, debug, net)
  {
    UpperUpper(fromSymbol);
    UpperUpper(toSymbol);
  }
}
