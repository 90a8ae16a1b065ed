/**
 * services/marketcap.py: one CoinMarketCap price-conversion attempt, then a
 * CoinPaprika fallback that resolves coin ids from the full coin list and
 * prices through tickers.
 *
 * As in coingecko.dfy, the network is a function from request to decoded
 * body (`JNull` when the fetch failed), every spec function returns the
 * requests it made, and the class holds the module's id cache.
 */
module MarketCap {
  import opened PyStrings
  import opened PyJson

  /** The fiat codes the fallback treats as quote currencies. */
  const FIATS: set<string> := {"usd", "eur", "mxn", "cop", "ars", "pen", "brl", "clp", "gbp", "jpy", "cad", "aud"}

  /** The note left in the trace when the CoinMarketCap payload had the wrong shape. */
  const CMC_ERROR := "Unexpected CMC response structure"

  const NOT_AVAILABLE := "conversion_not_available"

  /** The requests the module makes. */
  datatype Request =
    | PriceConversion(amount: real, symbol: string, convert: string)  // CoinMarketCap tools/price-conversion
    | PaprikaCoins                                                    // CoinPaprika /coins
    | Ticker(id: Json)                                                // CoinPaprika /tickers/{id}

  type Net = Request -> Json

  /** A provider named in the trace's `attempts` list. */
  datatype Source = CoinMarketCap | CoinPaprika

  /**
   * The `result_debug` dict: the normalised symbols, the amount, the
   * providers tried, whether the fallback ran, the CoinMarketCap error note,
   * and the two resolved ids once the fallback has looked them up.
   */
  datatype Trace = Trace(from: string, to: string, amount: real, attempts: seq<Source>, fallbackUsed: bool,
                         errorCmc: Option<string>, fromId: Option<Json>, toId: Option<Json>)

  /** A reply dict: a conversion (with the trace only under `debug`) or an error, which always carries the trace. */
  datatype Reply =
    | Converted(from: string, to: string, amount: real, rate: real, converted: real, debug: Option<Trace>)
    | Failed(error: string, trace: Trace)

  function Success(from: string, to: string, amount: real, rate: real, converted: real, debug: bool, tr: Trace): Reply {
    Converted(from, to, amount, rate, converted, if debug then Some(tr) else None)
  }

  /** A CoinPaprika success: `converted = amount * rate`. */
  function PricedAt(from: string, to: string, amount: real, rate: real, debug: bool, tr: Trace): Reply {
    Success(from, to, amount, rate, amount * rate, debug, tr)
  }

  // =====================================================================
  // get_coin_id
  // =====================================================================

  /** What `get_coin_id` returns (`JNull` for `None`), the id cache after it, and its requests. */
  datatype Resolution = Resolution(id: Py<Json>, cache: map<string, Json>, log: seq<Request>)

  /**
   * `get_coin_id(symbol)`: a cached answer, else the first coin in the
   * CoinPaprika list whose symbol matches. The match's `id` is cached
   * whatever it is, `None` included; no match and an empty or failed fetch
   * are not cached.
   */
  function Resolve(cache: map<string, Json>, symbol: string, net: Net): Resolution {
    var s := Lower(symbol);
    if s in cache then Resolution(Ok(cache[s]), cache, [])
    else
      var data := net(PaprikaCoins);
      if !Truthy(data) then Resolution(Ok(JNull), cache, [PaprikaCoins])
      else
        match Iterate(data)
        case Raise(e) => Resolution(Raise(e), cache, [PaprikaCoins])
        case Ok(items) =>
          match FirstMatchFrom(items, s, 0)
          case Raise(e) => Resolution(Raise(e), cache, [PaprikaCoins])
          case Ok(None) => Resolution(Ok(JNull), cache, [PaprikaCoins])
          case Ok(Some(k)) =>
            var cid := IdField(items[k]);
            Resolution(Ok(cid), cache[s := cid], [PaprikaCoins])
  }

  // =====================================================================
  // The CoinMarketCap attempt
  // =====================================================================

  /** How the CoinMarketCap step ended: not tried, tried and caught, or a price. */
  datatype CmcOutcome = Skipped | Caught | Priced(rate: real, converted: real)

  /**
   * The body of the `try`: `cmc_data["data"]["quote"][to]["price"]`, then
   * `price / amount`. The result is `(rate, converted)`, where `converted` is
   * the price itself.
   */
  function CmcRate(cmc: Json, to: string, amount: real): (r: Py<(real, real)>)
    ensures r.Ok? ==> amount != 0.0 && r.value.0 * amount == r.value.1
  {
    var data :- Index(cmc, "data");
    var quotes :- Index(data, "quote");
    var entry :- Index(quotes, to);
    var price :- Index(entry, "price");
    var p :- Number(price);
    var rate :- Div(p, amount);
    Ok((rate, p))
  }

  /**
   * `if cmc_data and "data" in cmc_data: try ... except Exception: ...`.
   * The membership test sits outside the `try`, so its `TypeError` escapes;
   * everything inside is caught.
   */
  function CmcAttempt(cmc: Json, to: string, amount: real): Py<CmcOutcome> {
    if !Truthy(cmc) then Ok(Skipped)
    else
      var hasData :- Contains(cmc, "data");
      if !hasData then Ok(Skipped)
      else
        match CmcRate(cmc, to, amount)
        case Ok(v) => Ok(Priced(v.0, v.1))
        case Raise(_) => Ok(Caught)
  }

  // =====================================================================
  // The CoinPaprika fallback
  // =====================================================================

  /** A fallback stage's outcome (`Ok(None)`: fall through to the next case) and its requests. */
  datatype Step = Step(result: Py<Option<Reply>>, log: seq<Request>)

  /**
   * The crypto-to-fiat ticker test and price:
   * `data and "quotes" in data and to in data["quotes"]`, then
   * `data["quotes"][to]["price"]` as a number. `Ok(None)` when the test fails.
   */
  function FiatQuote(data: Json, to: string): Py<Option<real>> {
    if !Truthy(data) then Ok(None)
    else
      var hasQuotes :- Contains(data, "quotes");
      if !hasQuotes then Ok(None)
      else
        var quotes :- Index(data, "quotes");
        var hasTo :- Contains(quotes, to);
        if !hasTo then Ok(None)
        else
          var entry :- Index(quotes, to);
          var price :- Index(entry, "price");
          var rate :- Number(price);
          Ok(Some(rate))
  }

  /** `data["quotes"]["USD"]["price"]`, unguarded. */
  function UsdPrice(data: Json): Py<Json> {
    var quotes :- Index(data, "quotes");
    var usd :- Index(quotes, "USD");
    Index(usd, "price")
  }

  /** `usd_from / usd_to`, each read without a guard. */
  function CryptoRate(fromData: Json, toData: Json): Py<real> {
    var usdFrom :- UsdPrice(fromData);
    var usdTo :- UsdPrice(toData);
    DivJson(usdFrom, usdTo)
  }

  /** The crypto-to-fiat case, tried only with a truthy `from_id` and a fiat target. */
  function ToFiat(from: string, to: string, amount: real, debug: bool, fromId: Json, tr: Trace, net: Net): Step {
    if !(Truthy(fromId) && Lower(to) in FIATS) then Step(Ok(None), [])
    else
      match FiatQuote(net(Ticker(fromId)), to)
      case Raise(e) => Step(Raise(e), [Ticker(fromId)])
      case Ok(None) => Step(Ok(None), [Ticker(fromId)])
      case Ok(Some(rate)) => Step(Ok(Some(PricedAt(from, to, amount, rate, debug, tr))), [Ticker(fromId)])
  }

  /** The crypto-to-crypto case via USD, tried only when both ids are truthy. */
  function ToCrypto(from: string, to: string, amount: real, debug: bool, fromId: Json, toId: Json,
                    tr: Trace, net: Net): Step
  {
    if !(Truthy(fromId) && Truthy(toId)) then Step(Ok(None), [])
    else
      var fromData := net(Ticker(fromId));
      var toData := net(Ticker(toId));
      var log := [Ticker(fromId), Ticker(toId)];
      if !(Truthy(fromData) && Truthy(toData)) then Step(Ok(None), log)
      else
        match CryptoRate(fromData, toData)
        case Raise(e) => Step(Raise(e), log)
        case Ok(rate) => Step(Ok(Some(PricedAt(from, to, amount, rate, debug, tr))), log)
  }

  /**
   * The fallback after both ids are known: no id at all, then crypto to
   * fiat, then crypto to crypto, then `conversion_not_available`. There is
   * no fiat-to-crypto case.
   */
  function Paprika(from: string, to: string, amount: real, debug: bool, fromId: Json, toId: Json,
                   tr: Trace, net: Net): Step
  {
    if !Truthy(fromId) && !Truthy(toId) then Step(Ok(Some(Failed(NOT_AVAILABLE, tr))), [])
    else
      var fiat := ToFiat(from, to, amount, debug, fromId, tr, net);
      if fiat.result.Raise? || fiat.result.value.Some? then fiat
      else
        var crypto := ToCrypto(from, to, amount, debug, fromId, toId, tr, net);
        if crypto.result.Raise? || crypto.result.value.Some? then Step(crypto.result, fiat.log + crypto.log)
        else Step(Ok(Some(Failed(NOT_AVAILABLE, tr))), fiat.log + crypto.log)
  }

  /** A whole call: its reply (or the exception that escapes), the id cache after it, and its requests. */
  datatype Outcome = Outcome(reply: Py<Reply>, ids: map<string, Json>, log: seq<Request>)

  /** The fallback from its first line: the trace update, both id lookups, then `Paprika`. */
  function Fallback(cache: map<string, Json>, from: string, to: string, amount: real, debug: bool,
                    errorCmc: Option<string>, net: Net): Outcome
  {
    var rf := Resolve(cache, from, net);
    if rf.id.Raise? then Outcome(Raise(rf.id.exc), rf.cache, rf.log)
    else
      var rt := Resolve(rf.cache, to, net);
      if rt.id.Raise? then Outcome(Raise(rt.id.exc), rt.cache, rf.log + rt.log)
      else
        var tr := Trace(from, to, amount, [CoinMarketCap, CoinPaprika], true, errorCmc, Some(rf.id.value), Some(rt.id.value));
        var p := Paprika(from, to, amount, debug, rf.id.value, rt.id.value, tr, net);
        var reply := if p.result.Raise? then Raise(p.result.exc)
                     else if p.result.value.Some? then Ok(p.result.value.value)
                     else Ok(Failed(NOT_AVAILABLE, tr));
        Outcome(reply, rt.cache, rf.log + rt.log + p.log)
  }

  /** `convert_currency(from_symbol, to_symbol, amount, debug)` */
  function Convert(cache: map<string, Json>, fromSymbol: string, toSymbol: string, amount: real, debug: bool,
                   net: Net): Outcome
  {
    var from := Strip(Upper(fromSymbol));
    var to := Strip(Upper(toSymbol));
    var req := PriceConversion(amount, from, to);
    match CmcAttempt(net(req), to, amount)
    case Raise(e) => Outcome(Raise(e), cache, [req])
    case Ok(Priced(rate, converted)) =>
      var tr := Trace(from, to, amount, [CoinMarketCap], false, None, None, None);
      Outcome(Ok(Success(from, to, amount, rate, converted, debug, tr)), cache, [req])
    case Ok(o) =>
      var p := Fallback(cache, from, to, amount, debug, if o.Caught? then Some(CMC_ERROR) else None, net);
      Outcome(p.reply, p.ids, [req] + p.log)
  }

  // =====================================================================
  // The module-level cache and the two async functions
  // =====================================================================

  /**
   * The module's state. Only `id_cache` is ever written; `price_cache` is
   * declared in the source but never used, so it is not modelled.
   */
  class Service {
    var idCache: map<string, Json>

    constructor ()
      ensures idCache == map[]
    {
      idCache := map[];
    }

    /** `get_coin_id(symbol)` */
    method GetCoinId(symbol: string, net: Net) returns (id: Py<Json>, log: seq<Request>)
      modifies this
      ensures var res := Resolve(old(idCache), symbol, net);
              id == res.id && idCache == res.cache && log == res.log
      ensures Lower(symbol) in old(idCache) ==> id == Ok(old(idCache)[Lower(symbol)]) && log == [] && idCache == old(idCache)
    {
      var s := Lower(symbol);
      if s in idCache {
        return Ok(idCache[s]), [];
      }
      var data := net(PaprikaCoins);
      log := [PaprikaCoins];
      if !Truthy(data) {
        return Ok(JNull), log;
      }
      var items :- Iterate(data);
      var pick :- ScanForSymbol(items, s);
      if pick.None? {
        return Ok(JNull), log;
      }
      var cid := IdField(items[pick.value]);
      idCache := idCache[s := cid];
      return Ok(cid), log;
    }

    /** The crypto-to-fiat and crypto-to-crypto cases once both ids are known. */
    method PriceWithIds(from: string, to: string, amount: real, debug: bool, fromId: Json, toId: Json,
                        tr: Trace, net: Net) returns (reply: Py<Reply>, log: seq<Request>)
      ensures var p := Paprika(from, to, amount, debug, fromId, toId, tr, net);
              log == p.log
              && reply == (if p.result.Raise? then Raise(p.result.exc)
                           else if p.result.value.Some? then Ok(p.result.value.value)
                           else Ok(Failed(NOT_AVAILABLE, tr)))
    {
      log := [];
      if !Truthy(fromId) && !Truthy(toId) {
        return Ok(Failed(NOT_AVAILABLE, tr)), log;
      }
      ghost var fiat := ToFiat(from, to, amount, debug, fromId, tr, net);
      if Truthy(fromId) && Lower(to) in FIATS {
        var data := net(Ticker(fromId));
        log := log + [Ticker(fromId)];
        var quote :- FiatQuote(data, to);
        if quote.Some? {
          return Ok(PricedAt(from, to, amount, quote.value, debug, tr)), log;
        }
      }
      assert fiat.result == Ok(None) && fiat.log == log;
      if Truthy(fromId) && Truthy(toId) {
        var fromData := net(Ticker(fromId));
        var toData := net(Ticker(toId));
        log := log + [Ticker(fromId), Ticker(toId)];
        if Truthy(fromData) && Truthy(toData) {
          var rate :- CryptoRate(fromData, toData);
          return Ok(PricedAt(from, to, amount, rate, debug, tr)), log;
        }
      }
      return Ok(Failed(NOT_AVAILABLE, tr)), log;
    }

    /** `convert_currency(from_symbol, to_symbol, amount, debug)` */
    method ConvertCurrency(fromSymbol: string, toSymbol: string, amount: real, debug: bool, net: Net)
      returns (reply: Py<Reply>, log: seq<Request>)
      modifies this
      ensures var o := Convert(old(idCache), fromSymbol, toSymbol, amount, debug, net);
              reply == o.reply && idCache == o.ids && log == o.log
    {
      var from := Strip(Upper(fromSymbol));
      var to := Strip(Upper(toSymbol));
      var tr := Trace(from, to, amount, [], false, None, None, None);
      var req := PriceConversion(amount, from, to);
      var cmc := net(req);
      log := [req];
      tr := tr.(attempts := tr.attempts + [CoinMarketCap]);
      var attempt :- CmcAttempt(cmc, to, amount);
      if attempt.Priced? {
        assert tr == Trace(from, to, amount, [CoinMarketCap], false, None, None, None);
        return Ok(Success(from, to, amount, attempt.rate, attempt.converted, debug, tr)), log;
      }
      if attempt.Caught? {
        tr := tr.(errorCmc := Some(CMC_ERROR));
      }

      var more;
      reply, more := RunFallback(from, to, amount, debug, tr, net);
      log := log + more;
    }

    /**
     * The fallback from its first line: the trace records the second attempt,
     * both ids are looked up, then the two CoinPaprika cases are tried.
     */
    method RunFallback(from: string, to: string, amount: real, debug: bool, tr0: Trace, net: Net)
      returns (reply: Py<Reply>, log: seq<Request>)
      modifies this
      requires tr0 == Trace(from, to, amount, [CoinMarketCap], false, tr0.errorCmc, None, None)
      ensures var o := Fallback(old(idCache), from, to, amount, debug, tr0.errorCmc, net);
              reply == o.reply && idCache == o.ids && log == o.log
    {
      var tr := tr0.(fallbackUsed := true, attempts := tr0.attempts + [CoinPaprika]);
      var fromId, more := GetCoinId(from, net);
      log := more;
      if fromId.Raise? {
        return Raise(fromId.exc), log;
      }
      var toId, more2 := GetCoinId(to, net);
      log := log + more2;
      if toId.Raise? {
        return Raise(toId.exc), log;
      }
      tr := tr.(fromId := Some(fromId.value), toId := Some(toId.value));
      assert tr.attempts == [CoinMarketCap, CoinPaprika];
      var more3;
      reply, more3 := PriceWithIds(from, to, amount, debug, fromId.value, toId.value, tr, net);
      log := log + more3;
    }
  }
}
