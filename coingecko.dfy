/**
 * The CoinGecko converter (services/coingecko.py): ticker-to-id resolution
 * through a cache, the `/search` endpoint and the `/coins/list` endpoint; a
 * keyed cache in front of `/simple/price`; and `convert_currency`, which
 * classifies the pair against the fiat set and computes the rate.
 *
 * The network is a function from request to decoded response (`JNull` when
 * Python would get `None`: a failed request or a `null` body). Every
 * operation returns the requests it made, so "no fetch" is an empty log.
 */
module CoinGecko {
  import opened PyStrings
  import opened PyJson

  /** The endpoints the converter calls, with the query each call carries. */
  datatype Request =
    | Search(query: string)
    | CoinsList
    | SimplePrice(ids: string, vs: string)

  type Net = Request -> Json

  /** The fiat codes the converter recognises. */
  const FIATS: set<string> := {"usd", "eur", "mxn", "cop", "ars", "pen", "brl", "clp", "gbp", "jpy", "cad", "aud"}

  // =====================================================================
  // The /search scan
  // =====================================================================

  /**
   * The `for c in coins` loop over search candidates, from position `i`, with
   * `best`/`bestRank` the choice so far. An exact symbol match without a rank
   * ends the scan; a ranked match replaces the choice when there is none yet
   * or its rank is strictly smaller.
   */
  function ScanFrom(items: seq<Json>, s: string, i: nat, best: Option<nat>, bestRank: Json): (r: Py<Option<nat>>)
    requires i <= |items|
    requires best.Some? ==> best.value < i
    ensures r.Ok? && r.value.Some? ==> r.value.value < |items|
    decreases |items| - i
  {
    if i == |items| then Ok(best)
    else
      var c := items[i];
      var m :- SymbolIs(c, s);
      if !m then ScanFrom(items, s, i + 1, best, bestRank)
      else
        var rank :- Get(c, "market_cap_rank", JNull);
        if rank == JNull then Ok(Some(i))
        else
          var better :- if best.None? || bestRank == JNull then Ok(true) else Less(rank, bestRank);
          if better then ScanFrom(items, s, i + 1, Some(i), rank)
          else ScanFrom(items, s, i + 1, best, bestRank)
  }

  /** The candidate the `/search` loop settles on, as an index into `items`. */
  function SearchPick(items: seq<Json>, s: string): (r: Py<Option<nat>>)
    ensures r.Ok? && r.value.Some? ==> r.value.value < |items|
  {
    ScanFrom(items, s, 0, None, JNull)
  }

  /** The `/search` loop: `best`/`best_rank` updated candidate by candidate. */
  method ScanSearch(items: seq<Json>, s: string) returns (r: Py<Option<nat>>)
    ensures r == SearchPick(items, s)
  {
    var best: Option<nat> := None;
    var bestRank := JNull;
    var i := 0;
    while i < |items|
      invariant 0 <= i <= |items|
      invariant best.Some? ==> best.value < i
      invariant ScanFrom(items, s, i, best, bestRank) == SearchPick(items, s)
    {
      var c := items[i];
      var m := SymbolIs(c, s);
      if m.Raise? {
        return Raise(m.exc);
      }
      if m.value {
        var rank := Get(c, "market_cap_rank", JNull);
        if rank.Raise? {
          return Raise(rank.exc);
        }
        if rank.value == JNull {
          return Ok(Some(i));
        }
        var better: Py<bool> := Ok(true);
        if best.Some? && bestRank != JNull {
          better := Less(rank.value, bestRank);
        }
        if better.Raise? {
          return Raise(better.exc);
        }
        if better.value {
          best, bestRank := Some(i), rank.value;
        }
      }
      i := i + 1;
    }
    return Ok(best);
  }

  // =====================================================================
  // The /coins/list scan
  // =====================================================================

  /**
   * The `/coins/list` step: `Some(id)` when a candidate's symbol matches (its
   * id, possibly `None`, is cached and returned), `None` when nothing matches.
   */
  function ListStep(lst: Json, s: string): Py<Option<Option<string>>> {
    if Truthy(lst) && lst.JArr? then
      var pick :- FirstMatchFrom(lst.items, s, 0);
      if pick.Some? then
        var cid :- Get(lst.items[pick.value], "id", JNull);
        Ok(Some(IdOf(cid)))
      else Ok(None)
    else Ok(None)
  }

  // =====================================================================
  // get_coin_id
  // =====================================================================

  /**
   * The `/search` step: `Some(id)` when it yields a truthy id (which is then
   * cached and returned), `None` when resolution moves on to `/coins/list`.
   * With no exact match the first candidate is used, whatever its symbol.
   */
  function SearchStep(search: Json, s: string): Py<Option<string>> {
    if Truthy(search) && search.JObj? then
      var coins :- Get(search, "coins", JArr([]));
      var items :- Iterate(coins);
      var pick :- SearchPick(items, s);
      var best :-
        if pick.Some? then Ok(Some(items[pick.value]))
        else if Truthy(coins) then (var c :- IndexZero(coins); Ok(Some(c)))
        else Ok(None);
      if best.Some? && Truthy(best.value) then
        var cid :- Get(best.value, "id", JNull);
        if TruthyId(IdOf(cid)) then Ok(IdOf(cid)) else Ok(None)
      else Ok(None)
    else Ok(None)
  }

  /** The id `get_coin_id` returns (or the exception it raises), the cache after it, and the requests made. */
  datatype Resolution = Resolution(id: Py<Option<string>>, cache: map<string, Option<string>>, log: seq<Request>)

  /** `get_coin_id(symbol)` against the cache `cache`. */
  function Resolve(cache: map<string, Option<string>>, symbol: string, net: Net): Resolution {
    if symbol == "" then Resolution(Ok(None), cache, [])
    else
      var s := Lower(symbol);
      if s in cache then Resolution(Ok(cache[s]), cache, [])
      else
        match SearchStep(net(Search(s)), s)
        case Raise(e) => Resolution(Raise(e), cache, [Search(s)])
        case Ok(Some(id)) => Resolution(Ok(Some(id)), cache[s := Some(id)], [Search(s)])
        case Ok(None) =>
          match ListStep(net(CoinsList), s)
          case Raise(e) => Resolution(Raise(e), cache, [Search(s), CoinsList])
          case Ok(Some(id)) => Resolution(Ok(id), cache[s := id], [Search(s), CoinsList])
          case Ok(None) => Resolution(Ok(None), cache, [Search(s), CoinsList])
  }

  // =====================================================================
  // _simple_price
  // =====================================================================

  /** The cache key: the caller's id list and currency list, joined as given. */
  function PriceKey(ids: string, vs: string): string {
    ids + "|" + vs
  }

  datatype PriceLookup = PriceLookup(data: Json, cache: map<string, Json>, log: seq<Request>)

  /** `_simple_price(ids, vs)` against the cache `cache`; a `None` response is not stored. */
  function LookupPrice(cache: map<string, Json>, ids: string, vs: string, net: Net): PriceLookup {
    var key := PriceKey(ids, vs);
    if key in cache then PriceLookup(cache[key], cache, [])
    else
      var data := net(SimplePrice(ids, vs));
      PriceLookup(data, if data != JNull then cache[key := data] else cache, [SimplePrice(ids, vs)])
  }

  // =====================================================================
  // convert_currency: results and the three conversion branches
  // =====================================================================

  /** A debug field that is either absent from the trace or set to a value. */
  datatype Slot<+T> = Unset | Set(value: T)

  /** The debug trace: the inputs, the classification, the resolved ids and the raw price payload. */
  datatype Trace = Trace(
    from: string, to: string, amount: real,
    fromIsFiat: bool, toIsFiat: bool,
    fromId: Slot<Option<string>>, toId: Slot<Option<string>>,
    raw: Slot<Json>)

  /** A result dict: a conversion, or an error code with the trace. */
  datatype Reply =
    | Converted(from: string, to: string, amount: real, rate: real, converted: real, debug: Option<Trace>)
    | Failed(error: string, trace: Trace)

  /** A failure: `None`, or with `debug` an error dict carrying the trace. */
  function Fail(debug: bool, code: string, tr: Trace): Option<Reply> {
    if debug then Some(Failed(code, tr)) else None
  }

  /** A success: the caller's symbols upper-cased, the trace attached only with `debug`. */
  function Succeed(fromSymbol: string, toSymbol: string, amount: real, rate: real, converted: real,
                   debug: bool, tr: Trace): Option<Reply>
  {
    Some(Converted(Upper(fromSymbol), Upper(toSymbol), amount, rate, converted, if debug then Some(tr) else None))
  }

  /**
   * What every reply promises: a conversion carries the caller's symbols
   * upper-cased, the amount, and `converted == amount * rate`, with the trace
   * exactly when `debug` is set; a failure is `None` without `debug` and an
   * error dict with it.
   */
  ghost predicate WellFormed(reply: Option<Reply>, fromSymbol: string, toSymbol: string, amount: real, debug: bool) {
    match reply
    case None => !debug
    case Some(Converted(from, to, a, rate, converted, tr)) =>
      from == Upper(fromSymbol) && to == Upper(toSymbol) && a == amount
      && converted == amount * rate && (tr.Some? <==> debug)
    case Some(Failed(_, _)) => debug
  }

  /** `x in data` where `data` is known truthy, guarded by `not data` as the source writes it. */
  function Has(data: Json, k: string): Py<bool> {
    if Truthy(data) then Contains(data, k) else Ok(false)
  }

  /** Crypto to crypto: both USD prices from one payload, and their ratio. */
  function CryptoToCrypto(fromSymbol: string, toSymbol: string, amount: real, debug: bool,
                          fromId: string, toId: string, data: Json, tr: Trace): (r: Py<Option<Reply>>)
    ensures r.Ok? ==> WellFormed(r.value, fromSymbol, toSymbol, amount, debug)
    ensures r.Ok? && r.value.Some? && r.value.value.Failed? ==>
            r.value.value.error in {"no_price_usd", "missing_usd_prices"}
  {
    var hasFrom :- Has(data, fromId);
    var hasBoth :- if hasFrom then Contains(data, toId) else Ok(false);
    if !hasBoth then Ok(Fail(debug, "no_price_usd", tr))
    else
      var entryFrom :- Index(data, fromId);
      var priceFrom :- Get(entryFrom, "usd", JNull);
      var entryTo :- Index(data, toId);
      var priceTo :- Get(entryTo, "usd", JNull);
      if !Truthy(priceFrom) || !Truthy(priceTo) then Ok(Fail(debug, "missing_usd_prices", tr))
      else
        var rate :- DivJson(priceFrom, priceTo);
        Ok(Succeed(fromSymbol, toSymbol, amount, rate, amount * rate, debug, tr))
  }

  /** Crypto to fiat: the coin's quote in the fiat itself, with no zero check. */
  function CryptoToFiat(fromSymbol: string, toSymbol: string, amount: real, debug: bool,
                        fromId: string, t: string, data: Json, tr: Trace): (r: Py<Option<Reply>>)
    ensures r.Ok? ==> WellFormed(r.value, fromSymbol, toSymbol, amount, debug)
    ensures r.Ok? && r.value.Some? && r.value.value.Failed? ==> r.value.value.error == "no_rate_crypto_to_fiat"
  {
    var hasId :- Has(data, fromId);
    if !hasId then Ok(Fail(debug, "no_rate_crypto_to_fiat", tr))
    else
      var entry :- Index(data, fromId);
      var hasQuote :- Contains(entry, t);
      if !hasQuote then Ok(Fail(debug, "no_rate_crypto_to_fiat", tr))
      else
        var quote :- Index(entry, t);
        var rate :- Number(quote);
        Ok(Succeed(fromSymbol, toSymbol, amount, rate, amount * rate, debug, tr))
  }

  /** Fiat to crypto: the coin's price in the fiat, inverted; a price of exactly zero is refused. */
  function FiatToCrypto(fromSymbol: string, toSymbol: string, amount: real, debug: bool,
                        toId: string, f: string, data: Json, tr: Trace): (r: Py<Option<Reply>>)
    ensures r.Ok? ==> WellFormed(r.value, fromSymbol, toSymbol, amount, debug)
    ensures r.Ok? && r.value.Some? && r.value.value.Failed? ==>
            r.value.value.error in {"no_rate_fiat_to_crypto", "zero_price"}
  {
    var hasId :- Has(data, toId);
    if !hasId then Ok(Fail(debug, "no_rate_fiat_to_crypto", tr))
    else
      var entry :- Index(data, toId);
      var hasQuote :- Contains(entry, f);
      if !hasQuote then Ok(Fail(debug, "no_rate_fiat_to_crypto", tr))
      else
        var price :- Index(entry, f);
        if EqualsZero(price) then Ok(Fail(debug, "zero_price", tr))
        else
          var p :- Number(price);
          assert p != 0.0;
          var converted := amount / p;
          var rate := 1.0 / p;
          assert converted == amount * rate;
          Ok(Succeed(fromSymbol, toSymbol, amount, rate, converted, debug, tr))
  }

  // =====================================================================
  // convert_currency
  // =====================================================================

  /** The reply (or exception), both caches afterwards, and the requests made. */
  datatype Outcome = Outcome(
    reply: Py<Option<Reply>>,
    coinIds: map<string, Option<string>>,
    prices: map<string, Json>,
    log: seq<Request>)

  /** The pricing stage: the reply, the price cache afterwards, and the requests made. */
  datatype Priced = Priced(reply: Py<Option<Reply>>, prices: map<string, Json>, log: seq<Request>)

  /** `get_coin_id` for a crypto side; a fiat side resolves nothing. */
  function ResolveSide(crypto: bool, cache: map<string, Option<string>>, sym: string, net: Net): Resolution {
    if crypto then Resolve(cache, sym, net) else Resolution(Ok(None), cache, [])
  }

  /**
   * Everything after id resolution: the branch the classification in `tr`
   * selects, its id check, its `_simple_price` call and its rate.
   */
  function PriceStage(prices: map<string, Json>, fromSymbol: string, toSymbol: string, amount: real, debug: bool,
                      f: string, t: string, fromId: Option<string>, toId: Option<string>, tr: Trace, net: Net): Priced
  {
    if !tr.fromIsFiat && !tr.toIsFiat then
      if !TruthyId(fromId) || !TruthyId(toId) then Priced(Ok(Fail(debug, "missing_ids", tr)), prices, [])
      else
        var p := LookupPrice(prices, fromId.value + "," + toId.value, "usd", net);
        Priced(CryptoToCrypto(fromSymbol, toSymbol, amount, debug, fromId.value, toId.value,
                              p.data, tr.(raw := Set(p.data))), p.cache, p.log)
    else if !tr.fromIsFiat && tr.toIsFiat then
      if !TruthyId(fromId) then Priced(Ok(Fail(debug, "missing_from_id", tr)), prices, [])
      else
        var p := LookupPrice(prices, fromId.value, t, net);
        Priced(CryptoToFiat(fromSymbol, toSymbol, amount, debug, fromId.value, t,
                            p.data, tr.(raw := Set(p.data))), p.cache, p.log)
    else if tr.fromIsFiat && !tr.toIsFiat then
      if !TruthyId(toId) then Priced(Ok(Fail(debug, "missing_to_id", tr)), prices, [])
      else
        var p := LookupPrice(prices, toId.value, f, net);
        Priced(FiatToCrypto(fromSymbol, toSymbol, amount, debug, toId.value, f,
                            p.data, tr.(raw := Set(p.data))), p.cache, p.log)
    else
      Priced(Ok(Fail(debug, "unsupported_case", tr)), prices, [])
  }

  /** `convert_currency(from_symbol, to_symbol, amount, debug)` against the two caches. */
  function Convert(coinIds: map<string, Option<string>>, prices: map<string, Json>,
                   fromSymbol: string, toSymbol: string, amount: Option<real>, debug: bool, net: Net): Outcome
  {
    if amount.None? then Outcome(Ok(None), coinIds, prices, [])
    else
      var f := Lower(Strip(fromSymbol));
      var t := Lower(Strip(toSymbol));
      var fromIsFiat := f in FIATS;
      var toIsFiat := t in FIATS;
      var tr0 := Trace(fromSymbol, toSymbol, amount.value, fromIsFiat, toIsFiat, Unset, Unset, Unset);
      if fromIsFiat && toIsFiat then
        Outcome(Ok(Fail(debug, "fiat->fiat not supported", tr0)), coinIds, prices, [])
      else
        var rf := ResolveSide(!fromIsFiat, coinIds, f, net);
        if rf.id.Raise? then Outcome(Raise(rf.id.exc), rf.cache, prices, rf.log)
        else
          var tr1 := if !fromIsFiat then tr0.(fromId := Set(rf.id.value)) else tr0;
          var rt := ResolveSide(!toIsFiat, rf.cache, t, net);
          if rt.id.Raise? then Outcome(Raise(rt.id.exc), rt.cache, prices, rf.log + rt.log)
          else
            var tr := if !toIsFiat then tr1.(toId := Set(rt.id.value)) else tr1;
            var p := PriceStage(prices, fromSymbol, toSymbol, amount.value, debug, f, t, rf.id.value, rt.id.value, tr, net);
            Outcome(p.reply, rt.cache, p.prices, rf.log + rt.log + p.log)
  }

  // =====================================================================
  // The module-level caches and the three async functions
  // =====================================================================

  /** The process-wide state of services/coingecko.py: its two caches. */
  class Service {
    var coinIdCache: map<string, Option<string>>
    var priceCache: map<string, Json>

    constructor ()
      ensures coinIdCache == map[] && priceCache == map[]
    {
      coinIdCache := map[];
      priceCache := map[];
    }

    /** `get_coin_id(symbol)` */
    method GetCoinId(symbol: string, net: Net) returns (id: Py<Option<string>>, log: seq<Request>)
      modifies this
      ensures var res := Resolve(old(coinIdCache), symbol, net);
              id == res.id && coinIdCache == res.cache && log == res.log
      ensures symbol != "" && Lower(symbol) in old(coinIdCache) ==>
              id == Ok(old(coinIdCache)[Lower(symbol)]) && log == [] && coinIdCache == old(coinIdCache)
      ensures priceCache == old(priceCache)
    {
      log := [];
      if symbol == "" {
        return Ok(None), log;
      }
      var s := Lower(symbol);
      if s in coinIdCache {
        return Ok(coinIdCache[s]), log;
      }
      // 1) the /search endpoint
      var search := net(Search(s));
      log := log + [Search(s)];
      if Truthy(search) && search.JObj? {
        var coins :- Get(search, "coins", JArr([]));
        var items :- Iterate(coins);
        var pick :- ScanSearch(items, s);
        var best: Option<Json> := None;
        if pick.Some? {
          best := Some(items[pick.value]);
        } else if Truthy(coins) {
          var first :- IndexZero(coins);
          best := Some(first);
        }
        if best.Some? && Truthy(best.value) {
          var cid :- Get(best.value, "id", JNull);
          if TruthyId(IdOf(cid)) {
            coinIdCache := coinIdCache[s := IdOf(cid)];
            return Ok(IdOf(cid)), log;
          }
        }
      }
      // 2) the /coins/list endpoint
      var lst := net(CoinsList);
      log := log + [CoinsList];
      if Truthy(lst) && lst.JArr? {
        var pick :- ScanForSymbol(lst.items, s);
        if pick.Some? {
          var cid :- Get(lst.items[pick.value], "id", JNull);
          coinIdCache := coinIdCache[s := IdOf(cid)];
          return Ok(IdOf(cid)), log;
        }
      }
      return Ok(None), log;
    }

    /** `_simple_price(ids, vs)` */
    method SimplePriceOf(ids: string, vs: string, net: Net) returns (data: Json, log: seq<Request>)
      modifies this
      ensures var res := LookupPrice(old(priceCache), ids, vs, net);
              data == res.data && priceCache == res.cache && log == res.log
      ensures PriceKey(ids, vs) in old(priceCache) ==>
              data == old(priceCache)[PriceKey(ids, vs)] && log == [] && priceCache == old(priceCache)
      ensures coinIdCache == old(coinIdCache)
    {
      var key := PriceKey(ids, vs);
      if key in priceCache {
        return priceCache[key], [];
      }
      data := net(SimplePrice(ids, vs));
      log := [SimplePrice(ids, vs)];
      if data != JNull {
        priceCache := priceCache[key := data];
      }
    }

    /** The part of `convert_currency` after the ids are resolved. */
    method PriceAndConvert(fromSymbol: string, toSymbol: string, amount: real, debug: bool,
                           f: string, t: string, fromId: Option<string>, toId: Option<string>, tr: Trace, net: Net)
      returns (reply: Py<Option<Reply>>, log: seq<Request>)
      modifies this
      ensures var p := PriceStage(old(priceCache), fromSymbol, toSymbol, amount, debug, f, t, fromId, toId, tr, net);
              reply == p.reply && priceCache == p.prices && log == p.log
      ensures coinIdCache == old(coinIdCache)
    {
      log := [];
      if !tr.fromIsFiat && !tr.toIsFiat {
        if !TruthyId(fromId) || !TruthyId(toId) {
          return Ok(Fail(debug, "missing_ids", tr)), log;
        }
        var data;
        data, log := SimplePriceOf(fromId.value + "," + toId.value, "usd", net);
        reply := CryptoToCrypto(fromSymbol, toSymbol, amount, debug, fromId.value, toId.value, data, tr.(raw := Set(data)));
      } else if !tr.fromIsFiat && tr.toIsFiat {
        if !TruthyId(fromId) {
          return Ok(Fail(debug, "missing_from_id", tr)), log;
        }
        var data;
        data, log := SimplePriceOf(fromId.value, t, net);
        reply := CryptoToFiat(fromSymbol, toSymbol, amount, debug, fromId.value, t, data, tr.(raw := Set(data)));
      } else if tr.fromIsFiat && !tr.toIsFiat {
        if !TruthyId(toId) {
          return Ok(Fail(debug, "missing_to_id", tr)), log;
        }
        var data;
        data, log := SimplePriceOf(toId.value, f, net);
        reply := FiatToCrypto(fromSymbol, toSymbol, amount, debug, toId.value, f, data, tr.(raw := Set(data)));
      } else {
        reply := Ok(Fail(debug, "unsupported_case", tr));
      }
    }

    /** `get_coin_id` for a crypto side; a fiat side has no id and costs nothing. */
    method ResolveSideOf(crypto: bool, sym: string, net: Net) returns (id: Py<Option<string>>, log: seq<Request>)
      modifies this
      ensures var res := ResolveSide(crypto, old(coinIdCache), sym, net);
              id == res.id && coinIdCache == res.cache && log == res.log
      ensures priceCache == old(priceCache)
    {
      if crypto {
        id, log := GetCoinId(sym, net);
      } else {
        id, log := Ok(None), [];
      }
    }

    /** `convert_currency(from_symbol, to_symbol, amount, debug)` */
    method ConvertCurrency(fromSymbol: string, toSymbol: string, amount: Option<real>, debug: bool, net: Net)
      returns (reply: Py<Option<Reply>>, log: seq<Request>)
      modifies this
      ensures var o := Convert(old(coinIdCache), old(priceCache), fromSymbol, toSymbol, amount, debug, net);
              reply == o.reply && coinIdCache == o.coinIds && priceCache == o.prices && log == o.log
    {
      log := [];
      if amount.None? {
        return Ok(None), log;
      }
      var f := Lower(Strip(fromSymbol));
      var t := Lower(Strip(toSymbol));
      var fromIsFiat := f in FIATS;
      var toIsFiat := t in FIATS;
      var tr := Trace(fromSymbol, toSymbol, amount.value, fromIsFiat, toIsFiat, Unset, Unset, Unset);
      if fromIsFiat && toIsFiat {
        return Ok(Fail(debug, "fiat->fiat not supported", tr)), log;
      }

      var fromId, logF := ResolveSideOf(!fromIsFiat, f, net);
      log := logF;
      if fromId.Raise? {
        return Raise(fromId.exc), log;
      }
      if !fromIsFiat {
        tr := tr.(fromId := Set(fromId.value));
      }
      var toId, logT := ResolveSideOf(!toIsFiat, t, net);
      log := log + logT;
      if toId.Raise? {
        return Raise(toId.exc), log;
      }
      if !toIsFiat {
        tr := tr.(toId := Set(toId.value));
      }
      var more;
      reply, more := PriceAndConvert(fromSymbol, toSymbol, amount.value, debug, f, t, fromId.value, toId.value, tr, net);
      log := log + more;
    }
  }
}
