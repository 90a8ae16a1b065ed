/**
 * What services/coingecko.py promises, proved about the model in
 * coingecko.dfy: how a search candidate is chosen, when the full coin list
 * is fetched, what the two caches keep and save, and what every conversion
 * reply carries.
 */
module CoinGeckoFacts {
  import opened PyStrings
  import opened PyJson
  import opened CoinGecko

  // =====================================================================
  // Candidate selection in /search and /coins/list
  // =====================================================================

  /**
   * A candidate as CoinGecko sends one: an object whose `symbol` is a string
   * (or missing) and whose `market_cap_rank` is a number, null or missing.
   */
  ghost predicate Candidate(c: Json) {
    && Listed(c)
    && (Lookup(c.fields, "market_cap_rank").None?
        || Lookup(c.fields, "market_cap_rank").value.JNull?
        || Lookup(c.fields, "market_cap_rank").value.JNum?)
  }

  /** `c.get("market_cap_rank")` */
  function RankOf(c: Json): Json {
    if c.JObj? then Get(c, "market_cap_rank", JNull).value else JNull
  }

  /** The candidate's symbol equals the query, ignoring case. */
  ghost predicate Matches(c: Json, s: string) {
    SymbolIs(c, s) == Ok(true)
  }

  ghost predicate Unranked(c: Json) {
    RankOf(c) == JNull
  }

  /** The numeric rank of a ranked candidate. */
  function RankValue(c: Json): real {
    if RankOf(c).JNum? then RankOf(c).n else 0.0
  }

  /**
   * Among the candidates before `hi`, `b` is a ranked match with the smallest
   * rank, and every earlier match has a strictly larger one.
   */
  ghost predicate LowestSoFar(items: seq<Json>, s: string, b: nat, hi: nat) {
    && b < hi <= |items|
    && Matches(items[b], s)
    && RankOf(items[b]).JNum?
    && forall k | 0 <= k < hi && Matches(items[k], s) ::
         RankValue(items[b]) <= RankValue(items[k]) && (k < b ==> RankValue(items[b]) < RankValue(items[k]))
  }

  /** One step of the scan past a candidate whose symbol does not match. */
  lemma ScanSkips(items: seq<Json>, s: string, i: nat, best: Option<nat>, bestRank: Json)
    requires i < |items| && (best.Some? ==> best.value < i)
    requires Candidate(items[i]) && !Matches(items[i], s)
    ensures ScanFrom(items, s, i, best, bestRank) == ScanFrom(items, s, i + 1, best, bestRank)
  {
    SymbolIsTotal(items[i], s);
  }

  /** The scan stops at a matching candidate without a rank. */
  lemma ScanStops(items: seq<Json>, s: string, i: nat, best: Option<nat>, bestRank: Json)
    requires i < |items| && (best.Some? ==> best.value < i)
    requires Candidate(items[i]) && Matches(items[i], s) && Unranked(items[i])
    ensures ScanFrom(items, s, i, best, bestRank) == Ok(Some(i))
  {
    assert Get(items[i], "market_cap_rank", JNull) == Ok(JNull);
  }

  /** One step of the scan past a ranked match: it becomes the best when it is first or strictly lower. */
  lemma ScanRanked(items: seq<Json>, s: string, i: nat, best: Option<nat>, bestRank: Json)
    requires i < |items| && (best.Some? ==> best.value < i)
    requires bestRank == JNull || bestRank.JNum?
    requires Candidate(items[i]) && Matches(items[i], s) && !Unranked(items[i])
    ensures RankOf(items[i]).JNum?
    ensures ScanFrom(items, s, i, best, bestRank)
            == if best.None? || bestRank == JNull || RankOf(items[i]).n < bestRank.n
               then ScanFrom(items, s, i + 1, Some(i), RankOf(items[i]))
               else ScanFrom(items, s, i + 1, best, bestRank)
  {
    var rank := RankOf(items[i]);
    assert Get(items[i], "market_cap_rank", JNull) == Ok(rank);
    if best.Some? && bestRank != JNull {
      assert Less(rank, bestRank) == Ok(rank.n < bestRank.n);
    }
  }

  lemma {:induction false} ScanStopsAtUnranked(items: seq<Json>, s: string, i: nat, best: Option<nat>, bestRank: Json, j: nat)
    requires i <= j < |items|
    requires best.Some? ==> best.value < i
    requires bestRank == JNull || bestRank.JNum?
    requires forall k | i <= k <= j :: Candidate(items[k])
    requires Matches(items[j], s) && Unranked(items[j])
    requires forall k | i <= k < j :: Matches(items[k], s) ==> !Unranked(items[k])
    ensures ScanFrom(items, s, i, best, bestRank) == Ok(Some(j))
    decreases j - i
  {
    if i == j {
      ScanStops(items, s, i, best, bestRank);
    } else if Matches(items[i], s) {
      ScanRanked(items, s, i, best, bestRank);
      var rank := RankOf(items[i]);
      var better := best.None? || bestRank == JNull || rank.n < bestRank.n;
      var nextBest, nextRank := if better then Some(i) else best, if better then rank else bestRank;
      assert ScanFrom(items, s, i, best, bestRank) == ScanFrom(items, s, i + 1, nextBest, nextRank);
      ScanStopsAtUnranked(items, s, i + 1, nextBest, nextRank, j);
    } else {
      ScanSkips(items, s, i, best, bestRank);
      ScanStopsAtUnranked(items, s, i + 1, best, bestRank, j);
    }
  }

  /**
   * The first exact match without a rank is chosen, whatever ranks the other
   * matches carry, and no candidate after it is looked at.
   */
  lemma SearchPicksFirstUnrankedMatch(items: seq<Json>, s: string, j: nat)
    requires j < |items|
    requires forall k | 0 <= k <= j :: Candidate(items[k])
    requires Matches(items[j], s) && Unranked(items[j])
    requires forall k | 0 <= k < j :: Matches(items[k], s) ==> !Unranked(items[k])
    ensures SearchPick(items, s) == Ok(Some(j))
  {
    ScanStopsAtUnranked(items, s, 0, None, JNull, j);
  }

  lemma {:induction false} ScanKeepsLowest(items: seq<Json>, s: string, i: nat, best: Option<nat>, bestRank: Json)
    requires i <= |items|
    requires forall k | 0 <= k < |items| :: Candidate(items[k])
    requires forall k | 0 <= k < |items| :: Matches(items[k], s) ==> !Unranked(items[k])
    requires best.None? ==> bestRank == JNull && forall k | 0 <= k < i :: !Matches(items[k], s)
    requires best.Some? ==> LowestSoFar(items, s, best.value, i) && bestRank == RankOf(items[best.value])
    ensures var r := ScanFrom(items, s, i, best, bestRank);
            && r.Ok?
            && (r.value.None? <==> forall k | 0 <= k < |items| :: !Matches(items[k], s))
            && (r.value.Some? ==> LowestSoFar(items, s, r.value.value, |items|))
    decreases |items| - i
  {
    if i < |items| {
      if Matches(items[i], s) {
        ScanRanked(items, s, i, best, bestRank);
        var rank := RankOf(items[i]);
        if best.None? {
          StartsLowest(items, s, i);
          ScanKeepsLowest(items, s, i + 1, Some(i), rank);
        } else if rank.n < bestRank.n {
          BecomesLowest(items, s, best.value, i);
          ScanKeepsLowest(items, s, i + 1, Some(i), rank);
        } else {
          StaysLowest(items, s, best.value, i);
          ScanKeepsLowest(items, s, i + 1, best, bestRank);
        }
      } else {
        ScanSkips(items, s, i, best, bestRank);
        if best.Some? {
          StaysLowest(items, s, best.value, i);
        }
        ScanKeepsLowest(items, s, i + 1, best, bestRank);
      }
    }
  }

  /** The first ranked match is the lowest so far. */
  lemma StartsLowest(items: seq<Json>, s: string, i: nat)
    requires i < |items| && Matches(items[i], s) && RankOf(items[i]).JNum?
    requires forall k | 0 <= k < i :: !Matches(items[k], s)
    ensures LowestSoFar(items, s, i, i + 1)
  {
  }

  /** A ranked match strictly below the lowest so far takes its place. */
  lemma BecomesLowest(items: seq<Json>, s: string, b: nat, i: nat)
    requires LowestSoFar(items, s, b, i) && i < |items|
    requires Matches(items[i], s) && RankOf(items[i]).JNum? && RankValue(items[i]) < RankValue(items[b])
    ensures LowestSoFar(items, s, i, i + 1)
  {
  }

  /** A candidate that does not match, or matches with no smaller rank, leaves the lowest so far in place. */
  lemma StaysLowest(items: seq<Json>, s: string, b: nat, i: nat)
    requires LowestSoFar(items, s, b, i) && i < |items|
    requires Matches(items[i], s) ==> RankOf(items[i]).JNum? && RankValue(items[b]) <= RankValue(items[i])
    ensures LowestSoFar(items, s, b, i + 1)
  {
  }

  /**
   * With no unranked exact match, the match with the strictly smallest rank
   * wins and the earliest of equal ranks is kept; with no exact match at all
   * the scan chooses nothing.
   */
  lemma SearchPicksLowestRank(items: seq<Json>, s: string)
    requires forall k | 0 <= k < |items| :: Candidate(items[k])
    requires forall k | 0 <= k < |items| :: Matches(items[k], s) ==> !Unranked(items[k])
    ensures var r := SearchPick(items, s);
            && r.Ok?
            && (r.value.None? <==> forall k | 0 <= k < |items| :: !Matches(items[k], s))
            && (r.value.Some? ==> LowestSoFar(items, s, r.value.value, |items|))
  {
    ScanKeepsLowest(items, s, 0, None, JNull);
  }

  /**
   * When no candidate's symbol matches, the search step still takes the first
   * candidate and returns its id, although its symbol differs from the query.
   */
  lemma NoMatchTakesFirstCandidate(search: Json, s: string, items: seq<Json>)
    requires search.JObj? && Lookup(search.fields, "coins") == Some(JArr(items))
    requires |items| > 0
    requires forall k | 0 <= k < |items| :: Candidate(items[k]) && !Matches(items[k], s)
    ensures var cid := IdField(items[0]);
            SearchStep(search, s) == if TruthyId(IdOf(cid)) then Ok(IdOf(cid)) else Ok(None)
  {
    assert Candidate(items[0]);
    SearchPicksLowestRank(items, s);
    assert |search.fields| > 0;
  }

  // =====================================================================
  // get_coin_id
  // =====================================================================

  /** An empty symbol resolves to `None` without a fetch; a cached symbol to its cached id without a fetch. */
  lemma ResolveWithoutFetch(cache: map<string, Option<string>>, symbol: string, net: Net)
    requires symbol == "" || Lower(symbol) in cache
    ensures Resolve(cache, symbol, net)
            == Resolution(Ok(if symbol == "" then None else cache[Lower(symbol)]), cache, [])
  {
  }

  /**
   * The requests resolution makes: nothing, `/search` alone, or `/search`
   * then `/coins/list`; the full list is fetched exactly when the search step
   * produced no truthy id.
   */
  lemma ResolveFetchesListOnlyAfterSearch(cache: map<string, Option<string>>, symbol: string, net: Net)
    ensures var r := Resolve(cache, symbol, net);
            var s := Lower(symbol);
            && (r.log == [] || r.log == [Search(s)] || r.log == [Search(s), CoinsList])
            && (r.log != [] <==> symbol != "" && s !in cache)
            && (CoinsList in r.log <==> symbol != "" && s !in cache && SearchStep(net(Search(s)), s) == Ok(None))
  {
  }

  /**
   * The cache only grows, by at most the queried symbol; every truthy id
   * returned is cached; and whatever is cached for the symbol is what the call
   * returned, including a `None` id saved by the list step.
   */
  lemma ResolveCacheInvariant(cache: map<string, Option<string>>, symbol: string, net: Net)
    ensures var r := Resolve(cache, symbol, net);
            var s := Lower(symbol);
            && (forall k | k in cache :: k in r.cache && r.cache[k] == cache[k])
            && r.cache.Keys <= cache.Keys + {s}
            && (r.id.Ok? && TruthyId(r.id.value) ==> symbol != "" && s in r.cache)
            && (symbol != "" && s in r.cache ==> r.id == Ok(r.cache[s]))
  {
    var r := Resolve(cache, symbol, net);
    var s := Lower(symbol);
    if symbol != "" && s !in cache {
      match SearchStep(net(Search(s)), s)
      case Raise(e) =>
      case Ok(Some(id)) =>
      case Ok(None) =>
        match ListStep(net(CoinsList), s)
        case Raise(e) =>
        case Ok(Some(id)) =>
        case Ok(None) =>
    }
  }

  /**
   * When `/search` yields no id, the `/coins/list` step returns the `id` of
   * the first coin whose symbol matches case-insensitively and caches it,
   * even when that id is `None`; the cached entry then answers every later
   * call without a request. With no match the answer is `None` and nothing
   * is cached.
   */
  lemma ListStepTakesFirstMatch(cache: map<string, Option<string>>, symbol: string, net: Net, later: Net,
                                items: seq<Json>)
    requires symbol != "" && Lower(symbol) !in cache
    requires SearchStep(net(Search(Lower(symbol))), Lower(symbol)) == Ok(None)
    requires net(CoinsList) == JArr(items)
    requires forall k | 0 <= k < |items| :: Listed(items[k])
    ensures var s := Lower(symbol);
            var r := Resolve(cache, symbol, net);
            && r.id.Ok? && r.log == [Search(s), CoinsList]
            && ((forall k | 0 <= k < |items| :: SymbolIs(items[k], s) == Ok(false)) ==>
                  r.id == Ok(None) && r.cache == cache)
            && (forall j | 0 <= j < |items| ::
                  SymbolIs(items[j], s) == Ok(true)
                  && (forall k | 0 <= k < j :: SymbolIs(items[k], s) == Ok(false)) ==>
                  r.id == Ok(IdOf(IdField(items[j]))) && r.cache == cache[s := IdOf(IdField(items[j]))]
                  && Resolve(r.cache, symbol, later) == Resolution(Ok(IdOf(IdField(items[j]))), r.cache, []))
  {
    var s := Lower(symbol);
    FirstMatchIsFirst(items, s);
    var m := FirstMatchFrom(items, s, 0);
    ResolveAfterSearch(cache, symbol, net);
    forall j | 0 <= j < |items| && SymbolIs(items[j], s) == Ok(true)
                 && (forall k | 0 <= k < j :: SymbolIs(items[k], s) == Ok(false))
      ensures m == Ok(Some(j))
    {
    }
  }

  /** After a `/search` that yields no id, the call is decided by the list step. */
  lemma ResolveAfterSearch(cache: map<string, Option<string>>, symbol: string, net: Net)
    requires symbol != "" && Lower(symbol) !in cache
    requires SearchStep(net(Search(Lower(symbol))), Lower(symbol)) == Ok(None)
    ensures var s := Lower(symbol);
            var log := [Search(s), CoinsList];
            Resolve(cache, symbol, net)
            == match ListStep(net(CoinsList), s)
               case Raise(e) => Resolution(Raise(e), cache, log)
               case Ok(Some(id)) => Resolution(Ok(id), cache[s := id], log)
               case Ok(None) => Resolution(Ok(None), cache, log)
  {
  }

  /** Once a symbol is cached, resolving it again fetches nothing and returns the same id. */
  lemma ResolveAgainIsFetchFree(cache: map<string, Option<string>>, symbol: string, net: Net, later: Net)
    requires symbol != "" && Lower(symbol) in Resolve(cache, symbol, net).cache
    ensures var r := Resolve(cache, symbol, net);
            Resolve(r.cache, symbol, later) == Resolution(r.id, r.cache, [])
  {
    ResolveCacheInvariant(cache, symbol, net);
  }

  /** Only the lower-cased symbol is used: a symbol and its upper-case form resolve alike. */
  lemma ResolveIgnoresCase(cache: map<string, Option<string>>, symbol: string, net: Net)
    ensures Resolve(cache, Upper(symbol), net) == Resolve(cache, symbol, net)
  {
    LowerUpper(symbol);
    assert Upper(symbol) == "" <==> symbol == "";
  }

  // =====================================================================
  // _simple_price
  // =====================================================================

  /**
   * A key already cached is answered from the cache with no request; any
   * other key makes exactly one request, and its response is saved unless it
   * is `None`.
   */
  lemma PriceCacheBehaviour(cache: map<string, Json>, ids: string, vs: string, net: Net)
    ensures var p := LookupPrice(cache, ids, vs, net);
            var key := ids + "|" + vs;
            && (key in cache ==> p == PriceLookup(cache[key], cache, []))
            && (key !in cache ==> p.log == [SimplePrice(ids, vs)] && p.data == net(SimplePrice(ids, vs))
                                   && (key in p.cache <==> p.data != JNull)
                                   && (p.data != JNull ==> p.cache == cache[key := p.data])
                                   && (p.data == JNull ==> p.cache == cache))
  {
  }

  /**
   * The key keeps the caller's id list and currency list apart and as given:
   * for lists without `|`, two calls share a cache entry only when both lists
   * are equal, so the same ids in another order are a different entry.
   */
  lemma PriceKeyKeepsOrder(ids1: string, vs1: string, ids2: string, vs2: string)
    requires '|' !in ids1 && '|' !in ids2
    ensures PriceKey(ids1, vs1) == PriceKey(ids2, vs2) <==> ids1 == ids2 && vs1 == vs2
  {
    if PriceKey(ids1, vs1) == PriceKey(ids2, vs2) {
      var k := PriceKey(ids1, vs1);
      KeyLayout(ids1, vs1);
      KeyLayout(ids2, vs2);
      if |ids1| < |ids2| {
        assert false;
      } else if |ids2| < |ids1| {
        assert false;
      }
      assert ids1 == k[..|ids1|] == ids2;
      assert vs1 == k[|ids1| + 1..] == vs2;
    }
  }

  /** The key starts with the id list, then `|`, then the currency list. */
  lemma KeyLayout(ids: string, vs: string)
    ensures |PriceKey(ids, vs)| == |ids| + 1 + |vs|
    ensures PriceKey(ids, vs)[..|ids|] == ids && PriceKey(ids, vs)[|ids|] == '|'
    ensures PriceKey(ids, vs)[|ids| + 1..] == vs
  {
  }

  /** The two orders of one id pair, `a,b` and `b,a`, are two cache entries. */
  lemma PriceKeyExample()
    ensures PriceKey("a,b", "usd") != PriceKey("b,a", "usd")
  {
    PriceKeyKeepsOrder("a,b", "usd", "b,a", "usd");
  }

  // =====================================================================
  // The conversion branches
  // =====================================================================

  /**
   * Crypto to crypto, on an object payload: a missing entry gives
   * `no_price_usd` and a falsy USD price gives `missing_usd_prices`.
   */
  lemma CryptoToCryptoOutcomes(fromSymbol: string, toSymbol: string, amount: real, debug: bool,
                               fromId: string, toId: string, data: Json, tr: Trace)
    requires data.JObj?
    ensures Lookup(data.fields, fromId).None? || Lookup(data.fields, toId).None? ==>
            CryptoToCrypto(fromSymbol, toSymbol, amount, debug, fromId, toId, data, tr)
            == Ok(Fail(debug, "no_price_usd", tr))
    ensures Lookup(data.fields, fromId).Some? && Lookup(data.fields, toId).Some?
            && Lookup(data.fields, fromId).value.JObj? && Lookup(data.fields, toId).value.JObj?
            && (!Truthy(Get(Lookup(data.fields, fromId).value, "usd", JNull).value)
                || !Truthy(Get(Lookup(data.fields, toId).value, "usd", JNull).value)) ==>
            CryptoToCrypto(fromSymbol, toSymbol, amount, debug, fromId, toId, data, tr)
            == Ok(Fail(debug, "missing_usd_prices", tr))
  {
    var lf := Lookup(data.fields, fromId);
    var lt := Lookup(data.fields, toId);
    if lf.Some? && lt.Some? {
      assert Truthy(data);
      assert Index(data, fromId) == Ok(lf.value);
      assert Index(data, toId) == Ok(lt.value);
    }
  }

  /**
   * Crypto to fiat, on an object payload: a missing entry or a missing quote
   * gives `no_rate_crypto_to_fiat`.
   */
  lemma CryptoToFiatOutcomes(fromSymbol: string, toSymbol: string, amount: real, debug: bool,
                             fromId: string, t: string, data: Json, tr: Trace)
    requires data.JObj?
    ensures Lookup(data.fields, fromId).None? ==>
            CryptoToFiat(fromSymbol, toSymbol, amount, debug, fromId, t, data, tr)
            == Ok(Fail(debug, "no_rate_crypto_to_fiat", tr))
    ensures Lookup(data.fields, fromId).Some? && Lookup(data.fields, fromId).value.JObj?
            && Lookup(Lookup(data.fields, fromId).value.fields, t).None? ==>
            CryptoToFiat(fromSymbol, toSymbol, amount, debug, fromId, t, data, tr)
            == Ok(Fail(debug, "no_rate_crypto_to_fiat", tr))
  {
    var entry := Lookup(data.fields, fromId);
    if entry.Some? {
      assert Truthy(data);
      assert Index(data, fromId) == Ok(entry.value);
    }
  }

  /** Two non-zero numeric USD prices `pf` and `pt` give rate `pf/pt` and `amount * pf/pt`. */
  lemma CryptoToCryptoPriced(fromSymbol: string, toSymbol: string, amount: real, debug: bool,
                             fromId: string, toId: string, data: Json, tr: Trace, pf: Json, pt: Json)
    requires data.JObj?
    requires Lookup(data.fields, fromId).Some? && Lookup(data.fields, fromId).value.JObj?
    requires Lookup(data.fields, toId).Some? && Lookup(data.fields, toId).value.JObj?
    requires pf == Get(Lookup(data.fields, fromId).value, "usd", JNull).value
    requires pt == Get(Lookup(data.fields, toId).value, "usd", JNull).value
    requires pf.JNum? && pt.JNum? && pf.n != 0.0 && pt.n != 0.0
    ensures CryptoToCrypto(fromSymbol, toSymbol, amount, debug, fromId, toId, data, tr)
            == Ok(Succeed(fromSymbol, toSymbol, amount, pf.n / pt.n, amount * (pf.n / pt.n), debug, tr))
  {
    assert DivJson(pf, pt) == Ok(pf.n / pt.n);
    var r := CryptoToCrypto(fromSymbol, toSymbol, amount, debug, fromId, toId, data, tr);
    assert r.Ok? && r.value.Some? && r.value.value.Converted?;
    assert r.value.value.rate == pf.n / pt.n;
    assert r.value.value.converted == amount * (pf.n / pt.n);
    assert r.value.value.from == Upper(fromSymbol);
    assert r.value.value.debug == (if debug then Some(tr) else None);
  }

  /** A numeric quote `q` in the fiat is the rate as it is, zero included. */
  lemma CryptoToFiatPriced(fromSymbol: string, toSymbol: string, amount: real, debug: bool,
                           fromId: string, t: string, data: Json, tr: Trace, e: Json, q: Json)
    requires data.JObj?
    requires Lookup(data.fields, fromId) == Some(e)
    requires e.JObj? && Lookup(e.fields, t) == Some(q) && q.JNum?
    ensures CryptoToFiat(fromSymbol, toSymbol, amount, debug, fromId, t, data, tr)
            == Ok(Succeed(fromSymbol, toSymbol, amount, q.n, amount * q.n, debug, tr))
  {
    assert Has(data, fromId) == Ok(true);
    assert Index(data, fromId) == Ok(e);
    assert Contains(e, t) == Ok(true);
    assert Index(e, t) == Ok(q);
    var r := CryptoToFiat(fromSymbol, toSymbol, amount, debug, fromId, t, data, tr);
    assert r.Ok? && r.value.Some? && r.value.value.Converted?;
    assert r.value.value.rate == q.n;
    assert r.value.value.converted == amount * q.n;
    assert r.value.value.from == Upper(fromSymbol);
    assert r.value.value.debug == (if debug then Some(tr) else None);
  }

  /**
   * Fiat to crypto, on an object payload: a missing price gives
   * `no_rate_fiat_to_crypto`, a price equal to zero gives `zero_price`, and
   * any other number `p` gives rate `1/p` and `amount/p`.
   */
  lemma FiatToCryptoOutcomes(fromSymbol: string, toSymbol: string, amount: real, debug: bool,
                             toId: string, f: string, data: Json, tr: Trace)
    requires data.JObj?
    ensures Lookup(data.fields, toId).None? ==>
            FiatToCrypto(fromSymbol, toSymbol, amount, debug, toId, f, data, tr)
            == Ok(Fail(debug, "no_rate_fiat_to_crypto", tr))
    ensures Lookup(data.fields, toId).Some? && Lookup(data.fields, toId).value.JObj? ==>
            var price := Lookup(Lookup(data.fields, toId).value.fields, f);
            && (price.None? ==>
                  FiatToCrypto(fromSymbol, toSymbol, amount, debug, toId, f, data, tr)
                  == Ok(Fail(debug, "no_rate_fiat_to_crypto", tr)))
            && (price.Some? && EqualsZero(price.value) ==>
                  FiatToCrypto(fromSymbol, toSymbol, amount, debug, toId, f, data, tr)
                  == Ok(Fail(debug, "zero_price", tr)))
            && (price.Some? && price.value.JNum? && price.value.n != 0.0 ==>
                  FiatToCrypto(fromSymbol, toSymbol, amount, debug, toId, f, data, tr)
                  == Ok(Succeed(fromSymbol, toSymbol, amount, 1.0 / price.value.n, amount / price.value.n, debug, tr)))
  {
  }

  /**
   * A failed `/simple/price` fetch, or any falsy payload, takes each
   * branch's `if not data` exit: `no_price_usd`, `no_rate_crypto_to_fiat`
   * and `no_rate_fiat_to_crypto` respectively.
   */
  lemma FalsyPayloadFails(fromSymbol: string, toSymbol: string, amount: real, debug: bool,
                          fromId: string, toId: string, f: string, t: string, data: Json, tr: Trace)
    requires !Truthy(data)
    ensures CryptoToCrypto(fromSymbol, toSymbol, amount, debug, fromId, toId, data, tr)
            == Ok(Fail(debug, "no_price_usd", tr))
    ensures CryptoToFiat(fromSymbol, toSymbol, amount, debug, fromId, t, data, tr)
            == Ok(Fail(debug, "no_rate_crypto_to_fiat", tr))
    ensures FiatToCrypto(fromSymbol, toSymbol, amount, debug, toId, f, data, tr)
            == Ok(Fail(debug, "no_rate_fiat_to_crypto", tr))
  {
  }

  // =====================================================================
  // convert_currency
  // =====================================================================

  /** A missing amount returns `None` at once: no fetch, no cache change. */
  lemma NoAmountNoWork(coinIds: map<string, Option<string>>, prices: map<string, Json>,
                       fromSymbol: string, toSymbol: string, debug: bool, net: Net)
    ensures Convert(coinIds, prices, fromSymbol, toSymbol, None, debug, net) == Outcome(Ok(None), coinIds, prices, [])
  {
  }

  /**
   * Every reply of a conversion with an amount is well formed: a success
   * carries the caller's symbols upper-cased and `converted == amount * rate`;
   * a failure is `None` without `debug` and an error dict with it.
   */
  lemma ConvertRepliesWellFormed(coinIds: map<string, Option<string>>, prices: map<string, Json>,
                                 fromSymbol: string, toSymbol: string, amount: real, debug: bool, net: Net)
    ensures var o := Convert(coinIds, prices, fromSymbol, toSymbol, Some(amount), debug, net);
            o.reply.Ok? ==> WellFormed(o.reply.value, fromSymbol, toSymbol, amount, debug)
  {
    var f := Lower(Strip(fromSymbol));
    var t := Lower(Strip(toSymbol));
    var fromIsFiat := f in FIATS;
    var toIsFiat := t in FIATS;
    if !(fromIsFiat && toIsFiat) {
      var rf := ResolveSide(!fromIsFiat, coinIds, f, net);
      var rt := ResolveSide(!toIsFiat, rf.cache, t, net);
      if rf.id.Ok? && rt.id.Ok? {
        var tr1 := if !fromIsFiat then Trace(fromSymbol, toSymbol, amount, fromIsFiat, toIsFiat, Set(rf.id.value), Unset, Unset)
                   else Trace(fromSymbol, toSymbol, amount, fromIsFiat, toIsFiat, Unset, Unset, Unset);
        var tr := if !toIsFiat then tr1.(toId := Set(rt.id.value)) else tr1;
        PriceStageWellFormed(prices, fromSymbol, toSymbol, amount, debug, f, t, rf.id.value, rt.id.value, tr, net);
      }
    }
  }

  /** Two fiat sides always fail, before any fetch and with both caches untouched. */
  lemma FiatPairRejected(coinIds: map<string, Option<string>>, prices: map<string, Json>,
                         fromSymbol: string, toSymbol: string, amount: real, debug: bool, net: Net)
    requires Lower(Strip(fromSymbol)) in FIATS && Lower(Strip(toSymbol)) in FIATS
    ensures var o := Convert(coinIds, prices, fromSymbol, toSymbol, Some(amount), debug, net);
            && o.coinIds == coinIds && o.prices == prices && o.log == []
            && (if debug then o.reply.Ok? && o.reply.value.Some? && o.reply.value.value.Failed?
                              && o.reply.value.value.error == "fiat->fiat not supported"
                else o.reply == Ok(None))
  {
  }

  /** The four classifications cover every pair, so the `unsupported_case` reply never occurs. */
  lemma NeverUnsupportedCase(coinIds: map<string, Option<string>>, prices: map<string, Json>,
                             fromSymbol: string, toSymbol: string, amount: Option<real>, debug: bool, net: Net)
    ensures var o := Convert(coinIds, prices, fromSymbol, toSymbol, amount, debug, net);
            !(o.reply.Ok? && o.reply.value.Some? && o.reply.value.value.Failed?
              && o.reply.value.value.error == "unsupported_case")
  {
    if amount.Some? {
      var f := Lower(Strip(fromSymbol));
      var t := Lower(Strip(toSymbol));
      var fromIsFiat := f in FIATS;
      var toIsFiat := t in FIATS;
      if !(fromIsFiat && toIsFiat) {
        var rf := ResolveSide(!fromIsFiat, coinIds, f, net);
        var rt := ResolveSide(!toIsFiat, rf.cache, t, net);
        if rf.id.Ok? && rt.id.Ok? {
          var tr1 := if !fromIsFiat then Trace(fromSymbol, toSymbol, amount.value, fromIsFiat, toIsFiat, Set(rf.id.value), Unset, Unset)
                     else Trace(fromSymbol, toSymbol, amount.value, fromIsFiat, toIsFiat, Unset, Unset, Unset);
          var tr := if !toIsFiat then tr1.(toId := Set(rt.id.value)) else tr1;
          PriceStageCodes(prices, fromSymbol, toSymbol, amount.value, debug, f, t, rf.id.value, rt.id.value, tr, net);
        }
      }
    }
  }

  /** Once a crypto side is involved, the pricing stage fails only with its own branch's codes. */
  lemma PriceStageCodes(prices: map<string, Json>, fromSymbol: string, toSymbol: string, amount: real, debug: bool,
                        f: string, t: string, fromId: Option<string>, toId: Option<string>, tr: Trace, net: Net)
    requires !(tr.fromIsFiat && tr.toIsFiat)
    ensures var p := PriceStage(prices, fromSymbol, toSymbol, amount, debug, f, t, fromId, toId, tr, net);
            p.reply.Ok? && p.reply.value.Some? && p.reply.value.value.Failed? ==>
            p.reply.value.value.error in
              {"missing_ids", "no_price_usd", "missing_usd_prices", "missing_from_id", "no_rate_crypto_to_fiat",
               "missing_to_id", "no_rate_fiat_to_crypto", "zero_price"}
  {
  }

  /** Every reply of the pricing stage is well formed. */
  lemma PriceStageWellFormed(prices: map<string, Json>, fromSymbol: string, toSymbol: string, amount: real, debug: bool,
                             f: string, t: string, fromId: Option<string>, toId: Option<string>, tr: Trace, net: Net)
    ensures var p := PriceStage(prices, fromSymbol, toSymbol, amount, debug, f, t, fromId, toId, tr, net);
            p.reply.Ok? ==> WellFormed(p.reply.value, fromSymbol, toSymbol, amount, debug)
  {
  }

  /**
   * Crypto to crypto with an id unresolved fails with `missing_ids` before any
   * price is requested: the price cache is untouched and no `/simple/price`
   * request is made.
   */
  lemma MissingIdsBeforePriceFetch(coinIds: map<string, Option<string>>, prices: map<string, Json>,
                                   fromSymbol: string, toSymbol: string, amount: real, debug: bool, net: Net)
    requires Lower(Strip(fromSymbol)) !in FIATS && Lower(Strip(toSymbol)) !in FIATS
    requires var rf := Resolve(coinIds, Lower(Strip(fromSymbol)), net);
             var rt := Resolve(rf.cache, Lower(Strip(toSymbol)), net);
             rf.id.Ok? && rt.id.Ok? && (!TruthyId(rf.id.value) || !TruthyId(rt.id.value))
    ensures var o := Convert(coinIds, prices, fromSymbol, toSymbol, Some(amount), debug, net);
            && o.prices == prices
            && (forall i | 0 <= i < |o.log| :: !o.log[i].SimplePrice?)
            && (if debug then o.reply.Ok? && o.reply.value.Some? && o.reply.value.value.Failed?
                              && o.reply.value.value.error == "missing_ids"
                else o.reply == Ok(None))
  {
    var f := Lower(Strip(fromSymbol));
    var t := Lower(Strip(toSymbol));
    var rf := Resolve(coinIds, f, net);
    var rt := Resolve(rf.cache, t, net);
    ResolveFetchesListOnlyAfterSearch(coinIds, f, net);
    ResolveFetchesListOnlyAfterSearch(rf.cache, t, net);
    var tr := Trace(fromSymbol, toSymbol, amount, false, false, Set(rf.id.value), Set(rt.id.value), Unset);
    assert PriceStage(prices, fromSymbol, toSymbol, amount, debug, f, t, rf.id.value, rt.id.value, tr, net)
           == Priced(Ok(Fail(debug, "missing_ids", tr)), prices, []);
    assert Convert(coinIds, prices, fromSymbol, toSymbol, Some(amount), debug, net)
           == Outcome(Ok(Fail(debug, "missing_ids", tr)), rt.cache, prices, rf.log + rt.log + []);
  }

  /**
   * Crypto to fiat with the coin's id unresolved fails with `missing_from_id`
   * before any price is requested: no `/simple/price` request, price cache
   * untouched.
   */
  lemma MissingFromIdBeforePriceFetch(coinIds: map<string, Option<string>>, prices: map<string, Json>,
                                      fromSymbol: string, toSymbol: string, amount: real, debug: bool, net: Net)
    requires Lower(Strip(fromSymbol)) !in FIATS && Lower(Strip(toSymbol)) in FIATS
    requires var rf := Resolve(coinIds, Lower(Strip(fromSymbol)), net);
             rf.id.Ok? && !TruthyId(rf.id.value)
    ensures var o := Convert(coinIds, prices, fromSymbol, toSymbol, Some(amount), debug, net);
            && o.prices == prices
            && (forall i | 0 <= i < |o.log| :: !o.log[i].SimplePrice?)
            && (if debug then o.reply.Ok? && o.reply.value.Some? && o.reply.value.value.Failed?
                              && o.reply.value.value.error == "missing_from_id"
                else o.reply == Ok(None))
  {
    var f := Lower(Strip(fromSymbol));
    var t := Lower(Strip(toSymbol));
    var rf := Resolve(coinIds, f, net);
    ResolveFetchesListOnlyAfterSearch(coinIds, f, net);
    var tr := Trace(fromSymbol, toSymbol, amount, false, true, Set(rf.id.value), Unset, Unset);
    assert PriceStage(prices, fromSymbol, toSymbol, amount, debug, f, t, rf.id.value, None, tr, net)
           == Priced(Ok(Fail(debug, "missing_from_id", tr)), prices, []);
    assert Convert(coinIds, prices, fromSymbol, toSymbol, Some(amount), debug, net)
           == Outcome(Ok(Fail(debug, "missing_from_id", tr)), rf.cache, prices, rf.log + [] + []);
  }

  /**
   * Fiat to crypto with the coin's id unresolved fails with `missing_to_id`
   * before any price is requested: no `/simple/price` request, price cache
   * untouched.
   */
  lemma MissingToIdBeforePriceFetch(coinIds: map<string, Option<string>>, prices: map<string, Json>,
                                    fromSymbol: string, toSymbol: string, amount: real, debug: bool, net: Net)
    requires Lower(Strip(fromSymbol)) in FIATS && Lower(Strip(toSymbol)) !in FIATS
    requires var rt := Resolve(coinIds, Lower(Strip(toSymbol)), net);
             rt.id.Ok? && !TruthyId(rt.id.value)
    ensures var o := Convert(coinIds, prices, fromSymbol, toSymbol, Some(amount), debug, net);
            && o.prices == prices
            && (forall i | 0 <= i < |o.log| :: !o.log[i].SimplePrice?)
            && (if debug then o.reply.Ok? && o.reply.value.Some? && o.reply.value.value.Failed?
                              && o.reply.value.value.error == "missing_to_id"
                else o.reply == Ok(None))
  {
    var f := Lower(Strip(fromSymbol));
    var t := Lower(Strip(toSymbol));
    var rt := Resolve(coinIds, t, net);
    ResolveFetchesListOnlyAfterSearch(coinIds, t, net);
    var tr := Trace(fromSymbol, toSymbol, amount, true, false, Unset, Set(rt.id.value), Unset);
    assert PriceStage(prices, fromSymbol, toSymbol, amount, debug, f, t, None, rt.id.value, tr, net)
           == Priced(Ok(Fail(debug, "missing_to_id", tr)), prices, []);
    assert Convert(coinIds, prices, fromSymbol, toSymbol, Some(amount), debug, net)
           == Outcome(Ok(Fail(debug, "missing_to_id", tr)), rt.cache, prices, [] + rt.log + []);
  }

  /** A reply with its debug trace removed: what a caller sees without `debug`. */
  function Erased(reply: Py<Option<Reply>>): Py<Option<Reply>> {
    match reply
    case Raise(e) => Raise(e)
    case Ok(None) => Ok(None)
    case Ok(Some(Converted(from, to, a, rate, converted, _))) => Ok(Some(Converted(from, to, a, rate, converted, None)))
    case Ok(Some(Failed(_, _))) => Ok(None)
  }

  lemma BranchesEraseDebug(fromSymbol: string, toSymbol: string, amount: real,
                           x: string, y: string, data: Json, tr: Trace)
    ensures Erased(CryptoToCrypto(fromSymbol, toSymbol, amount, true, x, y, data, tr))
            == CryptoToCrypto(fromSymbol, toSymbol, amount, false, x, y, data, tr)
    ensures Erased(CryptoToFiat(fromSymbol, toSymbol, amount, true, x, y, data, tr))
            == CryptoToFiat(fromSymbol, toSymbol, amount, false, x, y, data, tr)
    ensures Erased(FiatToCrypto(fromSymbol, toSymbol, amount, true, x, y, data, tr))
            == FiatToCrypto(fromSymbol, toSymbol, amount, false, x, y, data, tr)
  {
  }

  /**
   * `debug` changes only the presentation: the same requests, the same
   * caches, the same rate and converted amount; a failure is an error dict
   * with it and `None` without it.
   */
  lemma DebugOnlyChangesPresentation(coinIds: map<string, Option<string>>, prices: map<string, Json>,
                                     fromSymbol: string, toSymbol: string, amount: Option<real>, net: Net)
    ensures var a := Convert(coinIds, prices, fromSymbol, toSymbol, amount, true, net);
            var b := Convert(coinIds, prices, fromSymbol, toSymbol, amount, false, net);
            && a.coinIds == b.coinIds && a.prices == b.prices && a.log == b.log
            && Erased(a.reply) == b.reply
  {
    if amount.Some? {
      var f := Lower(Strip(fromSymbol));
      var t := Lower(Strip(toSymbol));
      var fromIsFiat := f in FIATS;
      var toIsFiat := t in FIATS;
      if !(fromIsFiat && toIsFiat) {
        var rf := ResolveSide(!fromIsFiat, coinIds, f, net);
        var rt := ResolveSide(!toIsFiat, rf.cache, t, net);
        if rf.id.Ok? && rt.id.Ok? {
          var tr1 := if !fromIsFiat then Trace(fromSymbol, toSymbol, amount.value, fromIsFiat, toIsFiat, Set(rf.id.value), Unset, Unset)
                     else Trace(fromSymbol, toSymbol, amount.value, fromIsFiat, toIsFiat, Unset, Unset, Unset);
          var tr := if !toIsFiat then tr1.(toId := Set(rt.id.value)) else tr1;
          var fromId := rf.id.value;
          var toId := rt.id.value;
          if !fromIsFiat && !toIsFiat && TruthyId(fromId) && TruthyId(toId) {
            var p := LookupPrice(prices, fromId.value + "," + toId.value, "usd", net);
            BranchesEraseDebug(fromSymbol, toSymbol, amount.value, fromId.value, toId.value, p.data, tr.(raw := Set(p.data)));
          } else if !fromIsFiat && toIsFiat && TruthyId(fromId) {
            var p := LookupPrice(prices, fromId.value, t, net);
            BranchesEraseDebug(fromSymbol, toSymbol, amount.value, fromId.value, t, p.data, tr.(raw := Set(p.data)));
          } else if fromIsFiat && !toIsFiat && TruthyId(toId) {
            var p := LookupPrice(prices, toId.value, f, net);
            BranchesEraseDebug(fromSymbol, toSymbol, amount.value, toId.value, f, p.data, tr.(raw := Set(p.data)));
          }
        }
      }
    }
  }

  /**
   * Without `debug` the pricing stage sees the caller's symbols only through
   * their upper-case forms, and the trace not at all.
   */
  lemma PriceStageIgnoresTrace(prices: map<string, Json>, a: string, b: string, a2: string, b2: string,
                               amount: real, f: string, t: string, fromId: Option<string>, toId: Option<string>,
                               tr: Trace, tr2: Trace, net: Net)
    requires Upper(a) == Upper(a2) && Upper(b) == Upper(b2)
    requires tr.fromIsFiat == tr2.fromIsFiat && tr.toIsFiat == tr2.toIsFiat
    ensures PriceStage(prices, a, b, amount, false, f, t, fromId, toId, tr, net)
            == PriceStage(prices, a2, b2, amount, false, f, t, fromId, toId, tr2, net)
  {
  }

  /**
   * Symbols are trimmed and lower-cased before use, so a caller who
   * upper-cases them gets the same reply, the same caches and the same
   * requests (the trace, shown only under `debug`, keeps the symbols as given).
   */
  lemma ConvertIgnoresCase(coinIds: map<string, Option<string>>, prices: map<string, Json>,
                           fromSymbol: string, toSymbol: string, amount: Option<real>, net: Net)
    ensures Convert(coinIds, prices, Upper(fromSymbol), Upper(toSymbol), amount, false, net)
            == Convert(coinIds, prices, fromSymbol, toSymbol, amount, false, net)
  {
    StripUpper(fromSymbol);
    StripUpper(toSymbol);
    LowerUpper(Strip(fromSymbol));
    LowerUpper(Strip(toSymbol));
    UpperUpper(fromSymbol);
    UpperUpper(toSymbol);
    if amount.Some? {
      var f := Lower(Strip(fromSymbol));
      var t := Lower(Strip(toSymbol));
      var fromIsFiat := f in FIATS;
      var toIsFiat := t in FIATS;
      if !(fromIsFiat && toIsFiat) {
        var rf := ResolveSide(!fromIsFiat, coinIds, f, net);
        var rt := ResolveSide(!toIsFiat, rf.cache, t, net);
        if rf.id.Ok? && rt.id.Ok? {
          var tr0 := Trace(fromSymbol, toSymbol, amount.value, fromIsFiat, toIsFiat, Unset, Unset, Unset);
          var tr1 := if !fromIsFiat then tr0.(fromId := Set(rf.id.value)) else tr0;
          var tr := if !toIsFiat then tr1.(toId := Set(rt.id.value)) else tr1;
          var up0 := Trace(Upper(fromSymbol), Upper(toSymbol), amount.value, fromIsFiat, toIsFiat, Unset, Unset, Unset);
          var up1 := if !fromIsFiat then up0.(fromId := Set(rf.id.value)) else up0;
          var up := if !toIsFiat then up1.(toId := Set(rt.id.value)) else up1;
          PriceStageIgnoresTrace(prices, fromSymbol, toSymbol, Upper(fromSymbol), Upper(toSymbol), amount.value,
                                 f, t, rf.id.value, rt.id.value, tr, up, net);
        }
      }
    }
  }

  // =====================================================================
  // A worked example
  // =====================================================================

  /**
   * 2 BTC in ETH with both ids and the price payload already cached: no
   * request is made, and with BTC at 50000 USD and ETH at 2500 USD the rate
   * is 20 and the result 40.
   */
  lemma BtcToEthFromCache(net: Net)
    ensures var ids := map["btc" := Some("bitcoin"), "eth" := Some("ethereum")];
            var prices := map["bitcoin,ethereum|usd" := ExamplePayload()];
            Convert(ids, prices, "BTC", "ETH", Some(2.0), false, net)
            == Outcome(Ok(Some(Converted("BTC", "ETH", 2.0, 20.0, 40.0, None))), ids, prices, [])
  {
    var ids := map["btc" := Some("bitcoin"), "eth" := Some("ethereum")];
    var prices := map["bitcoin,ethereum|usd" := ExamplePayload()];
    ExampleSymbols();
    var rf := ResolveSide(true, ids, "btc", net);
    assert rf == Resolution(Ok(Some("bitcoin")), ids, []);
    var rt := ResolveSide(true, ids, "eth", net);
    assert rt == Resolution(Ok(Some("ethereum")), ids, []);
    ExamplePriceStage(net);
  }

  /** The price stage of the example: a cached payload, no request, rate 20. */
  lemma ExamplePriceStage(net: Net)
    ensures var prices := map["bitcoin,ethereum|usd" := ExamplePayload()];
            var tr := Trace("BTC", "ETH", 2.0, false, false, Set(Some("bitcoin")), Set(Some("ethereum")), Unset);
            PriceStage(prices, "BTC", "ETH", 2.0, false, "btc", "eth", Some("bitcoin"), Some("ethereum"), tr, net)
            == Priced(Ok(Some(Converted("BTC", "ETH", 2.0, 20.0, 40.0, None))), prices, [])
  {
    var payload := ExamplePayload();
    var prices := map["bitcoin,ethereum|usd" := payload];
    ExampleLookup(net);
    ExamplePayloadPrices();
    var tr := Trace("BTC", "ETH", 2.0, false, false, Set(Some("bitcoin")), Set(Some("ethereum")), Unset);
    CryptoToCryptoPriced("BTC", "ETH", 2.0, false, "bitcoin", "ethereum", payload, tr.(raw := Set(payload)),
                         JNum(50000.0), JNum(2500.0));
    ExampleSymbols();
    assert 50000.0 / 2500.0 == 20.0;
    assert 2.0 * 20.0 == 40.0;
  }

  /** The `/simple/price` payload of the example: BTC at 50000 USD, ETH at 2500 USD. */
  function ExamplePayload(): Json {
    JObj([("bitcoin", JObj([("usd", JNum(50000.0))])), ("ethereum", JObj([("usd", JNum(2500.0))]))])
  }

  /** The example's USD prices as `_simple_price`'s caller reads them. */
  lemma ExamplePayloadPrices()
    ensures var fields := ExamplePayload().fields;
            && Lookup(fields, "bitcoin") == Some(JObj([("usd", JNum(50000.0))]))
            && Lookup(fields, "ethereum") == Some(JObj([("usd", JNum(2500.0))]))
            && Get(JObj([("usd", JNum(50000.0))]), "usd", JNull) == Ok(JNum(50000.0))
            && Get(JObj([("usd", JNum(2500.0))]), "usd", JNull) == Ok(JNum(2500.0))
  {
    var fields := ExamplePayload().fields;
    assert fields[1].0 == "ethereum" && fields[0].0 == "bitcoin";
    assert "bitcoin"[0] != "ethereum"[0];
  }

  /** The example's joined ids hit the price cache. */
  lemma ExampleLookup(net: Net)
    ensures var prices := map["bitcoin,ethereum|usd" := ExamplePayload()];
            LookupPrice(prices, "bitcoin" + "," + "ethereum", "usd", net) == PriceLookup(ExamplePayload(), prices, [])
  {
    assert "bitcoin" + "," + "ethereum" == "bitcoin,ethereum";
    assert PriceKey("bitcoin,ethereum", "usd") == "bitcoin,ethereum|usd";
  }

  /**
   * 1000 USD in BTC with the id and the quote cached: with BTC at 50000 USD
   * the rate is 0.00002 and the result 0.02, and no request is made.
   */
  lemma UsdToBtcFromCache(net: Net)
    ensures var ids := map["btc" := Some("bitcoin")];
            var prices := map["bitcoin|usd" := BtcQuote()];
            Convert(ids, prices, "USD", "BTC", Some(1000.0), false, net)
            == Outcome(Ok(Some(Converted("USD", "BTC", 1000.0, 0.00002, 0.02, None))), ids, prices, [])
  {
    var ids := map["btc" := Some("bitcoin")];
    ExampleFiatSymbols();
    var rt := ResolveSide(true, ids, "btc", net);
    assert rt == Resolution(Ok(Some("bitcoin")), ids, []);
    UsdToBtcPriceStage(net);
  }

  /** The price stage of the second example: the cached quote inverted. */
  lemma UsdToBtcPriceStage(net: Net)
    ensures var prices := map["bitcoin|usd" := BtcQuote()];
            var tr := Trace("USD", "BTC", 1000.0, true, false, Unset, Set(Some("bitcoin")), Unset);
            PriceStage(prices, "USD", "BTC", 1000.0, false, "usd", "btc", None, Some("bitcoin"), tr, net)
            == Priced(Ok(Some(Converted("USD", "BTC", 1000.0, 0.00002, 0.02, None))), prices, [])
  {
    var prices := map["bitcoin|usd" := BtcQuote()];
    assert PriceKey("bitcoin", "usd") == "bitcoin|usd";
    assert LookupPrice(prices, "bitcoin", "usd", net) == PriceLookup(BtcQuote(), prices, []);
    var entry := JObj([("usd", JNum(50000.0))]);
    assert Lookup(BtcQuote().fields, "bitcoin") == Some(entry);
    assert Lookup(entry.fields, "usd") == Some(JNum(50000.0));
    var tr := Trace("USD", "BTC", 1000.0, true, false, Unset, Set(Some("bitcoin")), Unset);
    FiatToCryptoOutcomes("USD", "BTC", 1000.0, false, "bitcoin", "usd", BtcQuote(), tr.(raw := Set(BtcQuote())));
    ExampleFiatSymbols();
    assert 1.0 / 50000.0 == 0.00002;
    assert 1000.0 / 50000.0 == 0.02;
  }

  /** The `/simple/price` payload of the second example: BTC at 50000 USD. */
  function BtcQuote(): Json {
    JObj([("bitcoin", JObj([("usd", JNum(50000.0))]))])
  }

  /** The working and echoed forms of the second example's symbols. */
  lemma ExampleFiatSymbols()
    ensures Lower(Strip("USD")) == "usd" && Lower(Strip("BTC")) == "btc"
    ensures Upper("USD") == "USD" && Upper("BTC") == "BTC"
    ensures Lower("btc") == "btc"
    ensures "usd" in FIATS && "btc" !in FIATS
  {
    assert StripLeft("USD") == "USD" && StripRight("USD") == "USD";
    assert StripLeft("BTC") == "BTC" && StripRight("BTC") == "BTC";
  }

  /** The working and echoed forms of the example's symbols. */
  lemma ExampleSymbols()
    ensures Lower(Strip("BTC")) == "btc" && Lower(Strip("ETH")) == "eth"
    ensures Upper("BTC") == "BTC" && Upper("ETH") == "ETH"
    ensures Lower("btc") == "btc" && Lower("eth") == "eth"
    ensures "btc" !in FIATS && "eth" !in FIATS
  {
    assert StripLeft("BTC") == "BTC" && StripRight("BTC") == "BTC";
    assert StripLeft("ETH") == "ETH" && StripRight("ETH") == "ETH";
  }
}
