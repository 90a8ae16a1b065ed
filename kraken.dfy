/**
 * services/kraken.py: the pair name Kraken is asked for, and the last-trade
 * price read out of its ticker reply.
 */
module Kraken {
  import opened PyStrings
  import opened PyJson

  /** The `pair` parameter: a symbol starting with `BTC` gets an `X` in front. */
  function Pair(symbol: string): string {
    if StartsWith(symbol, "BTC") then "X" + symbol[0..3] + symbol[3..] else symbol
  }

  /**
   * The `try` body: `data["result"]`, its first key, that entry's `c`, its
   * first element, and `float` of it (`parse` stands for Python's float
   * parsing of text).
   */
  function LastTrade(data: Json, parse: string -> Option<real>): Py<real> {
    var result :- Index(data, "result");
    var key :- FirstKey(result);
    var entry :- Index(result, key);
    var c :- Index(entry, "c");
    var first :- IndexZero(c);
    Float(first, parse)
  }

  /** `get_kraken_price` after the request: `KeyError` and `IndexError` become `None`, any other exception escapes. */
  function Price(data: Json, parse: string -> Option<real>): Py<Option<real>> {
    match LastTrade(data, parse)
    case Ok(p) => Ok(Some(p))
    case Raise(e) => if e == KeyError || e == IndexError then Ok(None) else Raise(e)
  }

  // ---------------------------------------------------------------------
  // The pair rewrite
  // ---------------------------------------------------------------------

  /**
   * The rewrite puts `X` in front of a `BTC` symbol and leaves every other
   * symbol alone; when it applies the pair is one character longer.
   */
  lemma PairPrefixesX(symbol: string)
    ensures StartsWith(symbol, "BTC") ==> Pair(symbol) == "X" + symbol && |Pair(symbol)| == |symbol| + 1
    ensures !StartsWith(symbol, "BTC") ==> Pair(symbol) == symbol
  {
    if StartsWith(symbol, "BTC") {
      assert symbol[0..3] + symbol[3..] == symbol;
    }
  }

  /** Rewriting twice changes nothing more: the rewritten pair starts with `X`, not `BTC`. */
  lemma PairIdempotent(symbol: string)
    ensures Pair(Pair(symbol)) == Pair(symbol)
  {
    PairPrefixesX(symbol);
    if StartsWith(symbol, "BTC") {
      assert Pair(symbol)[0] == 'X';
    }
  }

  /** `BTCUSDT` is sent as `XBTCUSDT`; Kraken's own name for the pair, `XBTUSDT`, is never produced. */
  lemma BtcUsdtPair()
    ensures Pair("BTCUSDT") == "XBTCUSDT"
    ensures Pair("BTCUSDT") != "XBTUSDT"
  {
    PairPrefixesX("BTCUSDT");
  }

  /**
   * The rewrite the comment beside it describes (`BTCUSDT` to `XBTUSDT`):
   * Kraken's asset code `XBT` takes the place of `BTC`.
   */
  function IntendedPair(symbol: string): string {
    if StartsWith(symbol, "BTC") then "XBT" + symbol[3..] else symbol
  }

  /**
   * The intended rewrite keeps the quote currency and the length, and
   * sends `BTCUSDT` as `XBTUSDT`; symbols without `BTC` in front are used
   * as given, as by `Pair`.
   */
  lemma IntendedPairRenamesBtc(symbol: string)
    ensures |IntendedPair(symbol)| == |symbol|
    ensures |symbol| >= 3 ==> IntendedPair(symbol)[3..] == symbol[3..]
    ensures StartsWith(symbol, "BTC") ==> StartsWith(IntendedPair(symbol), "XBT")
    ensures !StartsWith(symbol, "BTC") ==> IntendedPair(symbol) == Pair(symbol)
    ensures IntendedPair("BTCUSDT") == "XBTUSDT"
  {
    assert "BTCUSDT"[..3] == "BTC";
    assert "XBT" + "BTCUSDT"[3..] == "XBTUSDT";
    if StartsWith(symbol, "BTC") {
      assert IntendedPair(symbol)[..3] == "XBT";
    }
  }

  /** For every symbol with `BTC` in front, the pair sent differs from the intended one. */
  lemma PairMissesIntended(symbol: string)
    requires StartsWith(symbol, "BTC")
    ensures Pair(symbol) != IntendedPair(symbol)
  {
    PairPrefixesX(symbol);
    IntendedPairRenamesBtc(symbol);
  }

  // ---------------------------------------------------------------------
  // The price
  // ---------------------------------------------------------------------

  /** The first pair's last-trade price, when it parses, is the answer. */
  lemma PriceOfFirstPair(data: Json, parse: string -> Option<real>, result: Json, entry: Json, t: string,
                         rest: seq<Json>, x: real)
    requires data.JObj? && Lookup(data.fields, "result") == Some(result)
    requires result.JObj? && |result.fields| > 0 && Lookup(result.fields, result.fields[0].0) == Some(entry)
    requires entry.JObj? && Lookup(entry.fields, "c") == Some(JArr([JStr(t)] + rest))
    requires parse(t) == Some(x)
    ensures Price(data, parse) == Ok(Some(x))
  {
  }

  /** A reply without `result`, or with an empty `result`, gives `None`. */
  lemma MissingResultIsNone(data: Json, parse: string -> Option<real>)
    requires data.JObj?
    requires Lookup(data.fields, "result").None? || Lookup(data.fields, "result") == Some(JObj([]))
    ensures Price(data, parse) == Ok(None)
  {
  }

  /** An entry without `c`, or with an empty `c`, gives `None`. */
  lemma MissingTradeIsNone(data: Json, parse: string -> Option<real>, result: Json, entry: Json)
    requires data.JObj? && Lookup(data.fields, "result") == Some(result)
    requires result.JObj? && |result.fields| > 0 && Lookup(result.fields, result.fields[0].0) == Some(entry)
    requires entry.JObj? && (Lookup(entry.fields, "c").None? || Lookup(entry.fields, "c") == Some(JArr([])))
    ensures Price(data, parse) == Ok(None)
  {
  }

  /** A last-trade value that is text but not a number is not caught: `ValueError` escapes. */
  lemma UnparsableTradeRaises(data: Json, parse: string -> Option<real>, result: Json, entry: Json, t: string,
                              rest: seq<Json>)
    requires data.JObj? && Lookup(data.fields, "result") == Some(result)
    requires result.JObj? && |result.fields| > 0 && Lookup(result.fields, result.fields[0].0) == Some(entry)
    requires entry.JObj? && Lookup(entry.fields, "c") == Some(JArr([JStr(t)] + rest))
    requires parse(t).None?
    ensures Price(data, parse) == Raise(ValueError)
  {
  }

  /** A `null` reply is subscripted anyway: `TypeError` is not among the caught exceptions. */
  lemma NullReplyRaises(parse: string -> Option<real>)
    ensures Price(JNull, parse) == Raise(TypeError)
  {
  }

  /** The answer is `None` exactly when the lookup hit a missing key or an empty sequence. */
  lemma PriceNoneIff(data: Json, parse: string -> Option<real>)
    ensures Price(data, parse) == Ok(None) <==> LastTrade(data, parse) in {Raise(KeyError), Raise(IndexError)}
  {
  }
}
