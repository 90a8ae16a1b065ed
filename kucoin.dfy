/**
 * services/kucoin.py: the symbol KuCoin is asked for, and the best price
 * read out of its level-1 order book reply.
 */
module KuCoin {
  import opened PyStrings
  import opened PyJson

  /** `'-' in s` for a one-character needle. */
  predicate HasDash(s: string) {
    '-' in s
  }

  /** The `symbol` parameter: `BTCUSDT` style becomes `BTC-USDT`; a symbol with a dash is left alone. */
  function Pair(symbol: string): string {
    if EndsWith(symbol, "USDT") && !HasDash(symbol) then ReplaceAll(symbol, "USDT", "-USDT") else symbol
  }

  /** `float(data["data"]["price"])` */
  function BestPrice(data: Json, parse: string -> Option<real>): Py<real> {
    var inner :- Index(data, "data");
    var price :- Index(inner, "price");
    Float(price, parse)
  }

  /** `get_kucoin_price` after the request: `KeyError` and `TypeError` become `None`. */
  function Price(data: Json, parse: string -> Option<real>): Py<Option<real>> {
    match BestPrice(data, parse)
    case Ok(p) => Ok(Some(p))
    case Raise(e) => if e == KeyError || e == TypeError then Ok(None) else Raise(e)
  }

  // ---------------------------------------------------------------------
  // The symbol rewrite
  // ---------------------------------------------------------------------

  /** A rewritten symbol still ends with `USDT`, now as `-USDT`, so it contains a dash. */
  lemma PairKeepsUsdtSuffix(symbol: string)
    requires EndsWith(symbol, "USDT") && !HasDash(symbol)
    ensures EndsWith(Pair(symbol), "-USDT")
    ensures EndsWith(Pair(symbol), "USDT") && HasDash(Pair(symbol))
  {
    UsdtUnbordered();
    ReplaceAllKeepsSuffix(symbol, "USDT", "-USDT");
    var p := Pair(symbol);
    assert p[|p| - 5] == '-';
    assert p[|p| - 4..] == p[|p| - 5..][1..];
  }

  /** Symbols with a dash, or not ending with `USDT`, are used as given. */
  lemma PairUnchanged(symbol: string)
    requires !EndsWith(symbol, "USDT") || HasDash(symbol)
    ensures Pair(symbol) == symbol
  {
  }

  /** Rewriting twice changes nothing more. */
  lemma PairIdempotent(symbol: string)
    ensures Pair(Pair(symbol)) == Pair(symbol)
  {
    if EndsWith(symbol, "USDT") && !HasDash(symbol) {
      PairKeepsUsdtSuffix(symbol);
    }
  }

  /** `replace` rewrites every occurrence, not just the suffix. */
  lemma PairExamples()
    ensures Pair("BTCUSDT") == "BTC-USDT"
    ensures Pair("USDTUSDT") == "-USDT-USDT"
    ensures Pair("BTC-USDT") == "BTC-USDT"
  {
    assert EndsWith("BTCUSDT", "USDT");
    assert !HasDash("BTCUSDT");
    assert ReplaceAll("BTCUSDT", "USDT", "-USDT") == "BTC-USDT" by {
      assert "BTCUSDT"[..4][0] == 'B';
      assert "BTCUSDT"[1..] == "TCUSDT";
      assert "TCUSDT"[..4][0] == 'T';
      assert "TCUSDT"[1..] == "CUSDT";
      assert "CUSDT"[..4][0] == 'C';
      assert "CUSDT"[1..] == "USDT";
      assert "USDT"[..4] == "USDT";
      assert "USDT"[4..] == "";
    }
    assert EndsWith("USDTUSDT", "USDT");
    assert !HasDash("USDTUSDT");
    assert ReplaceAll("USDTUSDT", "USDT", "-USDT") == "-USDT-USDT" by {
      assert "USDTUSDT"[..4] == "USDT";
      assert "USDTUSDT"[4..] == "USDT";
      assert "USDT"[..4] == "USDT";
      assert "USDT"[4..] == "";
    }
    assert HasDash("BTC-USDT") by {
      assert "BTC-USDT"[3] == '-';
    }
  }

  // ---------------------------------------------------------------------
  // The price
  // ---------------------------------------------------------------------

  /** A price that parses is the answer. */
  lemma PriceOfBook(data: Json, parse: string -> Option<real>, inner: Json, t: string, x: real)
    requires data.JObj? && Lookup(data.fields, "data") == Some(inner)
    requires inner.JObj? && Lookup(inner.fields, "price") == Some(JStr(t))
    requires parse(t) == Some(x)
    ensures Price(data, parse) == Ok(Some(x))
  {
  }

  /**
   * A `null` reply, a reply without `data`, a `null` `data` (KuCoin's answer
   * for an unknown symbol) or a `null` price all give `None`.
   */
  lemma MissingPriceIsNone(data: Json, parse: string -> Option<real>)
    requires || data.JNull?
             || (data.JObj? && Lookup(data.fields, "data").None?)
             || (data.JObj? && Lookup(data.fields, "data") == Some(JNull))
             || (data.JObj? && Lookup(data.fields, "data").Some? && Lookup(data.fields, "data").value.JObj?
                 && Lookup(Lookup(data.fields, "data").value.fields, "price") == Some(JNull))
    ensures Price(data, parse) == Ok(None)
  {
  }

  /** A price that is text but not a number is not caught: `ValueError` escapes. */
  lemma UnparsablePriceRaises(data: Json, parse: string -> Option<real>, inner: Json, t: string)
    requires data.JObj? && Lookup(data.fields, "data") == Some(inner)
    requires inner.JObj? && Lookup(inner.fields, "price") == Some(JStr(t))
    requires parse(t).None?
    ensures Price(data, parse) == Raise(ValueError)
  {
  }

  /** The answer is `None` exactly when the lookup or the conversion raised `KeyError` or `TypeError`. */
  lemma PriceNoneIff(data: Json, parse: string -> Option<real>)
    ensures Price(data, parse) == Ok(None) <==> BestPrice(data, parse) in {Raise(KeyError), Raise(TypeError)}
  {
  }
}
