/**
 * services/coinbase.py: the currency pair Coinbase is asked for, and the
 * spot amount read out of its reply, with no error handling.
 */
module Coinbase {
  import opened PyStrings
  import opened PyJson

  /** The pair in the URL: `BTCUSDT` style becomes `BTC-USD`; anything else is used as given. */
  function Pair(symbol: string): string {
    if EndsWith(symbol, "USDT") then ReplaceAll(symbol, "USDT", "-USD") else symbol
  }

  /** `get_coinbase_price` after the request: `float(data["data"]["amount"])`, every exception escaping. */
  function Price(data: Json, parse: string -> Option<real>): Py<real> {
    var inner :- Index(data, "data");
    var amount :- Index(inner, "amount");
    Float(amount, parse)
  }

  /** A rewritten pair ends with `-USD`, and so no longer ends with `USDT`. */
  lemma PairEndsWithUsd(symbol: string)
    requires EndsWith(symbol, "USDT")
    ensures EndsWith(Pair(symbol), "-USD")
    ensures !EndsWith(Pair(symbol), "USDT")
  {
    UsdtUnbordered();
    ReplaceAllKeepsSuffix(symbol, "USDT", "-USD");
    var p := Pair(symbol);
    assert p[|p| - 4] == '-';
  }

  /** A symbol not ending with `USDT` is the pair as it is. */
  lemma PairUnchanged(symbol: string)
    requires !EndsWith(symbol, "USDT")
    ensures Pair(symbol) == symbol
  {
  }

  /** Rewriting twice changes nothing more. */
  lemma PairIdempotent(symbol: string)
    ensures Pair(Pair(symbol)) == Pair(symbol)
  {
    if EndsWith(symbol, "USDT") {
      PairEndsWithUsd(symbol);
    }
  }

  lemma PairExample()
    ensures Pair("BTCUSDT") == "BTC-USD"
  {
    assert EndsWith("BTCUSDT", "USDT");
    assert ReplaceAll("BTCUSDT", "USDT", "-USD") == "BTC-USD" by {
      assert "BTCUSDT"[..4][0] == 'B';
      assert "BTCUSDT"[1..] == "TCUSDT";
      assert "TCUSDT"[..4][0] == 'T';
      assert "TCUSDT"[1..] == "CUSDT";
      assert "CUSDT"[..4][0] == 'C';
      assert "CUSDT"[1..] == "USDT";
      assert "USDT"[..4] == "USDT";
      assert "USDT"[4..] == "";
    }
  }

  /** A spot amount that parses is the answer. */
  lemma PriceOfSpot(data: Json, parse: string -> Option<real>, inner: Json, t: string, x: real)
    requires data.JObj? && Lookup(data.fields, "data") == Some(inner)
    requires inner.JObj? && Lookup(inner.fields, "amount") == Some(JStr(t))
    requires parse(t) == Some(x)
    ensures Price(data, parse) == Ok(x)
  {
  }

  /**
   * Nothing is caught: a reply without `data` raises `KeyError`, a `null`
   * reply or `null` amount raises `TypeError`, where KuCoin would answer
   * `None`.
   */
  lemma MissingAmountRaises(data: Json, parse: string -> Option<real>)
    ensures data.JObj? && Lookup(data.fields, "data").None? ==> Price(data, parse) == Raise(KeyError)
    ensures data.JNull? ==> Price(data, parse) == Raise(TypeError)
    ensures data.JObj? && Lookup(data.fields, "data").Some? && Lookup(data.fields, "data").value.JObj?
            && Lookup(Lookup(data.fields, "data").value.fields, "amount") == Some(JNull) ==>
            Price(data, parse) == Raise(TypeError)
  {
  }
}
