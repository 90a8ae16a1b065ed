/**
 * services/coins.py: the list of active coins from CoinPaprika's `/coins`,
 * each reduced to five fields. Any failure, from the fetch to a malformed
 * entry, gives the empty list.
 */
module Coins {
  import opened PyJson

  /** An output record: `id`, `name`, `symbol`, `is_active` and `type`. */
  datatype Coin = Coin(id: Json, name: Json, symbol: Json, isActive: Json, kind: Json)

  /** `c.get(k)` on an object (`None` when the key is missing); `None` for anything else. */
  function Field(c: Json, k: string): Json {
    if c.JObj? then Get(c, k, JNull).value else JNull
  }

  /** The record built for one coin. */
  function Project(c: Json): Coin {
    Coin(Field(c, "id"), Field(c, "name"), Field(c, "symbol"),
         if c.JObj? then Get(c, "is_active", JBool(false)).value else JBool(false),
         Field(c, "type"))
  }

  /**
   * The comprehension `[{...} for coin in data if coin.get("is_active")]`
   * over the elements `items`: the projection of every coin whose
   * `is_active` is truthy, in order, or the `AttributeError` of the first
   * element that is not an object.
   */
  function ActiveFrom(items: seq<Json>): (r: Py<seq<Coin>>)
    ensures r.Ok? ==> |r.value| <= |items|
    decreases |items|
  {
    if |items| == 0 then Ok([])
    else
      var active :- Get(items[0], "is_active", JNull);
      var rest :- ActiveFrom(items[1..]);
      if Truthy(active) then Ok([Project(items[0])] + rest) else Ok(rest)
  }

  /**
   * `get_coins()` given the decoded body of the `/coins` request (`None` when
   * the request, its status or its decoding failed): every exception is
   * caught and turned into `[]`.
   */
  function GetCoins(body: Option<Json>): seq<Coin> {
    match body
    case None => []
    case Some(data) =>
      match Iterate(data)
      case Raise(_) => []
      case Ok(items) =>
        match ActiveFrom(items)
        case Raise(_) => []
        case Ok(coins) => coins
  }

  // ---------------------------------------------------------------------
  // The reference filter
  // ---------------------------------------------------------------------

  /** `is_active` as the filter reads it. */
  function ActiveFlag(c: Json): Json {
    Field(c, "is_active")
  }

  /** The positions of the entries the filter keeps, in increasing order. */
  function ActiveIndices(items: seq<Json>): (idx: seq<nat>)
    ensures forall j | 0 <= j < |idx| :: idx[j] < |items|
    decreases |items|
  {
    if |items| == 0 then []
    else (if Truthy(ActiveFlag(items[0])) then [0] else []) + Shift(ActiveIndices(items[1..]))
  }

  /** Every position moved one entry to the right. */
  function Shift(idx: seq<nat>): (r: seq<nat>)
    ensures |r| == |idx| && forall j | 0 <= j < |idx| :: r[j] == idx[j] + 1
  {
    seq(|idx|, j requires 0 <= j < |idx| => idx[j] + 1)
  }

  /** The kept positions are strictly increasing and are exactly those with a truthy `is_active`. */
  lemma ActiveIndicesExact(items: seq<Json>)
    ensures var idx := ActiveIndices(items);
            && (forall i, j | 0 <= i < j < |idx| :: idx[i] < idx[j])
            && (forall k | 0 <= k < |items| :: k in idx <==> Truthy(ActiveFlag(items[k])))
  {
    ActiveIndicesIncreasing(items);
    ActiveIndicesMembers(items);
  }

  lemma {:induction false} ActiveIndicesIncreasing(items: seq<Json>)
    ensures forall i, j | 0 <= i < j < |ActiveIndices(items)| :: ActiveIndices(items)[i] < ActiveIndices(items)[j]
    decreases |items|
  {
    if |items| > 0 {
      ActiveIndicesIncreasing(items[1..]);
      var rest := ActiveIndices(items[1..]);
      var head: seq<nat> := if Truthy(ActiveFlag(items[0])) then [0] else [];
      var shifted := Shift(rest);
      var idx := ActiveIndices(items);
      assert idx == head + shifted;
      forall i, j | 0 <= i < j < |idx| ensures idx[i] < idx[j] {
        var h := |head|;
        assert idx[j] == shifted[j - h] == rest[j - h] + 1;
        if i >= h {
          assert idx[i] == shifted[i - h] == rest[i - h] + 1;
          assert rest[i - h] < rest[j - h];
        } else {
          assert idx[i] == 0;
        }
      }
    }
  }

  /** Position `k` is kept by `Shift` exactly when `k - 1` was there. */
  lemma ShiftMembers(idx: seq<nat>, k: nat)
    ensures k in Shift(idx) <==> k > 0 && k - 1 in idx
  {
    var r := Shift(idx);
    if k in r {
      var j :| 0 <= j < |r| && r[j] == k;
      assert idx[j] == k - 1;
    }
    if k > 0 && k - 1 in idx {
      var j :| 0 <= j < |idx| && idx[j] == k - 1;
      assert r[j] == k;
    }
  }

  lemma {:induction false} ActiveIndicesMembers(items: seq<Json>)
    ensures forall k | 0 <= k < |items| :: k in ActiveIndices(items) <==> Truthy(ActiveFlag(items[k]))
    decreases |items|
  {
    if |items| > 0 {
      var rest := ActiveIndices(items[1..]);
      ActiveIndicesMembers(items[1..]);
      var head: seq<nat> := if Truthy(ActiveFlag(items[0])) then [0] else [];
      var idx := ActiveIndices(items);
      assert idx == head + Shift(rest);
      forall k | 0 <= k < |items| ensures k in idx <==> Truthy(ActiveFlag(items[k])) {
        ShiftMembers(rest, k);
        if k > 0 {
          assert items[1..][k - 1] == items[k];
        }
      }
    }
  }

  /**
   * On a list of objects the comprehension keeps exactly the entries whose
   * `is_active` is truthy, in input order, each projected.
   */
  lemma {:induction false} ActiveFromSelects(items: seq<Json>)
    requires forall k | 0 <= k < |items| :: items[k].JObj?
    ensures var r := ActiveFrom(items);
            var idx := ActiveIndices(items);
            && r.Ok? && |r.value| == |idx|
            && forall j | 0 <= j < |idx| :: r.value[j] == Project(items[idx[j]])
    decreases |items|
  {
    if |items| > 0 {
      ActiveFromSelects(items[1..]);
      var tail := ActiveFrom(items[1..]).value;
      var rest := ActiveIndices(items[1..]);
      var shifted := Shift(rest);
      forall j | 0 <= j < |rest| ensures items[1..][rest[j]] == items[shifted[j]] {
      }
      ActiveFromHead(items);
      if Truthy(ActiveFlag(items[0])) {
        assert ActiveIndices(items) == [0] + shifted;
      } else {
        assert ActiveIndices(items) == [] + shifted;
      }
    }
  }

  /** One step of the comprehension on an object entry: it is kept, projected, exactly when its flag is truthy. */
  lemma ActiveFromHead(items: seq<Json>)
    requires |items| > 0 && items[0].JObj? && ActiveFrom(items[1..]).Ok?
    ensures ActiveFrom(items) == Ok((if Truthy(ActiveFlag(items[0])) then [Project(items[0])] else [])
                                    + ActiveFrom(items[1..]).value)
  {
    assert Get(items[0], "is_active", JNull) == Ok(ActiveFlag(items[0]));
    if !Truthy(ActiveFlag(items[0])) {
      assert [] + ActiveFrom(items[1..]).value == ActiveFrom(items[1..]).value;
    }
  }

  /** The list a well-formed body gives: its active coins, in order, and never more entries than the body. */
  lemma GetCoinsSelectsActive(items: seq<Json>)
    requires forall k | 0 <= k < |items| :: items[k].JObj?
    ensures var out := GetCoins(Some(JArr(items)));
            var idx := ActiveIndices(items);
            && |out| == |idx| <= |items|
            && (forall j | 0 <= j < |idx| :: out[j] == Project(items[idx[j]]))
            && (forall k | 0 <= k < |items| :: (exists j | 0 <= j < |idx| :: idx[j] == k) <==> Truthy(ActiveFlag(items[k])))
  {
    ActiveFromSelects(items);
    ActiveIndicesExact(items);
  }

  /** Every record returned is an active coin: its `is_active` is truthy. */
  lemma {:induction false} ActiveFromKeepsActive(items: seq<Json>)
    ensures var r := ActiveFrom(items);
            r.Ok? ==> forall j | 0 <= j < |r.value| :: Truthy(r.value[j].isActive)
    decreases |items|
  {
    if |items| > 0 {
      ActiveFromKeepsActive(items[1..]);
    }
  }

  /** Each record copies the five fields; a missing `id`, `name`, `symbol` or `type` becomes `None`. */
  lemma ProjectCopiesFields(c: Json, k: string)
    requires c.JObj? && k in {"id", "name", "symbol", "type"}
    ensures var p := Project(c);
            var v := match k case "id" => p.id case "name" => p.name case "symbol" => p.symbol case _ => p.kind;
            v == (if Lookup(c.fields, k).Some? then Lookup(c.fields, k).value else JNull)
  {
  }

  /**
   * Every failure gives `[]`: no body, a body that cannot be iterated, or an
   * entry that is not an object anywhere in the list.
   */
  lemma {:induction false} NonObjectEntryEmptiesList(items: seq<Json>, k: nat)
    requires k < |items| && !items[k].JObj?
    ensures ActiveFrom(items).Raise?
    decreases |items|
  {
    if k > 0 {
      assert items[1..][k - 1] == items[k];
      NonObjectEntryEmptiesList(items[1..], k - 1);
    }
  }

  lemma FailuresGiveEmptyList(body: Option<Json>)
    ensures body.None? ==> GetCoins(body) == []
    ensures body.Some? && (body.value.JNull? || body.value.JNum? || body.value.JBool?) ==> GetCoins(body) == []
    ensures body.Some? && body.value.JArr? && (exists k | 0 <= k < |body.value.items| :: !body.value.items[k].JObj?) ==>
            GetCoins(body) == []
  {
    if body.Some? && body.value.JArr? && (exists k | 0 <= k < |body.value.items| :: !body.value.items[k].JObj?) {
      var k :| 0 <= k < |body.value.items| && !body.value.items[k].JObj?;
      NonObjectEntryEmptiesList(body.value.items, k);
    }
  }

  /** An error payload (a non-empty object) is iterated by key, and a key has no `get`: the result is `[]`. */
  lemma ObjectBodyGivesEmptyList(fields: seq<(string, Json)>)
    requires |fields| > 0
    ensures GetCoins(Some(JObj(fields))) == []
  {
    var items := Iterate(JObj(fields)).value;
    NonObjectEntryEmptiesList(items, 0);
  }
}
