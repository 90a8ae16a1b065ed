/**
 * Decoded JSON values as the Python services see them, and the Python
 * operations the services apply to them, each with the exception Python
 * raises when the value has the wrong shape.
 */
module PyJson {
  import opened PyStrings

  datatype Option<+T> = None | Some(value: T)

  /**
   * A value produced by `json.loads`. `JNull` is Python's `None`; an object
   * keeps its members in document order, as a `dict` keeps insertion order.
   */
  datatype Json =
    | JNull
    | JBool(b: bool)
    | JNum(n: real)
    | JStr(s: string)
    | JArr(items: seq<Json>)
    | JObj(fields: seq<(string, Json)>)

  /** The exceptions the modelled code can raise or catch. */
  datatype Exc = KeyError | IndexError | TypeError | ValueError | AttributeError | ZeroDivisionError

  /** The outcome of a Python expression: a value, or an exception in flight. */
  datatype Py<+T> = Ok(value: T) | Raise(exc: Exc) {
    predicate IsFailure() {
      Raise?
    }

    function PropagateFailure<U>(): Py<U>
      requires Raise?
    {
      Raise(exc)
    }

    function Extract(): T
      requires Ok?
    {
      value
    }
  }

  /** Python truthiness: `None`, `False`, `0`, `""`, `[]` and `{}` are false. */
  predicate Truthy(j: Json) {
    match j
    case JNull => false
    case JBool(b) => b
    case JNum(n) => n != 0.0
    case JStr(s) => |s| > 0
    case JArr(items) => |items| > 0
    case JObj(fields) => |fields| > 0
  }

  /** The value of key `k`; when a key is repeated the last one wins, as in `json.loads`. */
  function Lookup(fields: seq<(string, Json)>, k: string): (r: Option<Json>)
    ensures r.None? <==> forall i | 0 <= i < |fields| :: fields[i].0 != k
  {
    if |fields| == 0 then None
    else if fields[|fields| - 1].0 == k then Some(fields[|fields| - 1].1)
    else Lookup(fields[..|fields| - 1], k)
  }

  /**
   * The last member named `k` gives the value: whatever members with that
   * name come earlier, the one after which no other has it wins.
   */
  lemma {:induction false} LookupLastWins(fields: seq<(string, Json)>, k: string, i: nat)
    requires i < |fields| && fields[i].0 == k
    requires forall j | i < j < |fields| :: fields[j].0 != k
    ensures Lookup(fields, k) == Some(fields[i].1)
    decreases |fields|
  {
    if i < |fields| - 1 {
      var init := fields[..|fields| - 1];
      assert init[i] == fields[i];
      assert forall j | i < j < |init| :: init[j] == fields[j];
      LookupLastWins(init, k, i);
    }
  }

  /** `j.get(k, default)`: only a `dict` has `get`. */
  function Get(j: Json, k: string, default: Json): Py<Json> {
    match j
    case JObj(fields) =>
      (match Lookup(fields, k)
       case Some(v) => Ok(v)
       case None => Ok(default))
    case _ => Raise(AttributeError)
  }

  /** `j[k]` with a string key. */
  function Index(j: Json, k: string): Py<Json> {
    match j
    case JObj(fields) =>
      (match Lookup(fields, k)
       case Some(v) => Ok(v)
       case None => Raise(KeyError))
    case _ => Raise(TypeError)
  }

  /** `j[0]`. A string yields its first character; a decoded `dict` has no key `0`. */
  function IndexZero(j: Json): Py<Json> {
    match j
    case JArr(items) => if |items| == 0 then Raise(IndexError) else Ok(items[0])
    case JStr(s) => if |s| == 0 then Raise(IndexError) else Ok(JStr([s[0]]))
    case JObj(_) => Raise(KeyError)
    case _ => Raise(TypeError)
  }

  /** `k in j` with a string `k`: a key of a `dict`, an element of a list, a substring of a string. */
  function Contains(j: Json, k: string): Py<bool> {
    match j
    case JObj(fields) => Ok(Lookup(fields, k).Some?)
    case JArr(items) => Ok(JStr(k) in items)
    case JStr(s) => Ok(IsSubstring(k, s))
    case _ => Raise(TypeError)
  }

  /**
   * The elements `for x in j` visits. A `dict` yields its keys (a repeated key
   * is listed again; every loop in the model fails on the first key anyway).
   */
  function Iterate(j: Json): Py<seq<Json>> {
    match j
    case JArr(items) => Ok(items)
    case JObj(fields) => Ok(seq(|fields|, i requires 0 <= i < |fields| => JStr(fields[i].0)))
    case JStr(s) => Ok(seq(|s|, i requires 0 <= i < |s| => JStr([s[i]])))
    case _ => Raise(TypeError)
  }

  /** `list(j.keys())[0]` */
  function FirstKey(j: Json): Py<string> {
    match j
    case JObj(fields) => if |fields| == 0 then Raise(IndexError) else Ok(fields[0].0)
    case _ => Raise(AttributeError)
  }

  /** `j.lower()`: only a string has `lower`. */
  function LowerOf(j: Json): Py<string> {
    match j
    case JStr(s) => Ok(Lower(s))
    case _ => Raise(AttributeError)
  }

  /** `j` as an operand of `*` or `/` next to a float; `bool` is an `int` in Python. */
  function Number(j: Json): Py<real> {
    match j
    case JNum(n) => Ok(n)
    case JBool(b) => Ok(if b then 1.0 else 0.0)
    case _ => Raise(TypeError)
  }

  /** `a / b` on numbers. */
  function Div(a: real, b: real): (r: Py<real>)
    ensures r.Ok? <==> b != 0.0
    ensures r.Ok? ==> r.value * b == a
  {
    if b == 0.0 then Raise(ZeroDivisionError) else Ok(a / b)
  }

  /** `j / k` on decoded values. */
  function DivJson(j: Json, k: Json): Py<real> {
    var a :- Number(j);
    var b :- Number(k);
    Div(a, b)
  }

  /** `j == 0`; `False == 0` holds in Python. */
  predicate EqualsZero(j: Json) {
    j == JNum(0.0) || j == JBool(false)
  }

  /**
   * `float(j)`. Parsing a string is left to `parse`, which gives the number
   * the text denotes or `None` when Python would raise `ValueError`.
   */
  function Float(j: Json, parse: string -> Option<real>): Py<real> {
    match j
    case JNum(n) => Ok(n)
    case JBool(b) => Ok(if b then 1.0 else 0.0)
    case JStr(s) =>
      (match parse(s)
       case Some(x) => Ok(x)
       case None => Raise(ValueError))
    case _ => Raise(TypeError)
  }

  /** Python's `<` on two strings: code point by code point, a proper prefix first. */
  predicate StrLess(a: string, b: string)
    decreases |a|
  {
    if |b| == 0 then false
    else if |a| == 0 then true
    else if a[0] != b[0] then a[0] < b[0]
    else StrLess(a[1..], b[1..])
  }

  /** `a < b` on decoded values: numbers with numbers, strings with strings. */
  function Less(a: Json, b: Json): Py<bool> {
    if (a.JNum? || a.JBool?) && (b.JNum? || b.JBool?) then
      Ok(Number(a).value < Number(b).value)
    else if a.JStr? && b.JStr? then
      Ok(StrLess(a.s, b.s))
    else
      Raise(TypeError)
  }

  /**
   * `c.get("symbol", "").lower() == s`, the test both coin listings are scanned
   * with.
   */
  function SymbolIs(c: Json, s: string): Py<bool> {
    var sym :- Get(c, "symbol", JStr(""));
    var low :- LowerOf(sym);
    Ok(low == s)
  }

  /** `c.get("id")` on an object; `None` for anything else. */
  function IdField(c: Json): Json {
    if c.JObj? then Get(c, "id", JNull).value else JNull
  }

  /** A listing entry the symbol test cannot fail on: an object whose `symbol` is a string or missing. */
  ghost predicate Listed(c: Json) {
    c.JObj? && (Lookup(c.fields, "symbol").None? || Lookup(c.fields, "symbol").value.JStr?)
  }

  /**
   * `for c in items: if c.get("symbol", "").lower() == s: ...` from position
   * `i`: the index of the first entry whose symbol matches, or the exception
   * the test raises on an entry before it.
   */
  function FirstMatchFrom(items: seq<Json>, s: string, i: nat): (r: Py<Option<nat>>)
    requires i <= |items|
    ensures r.Ok? && r.value.Some? ==> i <= r.value.value < |items|
    decreases |items| - i
  {
    if i == |items| then Ok(None)
    else
      var m :- SymbolIs(items[i], s);
      if m then Ok(Some(i)) else FirstMatchFrom(items, s, i + 1)
  }

  /** The symbol loop itself, stopping at the first match. */
  method ScanForSymbol(items: seq<Json>, s: string) returns (r: Py<Option<nat>>)
    ensures r == FirstMatchFrom(items, s, 0)
  {
    var i := 0;
    while i < |items|
      invariant 0 <= i <= |items|
      invariant FirstMatchFrom(items, s, i) == FirstMatchFrom(items, s, 0)
    {
      var m := SymbolIs(items[i], s);
      if m.Raise? {
        return Raise(m.exc);
      }
      if m.value {
        return Ok(Some(i));
      }
      i := i + 1;
    }
    return Ok(None);
  }

  /**
   * A coin id as the model keeps it: the string value of an `id` field, or
   * `None` when the field is missing, null or not a string.
   */
  function IdOf(j: Json): Option<string> {
    if j.JStr? then Some(j.s) else None
  }

  /** An id Python would treat as true: present and non-empty. */
  predicate TruthyId(id: Option<string>) {
    id.Some? && id.value != ""
  }

  // ---------------------------------------------------------------------
  // Facts about the operations
  // ---------------------------------------------------------------------

  /** On objects, `k in j` and `j[k]` agree: the index succeeds exactly when the key is there. */
  lemma ContainsThenIndex(j: Json, k: string)
    requires j.JObj?
    ensures Contains(j, k) == Ok(Index(j, k).Ok?)
  {
  }

  /** A symbol test succeeds on any object whose `symbol` is missing or a string. */
  lemma SymbolIsTotal(c: Json, s: string)
    requires c.JObj?
    requires Lookup(c.fields, "symbol").None? || Lookup(c.fields, "symbol").value.JStr?
    ensures SymbolIs(c, s).Ok?
  {
  }

  lemma {:induction false} FirstMatchFromFindsFirst(items: seq<Json>, s: string, i: nat)
    requires i <= |items|
    requires forall k | i <= k < |items| :: Listed(items[k])
    ensures var r := FirstMatchFrom(items, s, i);
            && r.Ok?
            && (r.value.None? <==> forall k | i <= k < |items| :: SymbolIs(items[k], s) == Ok(false))
            && (r.value.Some? ==> SymbolIs(items[r.value.value], s) == Ok(true)
                                   && forall k | i <= k < r.value.value :: SymbolIs(items[k], s) == Ok(false))
    decreases |items| - i
  {
    if i < |items| {
      SymbolIsTotal(items[i], s);
      FirstMatchFromFindsFirst(items, s, i + 1);
    }
  }

  /**
   * On a listing of objects with string symbols the loop cannot fail: it
   * finds the first entry whose symbol matches, or reports that none does.
   */
  lemma FirstMatchIsFirst(items: seq<Json>, s: string)
    requires forall k | 0 <= k < |items| :: Listed(items[k])
    ensures var r := FirstMatchFrom(items, s, 0);
            && r.Ok?
            && (r.value.None? <==> forall k | 0 <= k < |items| :: SymbolIs(items[k], s) == Ok(false))
            && (r.value.Some? ==> SymbolIs(items[r.value.value], s) == Ok(true)
                                   && forall k | 0 <= k < r.value.value :: SymbolIs(items[k], s) == Ok(false))
  {
    FirstMatchFromFindsFirst(items, s, 0);
  }

  /**
   * An entry that is not an object stops the loop with `AttributeError`
   * when it is reached before any match: `str` and `list` have no `get`.
   */
  lemma {:induction false} NonObjectStopsScan(items: seq<Json>, s: string, i: nat, j: nat)
    requires i <= j < |items|
    requires !items[j].JObj?
    requires forall k | i <= k < j :: SymbolIs(items[k], s) == Ok(false)
    ensures FirstMatchFrom(items, s, i) == Raise(AttributeError)
    decreases j - i
  {
    if i < j {
      NonObjectStopsScan(items, s, i + 1, j);
    }
  }
}
