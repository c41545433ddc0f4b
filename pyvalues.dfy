/**
 * Python values the pipeline inspects dynamically (decoded JSON, contract
 * results, settings), their truthiness and number tests, and decimal scaling.
 */
module PyValues {
  import opened Wrappers
  import Dicts

  /** A decoded JSON document or contract value; objects keep their keys in order. */
  datatype Value =
    | NoneVal
    | BoolVal(b: bool)
    | IntVal(i: int)
    | FloatVal(r: real)
    | StrVal(s: string)
    | ListVal(items: seq<Value>)
    | DictVal(entries: seq<(string, Value)>)

  /** Python truthiness. */
  predicate Truthy(v: Value) {
    match v
    case NoneVal => false
    case BoolVal(b) => b
    case IntVal(i) => i != 0
    case FloatVal(r) => r != 0.0
    case StrVal(s) => s != []
    case ListVal(items) => items != []
    case DictVal(entries) => entries != []
  }

  /** `isinstance(v, int)`: in Python a bool is an int too. */
  predicate IsPyInt(v: Value) {
    v.IntVal? || v.BoolVal?
  }

  /** The integer a value stands for when `isinstance(v, int)` holds. */
  function AsPyInt(v: Value): (r: Option<int>)
    ensures r.Some? <==> IsPyInt(v)
    ensures v.IntVal? ==> r == Some(v.i)
  {
    match v
    case IntVal(i) => Some(i)
    case BoolVal(b) => Some(if b then 1 else 0)
    case _ => None
  }

  /** The number a value stands for in `<`, `>` and `/`; other types raise TypeError there. */
  function AsNumber(v: Value): (r: Option<real>)
    ensures r.Some? <==> (IsPyInt(v) || v.FloatVal?)
    ensures IsPyInt(v) ==> r == Some(AsPyInt(v).value as real)
    ensures v.FloatVal? ==> r == Some(v.r)
  {
    match v
    case IntVal(i) => Some(i as real)
    case BoolVal(b) => Some(if b then 1.0 else 0.0)
    case FloatVal(r) => Some(r)
    case _ => None
  }

  /** A number is truthy exactly when it is not zero. */
  lemma NumberTruthy(v: Value)
    requires AsNumber(v).Some?
    ensures Truthy(v) <==> AsNumber(v).value != 0.0
  {
  }

  /**
   * `float(v)`: numbers and bools convert, a string converts as
   * `parseFloat` reads it (None: ValueError), other values raise TypeError.
   */
  function Float(v: Value, parseFloat: string -> Option<real>): (r: Option<real>)
    ensures AsNumber(v).Some? ==> r == AsNumber(v)
    ensures v.StrVal? ==> r == parseFloat(v.s)
    ensures r.Some? ==> AsNumber(v).Some? || v.StrVal?
  {
    if v.StrVal? then parseFloat(v.s) else AsNumber(v)
  }

  /** Python's `v == n` for an integer `n`: ints, bools and floats compare by value. */
  predicate EqualsInt(v: Value, n: int) {
    AsNumber(v) == Some(n as real)
  }

  /** `d.get(k)` on an object. */
  function GetKey(v: Value, k: string): (r: Option<Value>)
    requires v.DictVal?
    ensures r.Some? <==> Dicts.HasKey(v.entries, k)
  {
    Dicts.Get(v.entries, k)
  }

  /** `d.get(k, default)` on an object. */
  function GetKeyOr(v: Value, k: string, default: Value): (r: Value)
    requires v.DictVal?
    ensures !Dicts.HasKey(v.entries, k) ==> r == default
    ensures Dicts.HasKey(v.entries, k) ==> Some(r) == GetKey(v, k)
  {
    GetKey(v, k).GetOr(default)
  }

  /** `for x in v`: a list yields its items, a string its characters, an object its keys; other values raise. */
  function Iterate(v: Value): (r: Option<seq<Value>>)
    ensures v.ListVal? ==> r == Some(v.items)
    ensures r.Some? ==> v.ListVal? || v.StrVal? || v.DictVal?
    ensures r.Some? && !v.ListVal? ==> forall k :: 0 <= k < |r.value| ==> r.value[k].StrVal?
  {
    match v
    case ListVal(items) => Some(items)
    case StrVal(s) => Some(seq(|s|, k requires 0 <= k < |s| => StrVal([s[k]])))
    case DictVal(entries) => Some(seq(|entries|, k requires 0 <= k < |entries| => StrVal(entries[k].0)))
    case _ => None
  }

  /** `10 ** n` for a decimal precision `n`. */
  function Pow10(n: nat): (r: nat)
    ensures r >= 1
  {
    if n == 0 then 1 else 10 * Pow10(n - 1)
  }

  /** `10 ** decimals` as a real: the unit a raw amount of that many decimals is counted in. */
  function Unit(decimals: nat): (r: real)
    ensures r >= 1.0
  {
    Pow10(decimals) as real
  }

  /** `amount / 10 ** decimals`: a raw on-chain amount in whole units. */
  function Scale(amount: real, decimals: nat): (r: real)
    ensures r * Unit(decimals) == amount
    ensures amount >= 0.0 ==> r >= 0.0
    ensures amount > 0.0 ==> r > 0.0
  {
    amount / Unit(decimals)
  }
}
