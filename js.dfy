/**
 * The JavaScript values the service layer reads out of HTTP responses, with the
 * language rules it relies on: truthiness, `||`, property reads, `Array.isArray`
 * and string conversion. Everything the runtime does that depends on the locale,
 * the clock or floating-point printing is a field of `Platform`.
 */
module Js {
  import opened Wrappers

  /** A JavaScript value as produced by decoding a JSON response body. */
  datatype Json =
    | Undefined
    | Null
    | Bool(b: bool)
    | Num(n: real)
    | Str(s: string)
    | Arr(items: seq<Json>)
    | Obj(fields: map<string, Json>)

  /** The outcome of one `api.get` / `api.post` call: it rejects, or resolves with `response.data`. */
  datatype HttpResult = Failed | Ok(data: Json)

  /**
   * The runtime services the code calls but whose results depend on the locale,
   * the clock or the binary representation of numbers.
   */
  datatype Platform = Platform(
    numberToString: real -> string,  // String(n)
    dateTimeString: Json -> string,  // new Date(v).toLocaleString()
    currentDateTime: string,         // new Date().toLocaleString()
    shortDateTime: Json -> string)   // new Date(v).toLocaleString("en-US", { month: "short", ... })

  /** `v == null`: reading a property of such a value throws a TypeError. */
  predicate Nullish(v: Json) {
    v.Undefined? || v.Null?
  }

  /** JavaScript truthiness (NaN and -0 have no counterpart in `real`). */
  predicate Truthy(v: Json) {
    match v
    case Undefined => false
    case Null => false
    case Bool(b) => b
    case Num(n) => n != 0.0
    case Str(s) => s != ""
    case Arr(_) => true
    case Obj(_) => true
  }

  /** `a || b` */
  function Or(a: Json, b: Json): Json {
    if Truthy(a) then a else b
  }

  /**
   * `v.key` on a value that is not null or undefined. Only own properties of
   * objects are seen: the keys the services read are neither array nor string
   * properties nor on Object.prototype.
   */
  function Get(v: Json, key: string): Json
    requires !Nullish(v)
  {
    if v.Obj? && key in v.fields then v.fields[key] else Undefined
  }

  /** `Array.isArray(v)` */
  predicate IsArray(v: Json) {
    v.Arr?
  }

  /** No element is null or undefined, so a callback that reads a property of each one does not throw. */
  predicate NoNullish(items: seq<Json>) {
    forall i :: 0 <= i < |items| ==> !Nullish(items[i])
  }

  /** `String(v)`, as used by template literals and `toString()`. */
  function ToStr(p: Platform, v: Json): string
    decreases v
  {
    match v
    case Undefined => "undefined"
    case Null => "null"
    case Bool(b) => if b then "true" else "false"
    case Num(n) => p.numberToString(n)
    case Str(s) => s
    case Obj(_) => "[object Object]"
    case Arr(items) =>
      // Array.prototype.join(","): null and undefined elements print as ""
      Join(seq(|items|, i requires 0 <= i < |items| =>
        if Nullish(items[i]) then "" else ToStr(p, items[i])))
  }

  /** The parts separated by commas. */
  function Join(parts: seq<string>): string {
    if |parts| == 0 then ""
    else if |parts| == 1 then parts[0]
    else parts[0] + "," + Join(parts[1..])
  }

  /** `s.startsWith(prefix)` */
  predicate StartsWith(s: string, prefix: string) {
    prefix <= s
  }

  /** Where `slice` starts or stops for the argument `i`: a negative one counts back from the end. */
  function SliceIndex(i: int, len: nat): (k: nat)
    ensures k <= len
  {
    if i < 0 then (if len + i < 0 then 0 else len + i)
    else if i < len then i else len
  }

  /** `s.slice(start, end)` */
  function Slice<T>(s: seq<T>, start: int, end: int): seq<T> {
    var from, to := SliceIndex(start, |s|), SliceIndex(end, |s|);
    if from < to then s[from..to] else []
  }

  function Min(a: int, b: int): int {
    if a < b then a else b
  }

  /**
   * With a window 0 <= start <= end, `slice` keeps the elements at positions
   * start up to end that exist, so at most end - start of them.
   */
  lemma SliceWindow<T>(s: seq<T>, start: int, end: int)
    requires 0 <= start <= end
    ensures Slice(s, start, end) == s[Min(start, |s|)..Min(end, |s|)]
    ensures |Slice(s, start, end)| <= end - start
  {
  }
}
