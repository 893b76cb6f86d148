/** The slice of the PHP runtime the package relies on: values, ordered
    arrays, truthiness, string conversion, and the errors the package can
    raise. Under the framework's error handler every PHP warning (reading a
    missing array key, `foreach` over a non-array) is turned into an
    exception, so each of them is an error value here. */
module Php {

  datatype Option<+T> = None | Some(value: T)

  /** A PHP value. Floats and objects are not part of the model. */
  datatype Value =
    | Null
    | Bool(b: bool)
    | Int(i: int)
    | Str(s: string)
    | Arr(entries: Entries)

  /** A PHP array: its entries in iteration order. */
  type Entries = seq<(string, Value)>

  /** Everything the package can raise. */
  datatype Error =
    | UndefinedArrayKey(key: string)            // `$a[$key]` on a missing key
    | ForeachOverNonArray                       // `foreach` over a scalar or null
    | TypeError(detail: string)                 // a typed parameter or return refused a value
    | ValidationFailed(messages: map<string, seq<string>>)  // the validator's error bag
    | MethodCallOnNull(name: string)            // `$x->name()` with `$x === null`
    | NoDtoClass                                // `null::fromRequest(...)`

  datatype Result<+T> = Ok(value: T) | Err(error: Error)

  datatype Outcome = Pass | Fail(error: Error)

  /** The keys an array holds. */
  function KeysOf(es: Entries): (ks: set<string>)
    ensures forall i :: 0 <= i < |es| ==> es[i].0 in ks
    ensures forall k :: k in ks ==> exists i :: 0 <= i < |es| && es[i].0 == k
  {
    if es == [] then {} else KeysOf(es[..|es| - 1]) + {es[|es| - 1].0}
  }

  /** The array as a dictionary. PHP keeps keys unique, so a key's value is
      the one of its last (and only) entry. */
  function AsMap(es: Entries): (m: map<string, Value>)
    ensures m.Keys == KeysOf(es)
  {
    if es == [] then map[]
    else AsMap(es[..|es| - 1])[es[|es| - 1].0 := es[|es| - 1].1]
  }

  /** The value `$a[$key]` reads is the one of the last entry with that key. */
  lemma {:induction false} AsMapIsLastEntry(es: Entries, i: nat)
    requires i < |es|
    requires forall j :: i < j < |es| ==> es[j].0 != es[i].0
    ensures es[i].0 in AsMap(es) && AsMap(es)[es[i].0] == es[i].1
  {
    if i < |es| - 1 {
      AsMapIsLastEntry(es[..|es| - 1], i);
    }
  }

  /** PHP's `isset($a[$key])`: the key is present and its value is not null. */
  predicate Isset(es: Entries, key: string)
  {
    key in AsMap(es) && AsMap(es)[key] != Null
  }

  /** The values of an array, in iteration order (what `foreach ($a as $v)` visits). */
  function ValuesOf(es: Entries): (vs: seq<Value>)
    ensures |vs| == |es|
    ensures forall i :: 0 <= i < |es| ==> vs[i] == es[i].1
  {
    if es == [] then [] else [es[0].1] + ValuesOf(es[1..])
  }

  /** PHP truthiness, as in `if ($v)`. */
  predicate Truthy(v: Value)
  {
    match v
    case Null => false
    case Bool(b) => b
    case Int(i) => i != 0
    case Str(s) => s != "" && s != "0"
    case Arr(es) => es != []
  }

  function DigitChar(d: nat): char
    requires d < 10
  {
    "0123456789"[d]
  }

  function NatToString(n: nat): (s: string)
    ensures s != []
    ensures forall i :: 0 <= i < |s| ==> '0' <= s[i] <= '9'
  {
    if n < 10 then [DigitChar(n)] else NatToString(n / 10) + [DigitChar(n % 10)]
  }

  /** PHP's string conversion, as used by the `.` operator. An array converts
      to "Array" (PHP also raises a warning there). */
  function Stringify(v: Value): string
  {
    match v
    case Null => ""
    case Bool(b) => if b then "1" else ""
    case Int(i) => if i < 0 then "-" + NatToString(-i) else NatToString(i)
    case Str(s) => s
    case Arr(_) => "Array"
  }
}
