/**
 * The JavaScript values the middleware inspects: what is truthy, what a
 * property read gives (or when it throws), what string a value becomes when
 * used as a property key, and which own entries `Object.keys` enumerates.
 */
module JsValues {
  import opened Wrappers
  import opened Objects

  /** JavaScript values. Numbers are integers; functions and symbols are not values here. */
  datatype Value =
    | Undefined
    | Null
    | Bool(b: bool)
    | Num(n: int)
    | Str(s: string)
    | Arr(items: seq<Value>)
    | Obj(fields: Entries<Value>)  // own properties in insertion order; a JavaScript object's keys are distinct, and lemmas that need it say `DistinctKeys(fields)`

  /** The TypeErrors the middleware can raise. */
  datatype TypeError =
    | ReadOfNullish(property: string)  // destructuring or `x.p` with x null or undefined
    | KeysOfNull                       // `Object.keys(null)`

  /** JavaScript truthiness: `undefined`, `null`, `false`, `0` and `""` are falsy. */
  predicate Truthy(v: Value) {
    match v
    case Undefined => false
    case Null => false
    case Bool(b) => b
    case Num(n) => n != 0
    case Str(s) => s != ""
    case Arr(_) => true
    case Obj(_) => true
  }

  /**
   * `a || b`: the first operand when it is truthy, else the second. The
   * result is always one of the operands, and it is truthy exactly when
   * either operand is.
   */
  function Or(a: Value, b: Value): (r: Value)
    ensures r == a || r == b
    ensures Truthy(r) <==> Truthy(a) || Truthy(b)
  {
    if Truthy(a) then a else b
  }

  /** The identity formatter `value => value`, the default of every formatter option. */
  function Identity(v: Value): Value {
    v
  }

  /** `typeof v === 'object'` (true of `null` as well). */
  predicate TypeofObject(v: Value) {
    v.Null? || v.Arr? || v.Obj?
  }

  /**
   * Property read `v.name` for the non-index names the middleware uses.
   * Reading from null or undefined throws; strings and arrays have a
   * `length`; other reads of a missing property give undefined.
   */
  function Get(v: Value, name: string): Result<Value, TypeError> {
    match v
    case Undefined => Failure(ReadOfNullish(name))
    case Null => Failure(ReadOfNullish(name))
    case Obj(fields) => Success(Lookup(fields, name).GetOr(Undefined))
    case Arr(items) => Success(if name == "length" then Num(|items|) else Undefined)
    case Str(s) => Success(if name == "length" then Num(|s|) else Undefined)
    case _ => Success(Undefined)
  }

  /** Element read `items[i]`: undefined past the end. */
  function At(items: seq<Value>, i: nat): Value {
    if i < |items| then items[i] else Undefined
  }

  /** The character of a decimal digit, `'0'` to `'9'`. */
  function Digit(d: nat): char
    requires d < 10
  {
    ('0' as int + d) as char
  }

  /** The decimal spelling of a natural number. */
  function NatToString(n: nat): string
    decreases n
  {
    if n < 10 then [Digit(n)] else NatToString(n / 10) + [Digit(n % 10)]
  }

  lemma {:induction false} NatToStringNonEmpty(n: nat)
    ensures |NatToString(n)| >= 1
    ensures n >= 10 ==> |NatToString(n)| >= 2
    decreases n
  {
    if n >= 10 {
      NatToStringNonEmpty(n / 10);
    }
  }

  /** Distinct numbers are spelt differently, so index keys never collide. */
  lemma {:induction false} NatToStringInjective(a: nat, b: nat)
    requires NatToString(a) == NatToString(b)
    ensures a == b
    decreases a
  {
    NatToStringNonEmpty(a);
    NatToStringNonEmpty(b);
    if a >= 10 && b >= 10 {
      var sa, sb := NatToString(a), NatToString(b);
      assert sa[|sa| - 1] == Digit(a % 10) && sb[|sb| - 1] == Digit(b % 10);
      assert sa[..|sa| - 1] == NatToString(a / 10);
      assert sb[..|sb| - 1] == NatToString(b / 10);
      NatToStringInjective(a / 10, b / 10);
    }
  }

  /** The first `n` index keys are pairwise different. */
  lemma IndexKeysDistinct(n: nat)
    ensures forall i, j :: 0 <= i < j < n ==> NatToString(i) != NatToString(j)
  {
    forall i, j | 0 <= i < j < n ensures NatToString(i) != NatToString(j) {
      if NatToString(i) == NatToString(j) {
        NatToStringInjective(i, j);
      }
    }
  }

  function IntToString(i: int): string {
    if i < 0 then "-" + NatToString(-i) else NatToString(i)
  }

  /** `parts.join(",")`. */
  function JoinWithCommas(parts: seq<string>): string {
    if parts == [] then ""
    else if |parts| == 1 then parts[0]
    else parts[0] + "," + JoinWithCommas(parts[1..])
  }

  /**
   * `String(v)`, which is how a computed property key is turned into a key:
   * arrays are joined with commas (null and undefined elements become
   * empty), plain objects become "[object Object]".
   */
  function ToJsString(v: Value): string
    decreases v
  {
    match v
    case Undefined => "undefined"
    case Null => "null"
    case Bool(b) => if b then "true" else "false"
    case Num(n) => IntToString(n)
    case Str(s) => s
    case Arr(items) =>
      JoinWithCommas(seq(|items|, i requires 0 <= i < |items| =>
        if items[i].Undefined? || items[i].Null? then "" else ToJsString(items[i])))
    case Obj(_) => "[object Object]"
  }

  /** The key under which `obj[formatter(key)] = ...` stores a value. */
  function FormattedKey(formatter: Value -> Value, key: string): string {
    ToJsString(formatter(Str(key)))
  }

  /** The same key computation as a function from string keys to property keys. */
  function KeyOf(formatter: Value -> Value): string -> string {
    k => FormattedKey(formatter, k)
  }

  /**
   * The own entries of an array or string: index keys paired with elements.
   * They form a well-formed object, reading key `String(i)` gives element `i`,
   * and no other key is present.
   */
  function IndexEntries(items: seq<Value>): (r: Entries<Value>)
    ensures DistinctKeys(r)
    ensures forall i :: 0 <= i < |items| ==> Lookup(r, NatToString(i)) == Some(items[i])
    ensures forall q :: q in Keys(r) ==> exists i :: 0 <= i < |items| && q == NatToString(i)
  {
    IndexKeysDistinct(|items|);
    var r := seq(|items|, i requires 0 <= i < |items| => (NatToString(i), items[i]));
    assert forall i :: 0 <= i < |r| ==> Keys(r)[i] == NatToString(i);
    LookupAll(r);
    r
  }

  /**
   * `Object.keys(v)` together with `v[key]` for each key, in order.
   * Throws on null and undefined; numbers and booleans have no own keys.
   */
  function OwnEntries(v: Value): Result<Entries<Value>, TypeError> {
    match v
    case Undefined => Failure(KeysOfNull)
    case Null => Failure(KeysOfNull)
    case Obj(fields) => Success(fields)
    case Arr(items) => Success(IndexEntries(items))
    case Str(s) => Success(IndexEntries(seq(|s|, i requires 0 <= i < |s| => Str([s[i]]))))
    case _ => Success([])
  }

  /**
   * `v > 0` for a number, a boolean, null or undefined. A string, array or
   * object operand would be converted to a number first; that conversion is
   * not modelled and such an operand counts as not greater than zero.
   */
  predicate GreaterThanZero(v: Value) {
    match v
    case Num(n) => n > 0
    case Bool(b) => b
    case _ => false
  }

  /** `v && v.length > 0`, the guard of the older revision. */
  predicate TruthyWithLength(v: Value) {
    match Get(v, "length")
    case Success(len) => Truthy(v) && GreaterThanZero(len)
    case Failure(_) => false
  }

  /** A string used as a key is its own key. */
  lemma StringKey(s: string)
    ensures ToJsString(Str(s)) == s
    ensures FormattedKey(Identity, s) == s
  {
  }

  /**
   * Which values pass the older revision's length guard: non-empty strings
   * and arrays, and objects whose own `length` is a positive number.
   */
  lemma TruthyWithLengthCases(v: Value)
    ensures v.Str? ==> (TruthyWithLength(v) <==> v.s != "")
    ensures v.Arr? ==> (TruthyWithLength(v) <==> v.items != [])
    ensures v.Obj? ==> (TruthyWithLength(v) <==>
                          Lookup(v.fields, "length").Some? && GreaterThanZero(Lookup(v.fields, "length").value))
    ensures v.Undefined? || v.Null? || v.Bool? || v.Num? ==> !TruthyWithLength(v)
  {
  }
}
