/**
 * JavaScript values as the core sees them: GraphQL arguments, materialised
 * documents and filter values. `ObjectId` and `DateOf` stand for
 * `new mongoose.Types.ObjectId(v)` and `new Date(v)`: uninterpreted total
 * constructors that only remember what they were built from.
 */
module Values {

  datatype Value =
    | Undefined
    | Null
    | Bool(b: bool)
    | Num(n: int)
    | Str(s: string)
    | Arr(items: seq<Value>)
    | Obj(fields: map<string, Value>)
    | ObjectId(source: Value)
    | DateOf(source: Value)

  /** A plain document: the key/value part of a JavaScript object. */
  type Doc = map<string, Value>

  /** JavaScript truthiness (numbers are integers here, so NaN does not arise). */
  predicate Truthy(v: Value) {
    match v
    case Undefined => false
    case Null => false
    case Bool(b) => b
    case Num(n) => n != 0
    case Str(s) => s != ""
    case _ => true
  }

  /** `isEmpty` (src/index.js:346): falsy, except that `false` and `0` count as values. */
  predicate IsEmpty(v: Value)
    ensures IsEmpty(v) <==> v == Undefined || v == Null || v == Str("")
  {
    !Truthy(v) && v != Bool(false) && v != Num(0)
  }

  /** `obj[key]`: a missing key, or any key of a non-object, reads as undefined. */
  function Get(v: Value, key: string): Value {
    if v.Obj? && key in v.fields then v.fields[key] else Undefined
  }

  /** `Get` on a plain document. */
  function Lookup(d: Doc, key: string): Value {
    if key in d then d[key] else Undefined
  }

  lemma GetSmaller(v: Value, key: string)
    requires Get(v, key) != Undefined
    ensures Get(v, key) < v
  {
  }

  /** `new Date(v)`; a Date built from a Date is the same date. */
  function ToDate(v: Value): (r: Value)
    ensures r.DateOf?
  {
    if v.DateOf? then v else DateOf(v)
  }

  /** `v && new Date(v)`: falsy values are kept as they are. */
  function CoerceDate(v: Value): (r: Value)
    ensures Truthy(v) ==> r.DateOf?
    ensures !Truthy(v) ==> r == v
  {
    if Truthy(v) then ToDate(v) else v
  }

  /**
   * The date coercion applied to filter values typed DateTime/Date/Time
   * (src/index.js:945-949): element-wise on arrays, otherwise on the value.
   */
  function CoerceDateValue(v: Value): (r: Value)
    ensures v.Arr? ==>
              r.Arr? && |r.items| == |v.items| &&
              forall i :: 0 <= i < |v.items| ==> r.items[i] == CoerceDate(v.items[i])
    ensures !v.Arr? ==> r == CoerceDate(v)
  {
    if v.Arr? then Arr(seq(|v.items|, i requires 0 <= i < |v.items| => CoerceDate(v.items[i])))
    else CoerceDate(v)
  }

  lemma {:induction false} CoerceDateValueIdempotent(v: Value)
    ensures CoerceDateValue(CoerceDateValue(v)) == CoerceDateValue(v)
  {
    var once := CoerceDateValue(v);
    if v.Arr? {
      assert once.Arr? && |once.items| == |v.items|;
      var twice := CoerceDateValue(once);
      assert forall i :: 0 <= i < |v.items| ==> twice.items[i] == once.items[i];
    }
  }

  function DigitChar(d: nat): char
    requires d < 10
  {
    "0123456789"[d]
  }

  /** Decimal form of a natural number. */
  function NatToString(n: nat): (s: string)
    ensures |s| > 0
    decreases n
  {
    if n < 10 then [DigitChar(n)] else NatToString(n / 10) + [DigitChar(n % 10)]
  }

  lemma {:induction false} NatToStringInjective(m: nat, n: nat)
    requires NatToString(m) == NatToString(n)
    ensures m == n
    decreases m
  {
    if m >= 10 && n >= 10 {
      var a, b := NatToString(m / 10), NatToString(n / 10);
      assert a + [DigitChar(m % 10)] == b + [DigitChar(n % 10)];
      assert |a| == |b|;
      assert a == (a + [DigitChar(m % 10)])[..|a|];
      assert b == (b + [DigitChar(n % 10)])[..|b|];
      assert DigitChar(m % 10) == DigitChar(n % 10);
      NatToStringInjective(m / 10, n / 10);
    }
  }

  function Join(parts: seq<string>, sep: string): string {
    if |parts| == 0 then ""
    else if |parts| == 1 then parts[0]
    else parts[0] + sep + Join(parts[1..], sep)
  }

  /**
   * `String(v)` as template literals use it. The textual forms of an
   * ObjectId and of a Date are not modelled: they print what they were built from.
   */
  function JsString(v: Value): string {
    match v
    case Undefined => "undefined"
    case Null => "null"
    case Bool(b) => if b then "true" else "false"
    case Num(n) => if n < 0 then "-" + NatToString(-n) else NatToString(n)
    case Str(s) => s
    case Arr(items) =>
      Join(seq(|items|, i requires 0 <= i < |items| =>
        if items[i] == Undefined || items[i] == Null then "" else JsString(items[i])), ",")
    case Obj(_) => "[object Object]"
    case ObjectId(src) => JsString(src)
    case DateOf(src) => JsString(src)
  }

  predicate EndsWith(s: string, suffix: string) {
    |suffix| <= |s| && s[|s| - |suffix|..] == suffix
  }

  /** Whether `sep` occurs in `s` (`s.indexOf(sep) >= 0` for a one-character separator). */
  predicate Contains(s: string, c: char) {
    exists i :: 0 <= i < |s| && s[i] == c
  }

  /** `s.split(sep)` for a one-character separator. */
  function Split(s: string, sep: char): (parts: seq<string>)
    ensures |parts| > 0
    ensures forall i :: 0 <= i < |parts| ==> !Contains(parts[i], sep)
    ensures Join(parts, [sep]) == s
  {
    if |s| == 0 then [""]
    else if s[0] == sep then
      var rest := Split(s[1..], sep);
      assert Join([""] + rest, [sep]) == "" + [sep] + Join(rest, [sep]);
      [""] + rest
    else
      var rest := Split(s[1..], sep);
      var head := [s[0]] + rest[0];
      assert !Contains(head, sep) by {
        forall i | 0 <= i < |head| ensures head[i] != sep {
          if i > 0 { assert head[i] == rest[0][i - 1]; }
        }
      }
      JoinConsHead(s[0], rest, [sep]);
      [head] + rest[1..]
  }

  lemma JoinConsHead(c: char, parts: seq<string>, sep: string)
    requires |parts| > 0
    ensures Join([[c] + parts[0]] + parts[1..], sep) == [c] + Join(parts, sep)
  {
    if |parts| > 1 {
      assert ([[c] + parts[0]] + parts[1..])[1..] == parts[1..];
    }
  }

  /** What `for...of` can walk: arrays, and strings character by character. */
  predicate Iterable(v: Value) {
    v.Arr? || v.Str?
  }

  /** The number of steps `for...of` takes over `v`. */
  function Count(v: Value): nat
    requires Iterable(v)
  {
    if v.Arr? then |v.items| else |v.s|
  }

  /** The `k`-th value `for...of` yields: an array item, or a one-character string. */
  function Element(v: Value, k: nat): Value
    requires Iterable(v) && k < Count(v)
  {
    if v.Arr? then v.items[k] else Str([v.s[k]])
  }

  /**
   * The own enumerable keys of a value, as object spread `{...v}` copies
   * them: an object's fields, an array's or a string's indices, nothing
   * for the other values.
   */
  function Spread(v: Value): Doc {
    match v
    case Obj(m) => m
    case Arr(items) => IndexMap(items)
    case Str(s) => IndexMap(seq(|s|, i requires 0 <= i < |s| => Str([s[i]])))
    case _ => map[]
  }

  function IndexMap(items: seq<Value>): (m: Doc)
    ensures forall i :: 0 <= i < |items| ==> NatToString(i) in m && m[NatToString(i)] == items[i]
    ensures forall k :: k in m ==> exists i :: 0 <= i < |items| && k == NatToString(i)
  {
    forall i, j | 0 <= i < |items| && 0 <= j < |items| && NatToString(i) == NatToString(j)
      ensures i == j
    {
      NatToStringInjective(i, j);
    }
    var m := map i | 0 <= i < |items| :: NatToString(i) := items[i];
    forall i | 0 <= i < |items| ensures m[NatToString(i)] == items[i] {
      forall j | 0 <= j < |items| && NatToString(j) == NatToString(i) ensures j == i {
        NatToStringInjective(j, i);
      }
    }
    m
  }
}
