/** The JavaScript values and built-in operations that the client code relies on:
    truthiness, `a || b`, property reads, `String(v)`, `startsWith` and `includes`. */
module Js {

  datatype Option<+T> = None | Some(value: T)

  datatype Result<+T, +E> = Ok(value: T) | Err(error: E)

  /** A JavaScript value as it arrives in a JSON body or is written as a literal in the code.
      Numbers are integers in this model. */
  datatype Value =
    | Undefined
    | Null
    | Bool(b: bool)
    | Num(n: int)
    | Str(s: string)
    | Arr(items: seq<Value>)
    | Obj(fields: map<string, Value>)

  /** The values that `if (v)` and `!!v` treat as true. */
  predicate Truthy(v: Value) {
    match v
    case Undefined | Null => false
    case Bool(b) => b
    case Num(n) => n != 0
    case Str(s) => s != ""
    case Arr(_) | Obj(_) => true
  }

  /** `a || b` */
  function Or(a: Value, b: Value): (r: Value)
    ensures Truthy(b) ==> Truthy(r)
    ensures Truthy(a) ==> r == a
    ensures !Truthy(a) ==> r == b
  {
    if Truthy(a) then a else b
  }

  /** A string read from storage or a cookie is truthy exactly when it is present and non-empty. */
  predicate Present(s: Option<string>) {
    s.Some? && s.value != ""
  }

  /** Only `undefined` and `null` throw when a property is read from them. */
  predicate Readable(v: Value) {
    !v.Undefined? && !v.Null?
  }

  /** `v.key` on a value that has properties: an object's own field, and `undefined` otherwise
      (the built-in properties of strings and arrays are not read by the client code). */
  function Field(v: Value, key: string): Value
    requires Readable(v)
  {
    if v.Obj? && key in v.fields then v.fields[key] else Undefined
  }

  /** The message of the TypeError that `v.key` throws when `v` is `null` or `undefined`,
      in the wording of the V8 engine. */
  function PropertyErrorMessage(v: Value, key: string): (m: string)
    ensures m != ""
  {
    "Cannot read properties of " + (if v.Null? then "null" else "undefined") + " (reading '" + key + "')"
  }

  /** `v.key` with its failure: the TypeError's message when `v` has no properties. */
  function GetField(v: Value, key: string): (r: Result<Value, string>)
    ensures r.Ok? <==> Readable(v)
    ensures r.Ok? ==> r.value == Field(v, key)
    ensures r.Err? ==> r.error == PropertyErrorMessage(v, key)
  {
    if Readable(v) then Ok(Field(v, key)) else Err(PropertyErrorMessage(v, key))
  }

  function DigitChar(d: nat): char
    requires d < 10
  {
    "0123456789"[d]
  }

  predicate IsDigit(c: char) {
    '0' <= c <= '9'
  }

  /** The decimal digits of a natural number, most significant first, without leading zeros. */
  function Digits(n: nat): (s: string)
    ensures |s| >= 1
    ensures forall i :: 0 <= i < |s| ==> IsDigit(s[i])
    ensures (s[0] == '0') <==> n == 0
  {
    if n < 10 then [DigitChar(n)] else Digits(n / 10) + [DigitChar(n % 10)]
  }

  /** `String(n)` for an integer `n`, as template literals such as `${classLevel}` produce it. */
  function NumberToString(n: int): (s: string)
    ensures s != ""
    ensures (s[0] == '-') <==> n < 0
  {
    if n < 0 then "-" + Digits(-n) else Digits(n)
  }

  /** `String(v)`, the conversion `localStorage.setItem` applies to the value it stores. */
  function ToJsString(v: Value): string
    decreases v, 1
  {
    match v
    case Undefined => "undefined"
    case Null => "null"
    case Bool(b) => if b then "true" else "false"
    case Num(n) => NumberToString(n)
    case Str(s) => s
    case Arr(items) => JoinItems(items)
    case Obj(_) => "[object Object]"
  }

  /** `items.join(",")`: `null` and `undefined` elements become empty strings. */
  function JoinItems(items: seq<Value>): string
    decreases items, 0
  {
    if items == [] then ""
    else
      var head := if Readable(items[0]) then ToJsString(items[0]) else "";
      if |items| == 1 then head else head + "," + JoinItems(items[1..])
  }

  /** The number a string of decimal digits denotes, read most significant digit first. */
  function DecimalValue(s: string): int
    requires forall i :: 0 <= i < |s| ==> IsDigit(s[i])
  {
    if s == [] then 0 else DecimalValue(s[..|s| - 1]) * 10 + (s[|s| - 1] as int - '0' as int)
  }

  /** The integer an optionally signed decimal string denotes, as `parseInt` reads it. */
  function IntegerValue(s: string): int
    requires s != [] && s[0] == '-' ==> forall i :: 1 <= i < |s| ==> IsDigit(s[i])
    requires s == [] || s[0] != '-' ==> forall i :: 0 <= i < |s| ==> IsDigit(s[i])
  {
    if s != [] && s[0] == '-' then -DecimalValue(s[1..]) else DecimalValue(s)
  }

  lemma DigitCharValue(d: nat)
    requires d < 10
    ensures DigitChar(d) as int - '0' as int == d
  {
    assert "0123456789"[d] as int == '0' as int + d by {
      if d == 0 {} else if d == 1 {} else if d == 2 {} else if d == 3 {} else if d == 4 {}
      else if d == 5 {} else if d == 6 {} else if d == 7 {} else if d == 8 {} else {}
    }
  }

  /** Reading the digits of `n` back gives `n`. */
  lemma {:induction false} DigitsReadBack(n: nat)
    ensures DecimalValue(Digits(n)) == n
  {
    if n < 10 {
      DigitCharValue(n);
      assert Digits(n)[..0] == [];
    } else {
      var s := Digits(n);
      assert s[..|s| - 1] == Digits(n / 10);
      DigitsReadBack(n / 10);
      DigitCharValue(n % 10);
    }
  }

  /** What `String(v)` writes for the values a response can carry in its `token`: a string is stored
      as it is, a number as decimal text that reads back as the number, and the other values as
      their fixed names. */
  lemma ToJsStringReadsBack(v: Value)
    ensures v.Str? ==> ToJsString(v) == v.s
    ensures v.Num? ==> IntegerValue(ToJsString(v)) == v.n
    ensures v.Bool? ==> ToJsString(v) == (if v.b then "true" else "false")
    ensures v.Obj? ==> ToJsString(v) == "[object Object]"
  {
    if v.Num? {
      if v.n < 0 {
        var s := ToJsString(v);
        assert s[1..] == Digits(-v.n);
        DigitsReadBack(-v.n);
      } else {
        DigitsReadBack(v.n);
      }
    }
  }

  /** `s.startsWith(prefix)` */
  predicate StartsWith(s: string, prefix: string) {
    |prefix| <= |s| && s[..|prefix|] == prefix
  }

  /** `s.includes(t)`, by scanning the start positions of `s` from left to right. */
  predicate Includes(s: string, t: string)
    decreases |s|
  {
    StartsWith(s, t) || (s != [] && Includes(s[1..], t))
  }

  /** `t` occurs in `s` starting at position `i`. */
  ghost predicate OccursAt(t: string, s: string, i: int) {
    0 <= i <= |s| - |t| && s[i..i + |t|] == t
  }

  /** The reference definition of `includes`: `t` occurs at some position of `s`. */
  ghost predicate OccursIn(t: string, s: string) {
    exists i :: OccursAt(t, s, i)
  }

  lemma {:induction false} IncludesMeansOccurs(s: string, t: string)
    ensures Includes(s, t) <==> OccursIn(t, s)
    decreases |s|
  {
    if StartsWith(s, t) {
      assert OccursAt(t, s, 0);
    } else if s == [] {
      assert |t| > 0;
    } else {
      IncludesMeansOccurs(s[1..], t);
      if Includes(s[1..], t) {
        var i :| OccursAt(t, s[1..], i);
        assert s[i + 1..i + 1 + |t|] == s[1..][i..i + |t|];
        assert OccursAt(t, s, i + 1);
      }
      if OccursIn(t, s) {
        var i :| OccursAt(t, s, i);
        assert i != 0;
        assert s[1..][i - 1..i - 1 + |t|] == s[i..i + |t|];
        assert OccursAt(t, s[1..], i - 1);
      }
    }
  }

  /** Whatever surrounds it, a string that contains `t` includes `t`. */
  lemma {:induction false} IncludesInfix(a: string, t: string, b: string)
    ensures Includes(a + t + b, t)
    decreases |a|
  {
    if a == [] {
      assert a + t + b == t + b;
      assert (t + b)[..|t|] == t;
    } else {
      assert (a + t + b)[1..] == a[1..] + t + b;
      IncludesInfix(a[1..], t, b);
    }
  }
}
