/** The slice of JavaScript's value model that the converter touches: plain
    JSON-like values, own-property lookup (`hasOwnProperty` followed by a read),
    the String() coercion applied by `createElement`, `createTextNode`,
    `setAttribute` and string concatenation, and `Array.prototype.join`. */
module Js {

  datatype Option<T> = None | Some(value: T)

  /** How a JavaScript evaluation ends: normally with a value, or by throwing
      the TypeError that property access on `null`/`undefined` raises. */
  datatype Completion<T> = Normal(value: T) | TypeError

  /** A JavaScript value. Numbers are modelled as integers. An object is the
      list of its own enumerable properties in enumeration order; its keys are
      distinct by construction of every object the converter builds. */
  datatype Value =
    | Undefined
    | Null
    | Bool(b: bool)
    | Num(n: int)
    | Str(s: string)
    | Arr(items: seq<Value>)
    | Obj(props: seq<Prop>)

  /** One own property of an object. */
  datatype Prop = Prop(key: string, value: Value)

  /** A size measure used to prove that walks over nested values terminate. */
  function Size(v: Value): (r: nat)
    ensures r >= 1
  {
    match v
    case Arr(xs) => 1 + SizeOfList(xs)
    case Obj(ps) => 1 + SizeOfProps(ps)
    case _ => 1
  }

  function SizeOfList(xs: seq<Value>): nat
  {
    if xs == [] then 0 else SizeOfList(xs[..|xs| - 1]) + Size(xs[|xs| - 1])
  }

  function SizeOfProps(ps: seq<Prop>): nat
  {
    if ps == [] then 0 else Size(ps[0].value) + SizeOfProps(ps[1..])
  }

  lemma {:induction false} ItemSizeBound(xs: seq<Value>, i: nat)
    requires i < |xs|
    ensures Size(xs[i]) <= SizeOfList(xs)
  {
    if i < |xs| - 1 {
      ItemSizeBound(xs[..|xs| - 1], i);
    }
  }

  /** The value of own property `key` of an object, the first one listed. */
  function Find(ps: seq<Prop>, key: string): (r: Option<Value>)
    ensures r.Some? ==> Size(r.value) <= SizeOfProps(ps)
  {
    if ps == [] then None
    else if ps[0].key == key then Some(ps[0].value)
    else Find(ps[1..], key)
  }

  /** `Find` reports a property exactly when the object lists one under that
      key, and then the first such one. */
  lemma {:induction false} FindSpec(ps: seq<Prop>, key: string)
    ensures Find(ps, key).None? <==> forall i :: 0 <= i < |ps| ==> ps[i].key != key
    ensures Find(ps, key).Some? ==>
      exists i :: 0 <= i < |ps| && ps[i] == Prop(key, Find(ps, key).value)
                 && forall j :: 0 <= j < i ==> ps[j].key != key
  {
    if ps != [] && ps[0].key != key {
      FindSpec(ps[1..], key);
      if Find(ps, key).Some? {
        var i :| 0 <= i < |ps| - 1 && ps[1..][i] == Prop(key, Find(ps, key).value)
                 && forall j :: 0 <= j < i ==> ps[1..][j].key != key;
        assert ps[i + 1] == Prop(key, Find(ps, key).value);
        forall j | 0 <= j < i + 1 ensures ps[j].key != key {
          if j > 0 { assert ps[j] == ps[1..][j - 1]; }
        }
      } else {
        forall i | 0 <= i < |ps| ensures ps[i].key != key {
          if i > 0 { assert ps[i] == ps[1..][i - 1]; }
        }
      }
    }
  }

  /** Looking a key up in two property lists laid end to end finds it in
      the first when it is there, and in the second otherwise. */
  lemma {:induction false} FindConcat(a: seq<Prop>, b: seq<Prop>, key: string)
    ensures Find(a + b, key) == if Find(a, key).Some? then Find(a, key) else Find(b, key)
  {
    if a != [] {
      assert (a + b)[1..] == a[1..] + b;
      FindConcat(a[1..], b, key);
    } else {
      assert a + b == b;
    }
  }

  /** `v.hasOwnProperty(key) ? v[key] : absent`. Primitive strings and arrays
      own `length` and their canonical index keys; numbers and booleans own
      nothing; `null` and `undefined` throw. */
  function OwnProperty(v: Value, key: string): (r: Completion<Option<Value>>)
    ensures r.TypeError? <==> v.Null? || v.Undefined?
    ensures v.Obj? ==> r == Normal(Find(v.props, key))
    ensures (v.Bool? || v.Num?) ==> r == Normal(None)
  {
    match v
    case Undefined => TypeError
    case Null => TypeError
    case Obj(ps) => Normal(Find(ps, key))
    case Arr(xs) =>
      if key == "length" then Normal(Some(Num(|xs|)))
      else (match CanonicalIndex(key)
            case Some(i) => if i < |xs| then Normal(Some(xs[i])) else Normal(None)
            case None => Normal(None))
    case Str(s) =>
      if key == "length" then Normal(Some(Num(|s|)))
      else (match CanonicalIndex(key)
            case Some(i) => if i < |s| then Normal(Some(Str([s[i]]))) else Normal(None)
            case None => Normal(None))
    case _ => Normal(None)
  }

  /** String(v). */
  function ToJsString(v: Value): string
  {
    match v
    case Undefined => "undefined"
    case Null => "null"
    case Bool(b) => if b then "true" else "false"
    case Num(n) => if n < 0 then "-" + NatToString(-n) else NatToString(n)
    case Str(s) => s
    // Array.prototype.toString joins the elements, writing null and undefined as ""
    case Arr(xs) => Join(",", seq(|xs|, i requires 0 <= i < |xs| =>
                                    if xs[i].Null? || xs[i].Undefined? then "" else ToJsString(xs[i])))
    case Obj(_) => "[object Object]"
  }

  /** `parts.join(sep)`. */
  function Join(sep: string, parts: seq<string>): string
  {
    if |parts| == 0 then ""
    else if |parts| == 1 then parts[0]
    else parts[0] + sep + Join(sep, parts[1..])
  }

  /** Joining one more part appends the separator and the part. */
  lemma {:induction false} JoinSnoc(sep: string, parts: seq<string>, p: string)
    ensures Join(sep, parts + [p]) == if parts == [] then p else Join(sep, parts) + sep + p
  {
    if |parts| >= 2 {
      assert (parts + [p])[1..] == parts[1..] + [p];
      JoinSnoc(sep, parts[1..], p);
    } else if |parts| == 1 {
      assert (parts + [p])[1..] == [p];
    }
  }

  /** Appending is associative; written out for the history bookkeeping. */
  lemma AppendAssociative<T>(a: seq<T>, b: seq<T>, c: seq<T>)
    ensures a + b + c == a + (b + c)
  {
  }

  lemma AppendNothing<T>(a: seq<T>)
    ensures a + [] == a
  {
  }

  function DigitChar(d: nat): char
    requires d < 10
  {
    ('0' as int + d) as char
  }

  function DigitValue(c: char): nat
    requires '0' <= c <= '9'
  {
    (c as int - '0' as int) as nat
  }

  predicate IsDigits(s: string)
  {
    forall i :: 0 <= i < |s| ==> '0' <= s[i] <= '9'
  }

  /** The decimal numeral of a non-negative integer, as String(n) writes it. */
  function NatToString(n: nat): (s: string)
    ensures |s| >= 1 && IsDigits(s)
    ensures |s| > 1 ==> s[0] != '0'
    decreases n
  {
    if n < 10 then [DigitChar(n)] else NatToString(n / 10) + [DigitChar(n % 10)]
  }

  /** The value of a numeral, most significant digit first. */
  function DigitsValue(s: string): nat
    requires IsDigits(s)
  {
    if s == [] then 0 else 10 * DigitsValue(s[..|s| - 1]) + DigitValue(s[|s| - 1])
  }

  /** Reading back the numeral gives the number. */
  lemma {:induction false} NatToStringValue(n: nat)
    ensures DigitsValue(NatToString(n)) == n
    decreases n
  {
    var s := NatToString(n);
    if n >= 10 {
      NatToStringValue(n / 10);
      assert s[..|s| - 1] == NatToString(n / 10);
    }
  }

  /** Distinct numbers have distinct numerals. */
  lemma NatToStringInjective(a: nat, b: nat)
    ensures NatToString(a) == NatToString(b) ==> a == b
  {
    if NatToString(a) == NatToString(b) {
      NatToStringValue(a);
      NatToStringValue(b);
    }
  }

  /** The array index a property key names, if it is a canonical numeral. */
  function CanonicalIndex(key: string): (r: Option<nat>)
    ensures r.Some? ==> NatToString(r.value) == key
  {
    if key != [] && IsDigits(key) && NatToString(DigitsValue(key)) == key
    then Some(DigitsValue(key))
    else None
  }

  predicate IsUpperAscii(c: char)
  {
    'A' <= c <= 'Z'
  }

  /** `toLowerCase()` on ASCII letters. */
  function LowerAscii(s: string): (r: string)
    ensures |r| == |s|
    ensures forall i :: 0 <= i < |s| ==> !IsUpperAscii(r[i])
    ensures forall i :: 0 <= i < |s| && !IsUpperAscii(s[i]) ==> r[i] == s[i]
    ensures forall i :: 0 <= i < |s| && IsUpperAscii(s[i]) ==> r[i] == (s[i] as int - 'A' as int + 'a' as int) as char
  {
    seq(|s|, i requires 0 <= i < |s| =>
      if IsUpperAscii(s[i]) then (s[i] as int - 'A' as int + 'a' as int) as char else s[i])
  }
}
