/** `app.toString`: renders a value as JSON-like text. Strings are quoted
    without escaping, arrays and objects are rendered element by element, and
    every other type renders as the empty string. */
module Formatter {
  import opened Js

  /** The text `app.toString` produces for `v`. `typeof null` is `'object'`,
      so `null` takes the object branch, whose `for … in` visits no key. */
  function Render(v: Value): (r: string)
    ensures r == "" <==> v.Undefined? || v.Bool? || v.Num?
  {
    match v
    case Str(s) => "\"" + s + "\""
    case Arr(xs) => "[" + RenderItems(xs) + "]"
    case Null => "{}"
    case Obj(ps) => "{" + Join(",", RenderPairs(ps)) + "}"
    case _ => ""
  }

  /** The array loop: a comma before every element but the first. */
  function RenderItems(xs: seq<Value>): string
  {
    if xs == [] then ""
    else RenderItems(xs[..|xs| - 1]) + (if |xs| > 1 then "," else "") + Render(xs[|xs| - 1])
  }

  /** The object loop: one `"key":value` entry per own property. */
  function RenderPairs(ps: seq<Prop>): seq<string>
  {
    if ps == [] then []
    else RenderPairs(ps[..|ps| - 1]) + [RenderPair(ps[|ps| - 1])]
  }

  function RenderPair(p: Prop): string
  {
    "\"" + p.key + "\":" + Render(p.value)
  }

  /** Each element rendered on its own. */
  function RenderEach(xs: seq<Value>): (r: seq<string>)
    ensures |r| == |xs|
  {
    seq(|xs|, i requires 0 <= i < |xs| => Render(xs[i]))
  }

  /** An array is `[`, the comma-joined renderings of its elements, `]`. */
  lemma {:induction false} RenderArray(xs: seq<Value>)
    ensures Render(Arr(xs)) == "[" + Join(",", RenderEach(xs)) + "]"
  {
    RenderItemsJoin(xs);
  }

  lemma {:induction false} RenderItemsJoin(xs: seq<Value>)
    ensures RenderItems(xs) == Join(",", RenderEach(xs))
  {
    if xs != [] {
      var init := xs[..|xs| - 1];
      RenderItemsJoin(init);
      assert RenderEach(xs) == RenderEach(init) + [Render(xs[|xs| - 1])];
      JoinSnoc(",", RenderEach(init), Render(xs[|xs| - 1]));
    }
  }

  /** An object is `{`, the comma-joined `"key":value` entries in property
      order, `}`. */
  lemma {:induction false} RenderObject(ps: seq<Prop>)
    ensures Render(Obj(ps)) ==
      "{" + Join(",", seq(|ps|, i requires 0 <= i < |ps| => "\"" + ps[i].key + "\":" + Render(ps[i].value))) + "}"
  {
    RenderPairsEach(ps);
  }

  lemma {:induction false} RenderPairsEach(ps: seq<Prop>)
    ensures RenderPairs(ps) == seq(|ps|, i requires 0 <= i < |ps| => "\"" + ps[i].key + "\":" + Render(ps[i].value))
  {
    if ps != [] {
      RenderPairsEach(ps[..|ps| - 1]);
    }
  }

  /** A string is quoted as it stands: no character of it is escaped. */
  lemma RenderString(s: string)
    ensures |Render(Str(s))| == |s| + 2
    ensures Render(Str(s))[1..|s| + 1] == s
    ensures Render(Str(s))[0] == '"' && Render(Str(s))[|s| + 1] == '"'
  {
  }

  /** Without escaping, two different values can render to the same text:
      one string holding `a","b` and the two strings `a` and `b`. */
  lemma RenderIsAmbiguous()
    ensures Render(Arr([Str("a\",\"b")])) == Render(Arr([Str("a"), Str("b")]))
    ensures Arr([Str("a\",\"b")]) != Arr([Str("a"), Str("b")])
  {
    RenderOneString();
    RenderTwoStrings();
  }

  lemma RenderOneString()
    ensures Render(Arr([Str("a\",\"b")])) == "[\"a\",\"b\"]"
  {
    assert [Str("a\",\"b")][..0] == [];
    assert RenderItems([Str("a\",\"b")]) == "\"a\",\"b\"";
  }

  lemma RenderTwoStrings()
    ensures Render(Arr([Str("a"), Str("b")])) == "[\"a\",\"b\"]"
  {
    assert [Str("a"), Str("b")][..1] == [Str("a")];
    assert [Str("a")][..0] == [];
    assert RenderItems([Str("a")]) == "\"a\"";
    assert RenderItems([Str("a"), Str("b")]) == "\"a\"" + "," + "\"b\"";
  }

  /** Values of the types the formatter does not handle vanish, also inside
      arrays: a list of undefined values, booleans and numbers renders as
      its commas alone, `[1, true]` as `[,]`. */
  lemma {:induction false} UnsupportedElementsVanish(xs: seq<Value>)
    requires forall i :: 0 <= i < |xs| ==> xs[i].Undefined? || xs[i].Bool? || xs[i].Num?
    ensures Render(Arr(xs)) == "[" + (if xs == [] then "" else seq(|xs| - 1, _ => ',')) + "]"
  {
    OnlyCommas(xs);
  }

  lemma {:induction false} OnlyCommas(xs: seq<Value>)
    requires forall i :: 0 <= i < |xs| ==> xs[i].Undefined? || xs[i].Bool? || xs[i].Num?
    ensures RenderItems(xs) == if xs == [] then "" else seq(|xs| - 1, _ => ',')
  {
    if xs != [] {
      var init := xs[..|xs| - 1];
      OnlyCommas(init);
      assert Render(xs[|xs| - 1]) == "";
      if |xs| > 1 {
        assert seq(|xs| - 1, _ => ',') == seq(|init| - 1, _ => ',') + ",";
      }
    }
  }

  /** `app.toString` as the source writes it, with its two loops. */
  method ToJsonText(item: Value) returns (str: string)
    ensures str == Render(item)
    decreases item
  {
    str := "";
    match item {
      case Str(s) =>
        str := "\"" + s + "\"";
      case Arr(xs) =>
        str := "[";
        var i := 0;
        while i < |xs|
          invariant 0 <= i <= |xs|
          invariant str == "[" + RenderItems(xs[..i])
        {
          if i != 0 {
            str := str + ",";
          }
          var element := ToJsonText(xs[i]);
          str := str + element;
          assert xs[..i + 1][..i] == xs[..i];
          i := i + 1;
        }
        assert xs[..i] == xs;
        str := str + "]";
      case Null =>
        str := "{" + Join(",", []) + "}";
      case Obj(ps) =>
        var pairs: seq<string> := [];
        var i := 0;
        while i < |ps|
          invariant 0 <= i <= |ps|
          invariant pairs == RenderPairs(ps[..i])
        {
          var value := ToJsonText(ps[i].value);
          pairs := pairs + ["\"" + ps[i].key + "\":" + value];
          assert ps[..i + 1][..i] == ps[..i];
          i := i + 1;
        }
        assert ps[..i] == ps;
        str := "{" + Join(",", pairs) + "}";
      case _ =>
    }
  }
}
