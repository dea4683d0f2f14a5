/** The class a new element takes from its context: `context[mode].style`,
    a single class or a list of classes, appended one by one after a space. */
module Style {
  import opened Js

  /** The class tokens `context[mode].style` asks for, `None` when there is
      no such entry. Property access on a null or undefined context, mode
      entry or style throws; a style that is neither a string nor an array
      has no `length` and adds no token. */
  function StyleDirective(context: Value, mode: string): Completion<Option<seq<string>>>
  {
    match OwnProperty(context, mode)
    case TypeError => TypeError
    case Normal(None) => Normal(None)
    case Normal(Some(entry)) =>
      match OwnProperty(entry, "style")
      case TypeError => TypeError
      case Normal(None) => Normal(None)
      case Normal(Some(style)) =>
        match style
        case Str(s) => Normal(Some([s]))
        case Null => TypeError
        case Undefined => TypeError
        case Arr(xs) => Normal(Some(seq(|xs|, i requires 0 <= i < |xs| => ToJsString(xs[i]))))
        case _ => Normal(Some([]))
  }

  /** The class name of a new element once the style is applied: each token
      appended after a space, then one leading space removed. */
  function ClassName(style: Option<seq<string>>): string
  {
    match style
    case None => ""
    case Some(tokens) => StripLeadingSpace(Spaced(tokens))
  }

  /** `className += ' ' + token` for each token, from an empty class name. */
  function Spaced(tokens: seq<string>): string
  {
    if tokens == [] then "" else Spaced(tokens[..|tokens| - 1]) + " " + tokens[|tokens| - 1]
  }

  /** `if (c.substr(0, 1) === ' ') c = c.slice(1)`. */
  function StripLeadingSpace(c: string): string
  {
    if |c| >= 1 && c[..1] == " " then c[1..] else c
  }

  /** Spaced tokens are a space followed by the tokens joined with spaces. */
  lemma {:induction false} SpacedJoin(tokens: seq<string>)
    ensures Spaced(tokens) == if tokens == [] then "" else " " + Join(" ", tokens)
  {
    if tokens != [] {
      var init, last := tokens[..|tokens| - 1], tokens[|tokens| - 1];
      SpacedJoin(init);
      assert tokens == init + [last];
      JoinSnoc(" ", init, last);
      if init != [] {
        var j := Join(" ", init);
        AppendAssociative(" ", j, " ");
        AppendAssociative(" ", j + " ", last);
      }
    }
  }

  /** A new element's class name is the style tokens joined by single spaces,
      with no leading space. */
  lemma ClassNameJoins(tokens: seq<string>)
    ensures ClassName(Some(tokens)) == Join(" ", tokens)
  {
    SpacedJoin(tokens);
  }

  /** Style `"foo"` gives class `foo`. */
  lemma SingleStyleExample()
    ensures ClassName(StyleDirective(Obj([Prop("page", Obj([Prop("style", Str("foo"))]))]), "page").value) == "foo"
  {
    assert StyleDirective(Obj([Prop("page", Obj([Prop("style", Str("foo"))]))]), "page") == Normal(Some(["foo"]));
    ClassNameJoins(["foo"]);
  }

  /** Style `["foo", "bar"]` gives class `foo bar`. */
  lemma StyleListExample()
    ensures ClassName(StyleDirective(Obj([Prop("page", Obj([Prop("style", Arr([Str("foo"), Str("bar")]))]))]), "page").value)
            == "foo bar"
  {
    var tokens := seq(2, i requires 0 <= i < 2 => ToJsString([Str("foo"), Str("bar")][i]));
    assert tokens == ["foo", "bar"];
    assert StyleDirective(Obj([Prop("page", Obj([Prop("style", Arr([Str("foo"), Str("bar")]))]))]), "page")
           == Normal(Some(["foo", "bar"]));
    ClassNameJoins(["foo", "bar"]);
  }

  /** A context with no entry for the mode, or whose entry has no `style`,
      gives no class tokens, so the class stays empty. */
  lemma NoStyleNoClass(context: Value, mode: string)
    requires OwnProperty(context, mode) == Normal(None)
             || (OwnProperty(context, mode).Normal? && OwnProperty(context, mode).value.Some?
                 && OwnProperty(OwnProperty(context, mode).value.value, "style") == Normal(None))
    ensures StyleDirective(context, mode) == Normal(None)
    ensures ClassName(StyleDirective(context, mode).value) == ""
  {
  }

  /** Under mode `page`, a context with a `teaser` entry only leaves the
      class empty. */
  lemma OtherModeExample()
    ensures ClassName(StyleDirective(Obj([Prop("teaser", Obj([Prop("style", Str("foo"))]))]), "page").value) == ""
  {
    NoStyleNoClass(Obj([Prop("teaser", Obj([Prop("style", Str("foo"))]))]), "page");
  }
}
