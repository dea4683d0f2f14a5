/** `app.jsonToDom`: builds document nodes from a list of descriptors, sets
    image attributes, applies the style the context gives for the display
    mode, and registers each context in the context record.

    The functions below say what a conversion produces, given the number of
    keys the record has minted so far; the methods at the end perform it on
    a `ContextRecord.Store`, as the source does, and are proved to agree. */
module Deserializer {
  import opened Js
  import opened Dom
  import opened ContextRecord
  import opened Style

  /** What converting a descriptor list produces: the nodes, or the TypeError
      it threw, together with the contexts it added to the record, in order,
      up to that point (the record keeps them even when a later item throws). */
  datatype Build = Build(result: Completion<seq<Node>>, added: seq<Value>)

  const Nothing: Build := Build(Normal([]), [])

  /** The attributes the image branch copies, indexed as in the source. */
  const ImageAttributes: seq<string> := ["src", "alt", "width", "height"]

  /** `convert(json_list, dom)`: the loop runs over `json_list.length` items.
      A string's items are one-character strings, which own no `tag`, and
      other non-array values have no `length`, so for those nothing is built. */
  function ConvertList(list: Value, mode: string, issued: nat): Build
    decreases Size(list), 4
  {
    match list
    case Arr(xs) => ConvertItems(xs, mode, issued)
    case Null => Build(TypeError, [])
    case Undefined => Build(TypeError, [])
    case _ => Nothing
  }

  /** The items in order; the first TypeError ends the walk. Each item is
      converted with the keys minted by the items before it. */
  function ConvertItems(xs: seq<Value>, mode: string, issued: nat): Build
    decreases SizeOfList(xs), 4
  {
    if xs == [] then Nothing
    else
      var before := ConvertItems(xs[..|xs| - 1], mode, issued);
      if before.result.TypeError? then before
      else Then(before, ConvertItem(xs[|xs| - 1], mode, issued + |before.added|))
  }

  /** The outcome of `first` followed by `rest`. */
  function Then(first: Build, rest: Build): (b: Build)
    requires first.result.Normal?
    ensures b.added == first.added + rest.added
    ensures b.result.Normal? <==> rest.result.Normal?
    ensures b.result.Normal? ==> b.result.value == first.result.value + rest.result.value
  {
    Build(match rest.result
          case Normal(ns) => Normal(first.result.value + ns)
          case TypeError => TypeError,
          first.added + rest.added)
  }

  /** One item: `item.hasOwnProperty('tag')` throws on null and undefined,
      and only an object can own `tag`. */
  function ConvertItem(item: Value, mode: string, issued: nat): Build
    decreases Size(item), 3
  {
    match item
    case Null => Build(TypeError, [])
    case Undefined => Build(TypeError, [])
    case Obj(props) => ConvertObject(props, mode, issued)
    case _ => Nothing
  }

  /** An object item: an element when it owns `tag`, nothing otherwise. */
  function ConvertObject(props: seq<Prop>, mode: string, issued: nat): Build
    decreases Size(Obj(props)), 2
  {
    match Find(props, "tag")
    case Some(tag) => CreateElement(props, tag, mode, issued)
    case None => Nothing
  }

  /** The element for an item that has a `tag`. The recursive conversion of
      `content` runs first, so the contexts of descendants are registered
      before the element's own, whose key is the next one minted. */
  function CreateElement(props: seq<Prop>, tag: Value, mode: string, issued: nat): Build
    decreases Size(Obj(props)), 1
  {
    var inner := ContentOf(props, mode, issued);
    if inner.result.TypeError? then inner
    else
      var children := TextOf(props) + inner.result.value;
      match ElementOf(props, tag, mode, Token(issued + |inner.added| + 1), children)
      case TypeError => Build(TypeError, inner.added)
      case Normal(e) => Build(Normal([e]), inner.added + ContextOf(props))
  }

  /** `convert(item.content, n)`, when the item owns `content`. */
  function ContentOf(props: seq<Prop>, mode: string, issued: nat): Build
    decreases Size(Obj(props)), 0
  {
    match Find(props, "content")
    case Some(c) => ConvertList(c, mode, issued)
    case None => Nothing
  }

  /** The text child `createTextNode(item.string)`, when the item owns `string`. */
  function TextOf(props: seq<Prop>): (r: seq<Node>)
    ensures |r| <= 1
  {
    match Find(props, "string")
    case Some(s) => [Text(ToJsString(s))]
    case None => []
  }

  /** The context the element registers, when the item owns one. */
  function ContextOf(props: seq<Prop>): (r: seq<Value>)
    ensures |r| <= 1
  {
    match Find(props, "context")
    case Some(c) => [c]
    case None => []
  }

  /** The element with its children in place: the image attributes, then,
      when the item has a context, the class its style gives for the mode
      and the attribute holding `key`. Reading the style can throw. */
  function ElementOf(props: seq<Prop>, tag: Value, mode: string, key: string, children: seq<Node>): (r: Completion<Node>)
    ensures r.Normal? ==> r.value.Element? && r.value.tag == ToJsString(tag) && r.value.children == children
    ensures r.TypeError? ==> Find(props, "context").Some?
  {
    var attrs := ImageAttributesOf(props, tag);
    match Find(props, "context")
    case None => Normal(Element(ToJsString(tag), attrs, "", children))
    case Some(context) =>
      match StyleDirective(context, mode)
      case TypeError => TypeError
      case Normal(style) => Normal(Element(ToJsString(tag), SetAttribute(attrs, AttributeName, key), ClassName(style), children))
  }

  /** The image branch: only an `img` item with `src` gets attributes. `src`
      is set first, then the loop sets height, width, alt and src again. */
  function ImageAttributesOf(props: seq<Prop>, tag: Value): seq<Attr>
  {
    match Find(props, "src")
    case Some(src) =>
      if tag == Str("img") then ImageLoop(SetAttribute([], "src", ToJsString(src)), props, 3) else []
    case None => []
  }

  /** The loop `for (j = 3; j >= 0; j -= 1)` over `ImageAttributes`. */
  function ImageLoop(attrs: seq<Attr>, props: seq<Prop>, j: int): seq<Attr>
    requires j < |ImageAttributes|
    decreases j + 1
  {
    if j < 0 then attrs
    else ImageLoop(CopyAttribute(attrs, props, ImageAttributes[j]), props, j - 1)
  }

  /** `if (item.hasOwnProperty(name)) n.setAttribute(name, item[name])`. */
  function CopyAttribute(attrs: seq<Attr>, props: seq<Prop>, name: string): seq<Attr>
  {
    match Find(props, name)
    case Some(v) => SetAttribute(attrs, name, ToJsString(v))
    case None => attrs
  }

  // ---------------------------------------------------------------------
  // Properties of a conversion

  /** The loop's step: the first `i + 1` items are the first `i` followed by
      item `i`, converted with the keys minted so far. */
  lemma ConvertItemsSnoc(xs: seq<Value>, i: nat, mode: string, issued: nat)
    requires i < |xs|
    ensures var before := ConvertItems(xs[..i], mode, issued);
      ConvertItems(xs[..i + 1], mode, issued) ==
        if before.result.TypeError? then before
        else Then(before, ConvertItem(xs[i], mode, issued + |before.added|))
  {
    assert xs[..i + 1][..i] == xs[..i];
  }

  /** An array's items are converted in turn. */
  lemma ConvertArray(xs: seq<Value>, mode: string, issued: nat)
    ensures ConvertList(Arr(xs), mode, issued) == ConvertItems(xs, mode, issued)
  {
  }

  /** Once the items up to `k` have thrown, the conversion of the whole list
      throws with the same contexts registered: later items are not read. */
  lemma {:induction false} ThrowIsFinal(xs: seq<Value>, k: nat, mode: string, issued: nat)
    requires k <= |xs| && ConvertItems(xs[..k], mode, issued).result.TypeError?
    ensures ConvertItems(xs, mode, issued) == ConvertItems(xs[..k], mode, issued)
    decreases |xs|
  {
    if k < |xs| {
      var init := xs[..|xs| - 1];
      assert init[..k] == xs[..k];
      ThrowIsFinal(init, k, mode, issued);
    } else {
      assert xs[..k] == xs;
    }
  }

  /** The tag an item owns, if it is an object that owns one. */
  function ItemTags(item: Value): (r: seq<Value>)
    ensures |r| <= 1
  {
    match item
    case Obj(ps) => (match Find(ps, "tag") case Some(t) => [t] case None => [])
    case _ => []
  }

  /** The tag of each item that owns one, in order. */
  function TaggedTags(xs: seq<Value>): seq<Value>
  {
    if xs == [] then [] else TaggedTags(xs[..|xs| - 1]) + ItemTags(xs[|xs| - 1])
  }

  /** `nodes` are elements named, one by one, by `tags`. */
  ghost predicate ElementsNamed(nodes: seq<Node>, tags: seq<Value>)
  {
    && |nodes| == |tags|
    && forall k :: 0 <= k < |nodes| ==> nodes[k].Element? && nodes[k].tag == ToJsString(tags[k])
  }

  lemma ElementsNamedConcat(n1: seq<Node>, t1: seq<Value>, n2: seq<Node>, t2: seq<Value>)
    requires ElementsNamed(n1, t1) && ElementsNamed(n2, t2)
    ensures ElementsNamed(n1 + n2, t1 + t2)
  {
    var nodes, tags := n1 + n2, t1 + t2;
    forall k | 0 <= k < |nodes|
      ensures nodes[k].Element? && nodes[k].tag == ToJsString(tags[k])
    {
      if k < |n1| {
        assert nodes[k] == n1[k] && tags[k] == t1[k];
      } else {
        assert nodes[k] == n2[k - |n1|] && tags[k] == t2[k - |n1|];
      }
    }
  }

  /** An element's children are the text node of `string`, if present,
      followed by the nodes converted from `content`, if present; the
      element is named by `String(tag)`. */
  lemma ChildrenInOrder(props: seq<Prop>, tag: Value, mode: string, issued: nat)
    ensures var b := CreateElement(props, tag, mode, issued);
      b.result.Normal? ==>
        var inner := ContentOf(props, mode, issued);
        && inner.result.Normal?
        && |b.result.value| == 1
        && b.result.value[0].Element?
        && b.result.value[0].tag == ToJsString(tag)
        && b.result.value[0].children == TextOf(props) + inner.result.value
  {
  }

  /** One item yields its element, named by its tag, or nothing. */
  lemma ItemElements(item: Value, mode: string, issued: nat)
    ensures var b := ConvertItem(item, mode, issued);
      b.result.Normal? ==> ElementsNamed(b.result.value, ItemTags(item))
  {
    if item.Obj? && Find(item.props, "tag").Some? {
      ChildrenInOrder(item.props, Find(item.props, "tag").value, mode, issued);
    }
  }

  /** A successful conversion yields one element per item that has a `tag`,
      in input order, named by that tag; other items yield nothing. */
  lemma {:induction false} OneElementPerTaggedItem(xs: seq<Value>, mode: string, issued: nat)
    ensures var b := ConvertItems(xs, mode, issued);
      b.result.Normal? ==> ElementsNamed(b.result.value, TaggedTags(xs))
    decreases |xs|
  {
    if xs != [] {
      var init, last := xs[..|xs| - 1], xs[|xs| - 1];
      var before := ConvertItems(init, mode, issued);
      if before.result.Normal? {
        OneElementPerTaggedItem(init, mode, issued);
        var b := ConvertItem(last, mode, issued + |before.added|);
        ItemElements(last, mode, issued + |before.added|);
        if b.result.Normal? {
          ElementsNamedConcat(before.result.value, TaggedTags(init), b.result.value, ItemTags(last));
        }
      }
    }
  }

  /** The attribute the image loop sets for `name`: `String(item[name])`,
      when the item owns `name`. */
  function OwnedAttribute(props: seq<Prop>, name: string): (r: seq<Attr>)
    ensures |r| <= 1 && forall i :: 0 <= i < |r| ==> r[i].name == name
  {
    match Find(props, name)
    case Some(v) => [Attr(name, ToJsString(v))]
    case None => []
  }

  /** Copying an attribute not yet present appends it, if the item owns it. */
  lemma CopyAbsentAttribute(attrs: seq<Attr>, props: seq<Prop>, name: string)
    requires forall i :: 0 <= i < |attrs| ==> attrs[i].name != name
    ensures CopyAttribute(attrs, props, name) == attrs + OwnedAttribute(props, name)
  {
    GetAttributeSpec(attrs, name);
    if Find(props, name).Some? {
      SetAttributeSpec(attrs, name, ToJsString(Find(props, name).value));
    }
  }

  /** Image attributes: only an `img` item with `src` gets any. It gets `src`
      first, then `height`, `width` and `alt` in that order, each only when
      the item owns it and each with the item's value; the loop's second
      `src` leaves the first in place. */
  lemma ImageAttributesExact(props: seq<Prop>, tag: Value)
    ensures ImageAttributesOf(props, tag) ==
      if tag == Str("img") && Find(props, "src").Some? then
        [Attr("src", ToJsString(Find(props, "src").value))]
        + OwnedAttribute(props, "height") + OwnedAttribute(props, "width") + OwnedAttribute(props, "alt")
      else []
  {
    if tag == Str("img") && Find(props, "src").Some? {
      var v := ToJsString(Find(props, "src").value);
      var a0 := [Attr("src", v)];
      assert SetAttribute([], "src", v) == a0;
      var a1 := a0 + OwnedAttribute(props, "height");
      CopyAbsentAttribute(a0, props, "height");
      var a2 := a1 + OwnedAttribute(props, "width");
      CopyAbsentAttribute(a1, props, "width");
      var a3 := a2 + OwnedAttribute(props, "alt");
      CopyAbsentAttribute(a2, props, "alt");
      assert a3 == [Attr("src", v)] + a3[1..];
      assert CopyAttribute(a3, props, "src") == a3;
      assert ImageLoop(a0, props, 3) == ImageLoop(a1, props, 2);
      assert ImageLoop(a1, props, 2) == ImageLoop(a2, props, 1);
      assert ImageLoop(a2, props, 1) == ImageLoop(a3, props, 0);
    }
  }

  /** An element gets the token attribute exactly when its item has a
      `context`, whether or not the context has an entry for the mode, and
      the attribute holds the key it is given. */
  lemma ElementContext(props: seq<Prop>, tag: Value, mode: string, key: string, children: seq<Node>)
    ensures var r := ElementOf(props, tag, mode, key, children);
      r.Normal? ==>
        GetAttribute(r.value.attributes, AttributeName) == if Find(props, "context").Some? then Some(key) else None
  {
    ImageAttributesExact(props, tag);
    var attrs := ImageAttributesOf(props, tag);
    assert forall i :: 0 <= i < |attrs| ==> attrs[i].name in ImageAttributes;
    GetAttributeSpec(attrs, AttributeName);
    if Find(props, "context").Some? {
      SetAttributeSpec(ImageAttributesOf(props, tag), AttributeName, key);
    }
  }

  /** A new element adds what its content added and then its own context,
      if it has one. */
  lemma ContextAddedLast(props: seq<Prop>, tag: Value, mode: string, issued: nat)
    ensures var b := CreateElement(props, tag, mode, issued);
      b.result.Normal? ==> b.added == ContentOf(props, mode, issued).added + ContextOf(props)
  {
    if ContentOf(props, mode, issued).result.Normal? {
      CreateElementFinish(props, tag, mode, issued);
    } else {
      CreateElementThrows(props, tag, mode, issued);
    }
  }

  /** A new element carries the token attribute exactly when its item has a
      context, and the token is the key minted for the last value the
      element added. */
  lemma ContextAttribute(props: seq<Prop>, tag: Value, mode: string, issued: nat)
    ensures var b := CreateElement(props, tag, mode, issued);
      b.result.Normal? ==>
        GetAttribute(b.result.value[0].attributes, AttributeName)
        == if Find(props, "context").Some? then Some(Token(issued + |b.added|)) else None
  {
    if ContentOf(props, mode, issued).result.Normal? {
      FinishedContextAttribute(props, tag, mode, issued);
    } else {
      CreateElementThrows(props, tag, mode, issued);
    }
  }

  lemma FinishedContextAttribute(props: seq<Prop>, tag: Value, mode: string, issued: nat)
    requires ContentOf(props, mode, issued).result.Normal?
    ensures var b := CreateElement(props, tag, mode, issued);
      b.result.Normal? ==>
        GetAttribute(b.result.value[0].attributes, AttributeName)
        == if Find(props, "context").Some? then Some(Token(issued + |b.added|)) else None
  {
    var inner := ContentOf(props, mode, issued);
    var key := Token(issued + |inner.added| + 1);
    var e := ElementOf(props, tag, mode, key, TextOf(props) + inner.result.value);
    CreateElementFinish(props, tag, mode, issued);
    if e.Normal? {
      ElementContext(props, tag, mode, key, TextOf(props) + inner.result.value);
      var b := Build(Normal([e.value]), inner.added + ContextOf(props));
      assert CreateElement(props, tag, mode, issued) == b;
      assert b.result.value[0] == e.value;
      if Find(props, "context").Some? {
        assert |b.added| == |inner.added| + 1;
      }
    }
  }

  /** After the conversion, the record holds a new element's context under
      the token the element carries. */
  lemma ContextRegistered(props: seq<Prop>, tag: Value, mode: string, h: seq<Value>)
    ensures var b := CreateElement(props, tag, mode, |h|);
      b.result.Normal? && Find(props, "context").Some? ==>
        && GetAttribute(b.result.value[0].attributes, AttributeName) == Some(Token(|h| + |b.added|))
        && Lookup(Entries(h + b.added), Token(|h| + |b.added|)) == Find(props, "context").value
  {
    var b := CreateElement(props, tag, mode, |h|);
    ContextAttribute(props, tag, mode, |h|);
    ContextAddedLast(props, tag, mode, |h|);
    if b.result.Normal? && Find(props, "context").Some? {
      LatestEntry(h + b.added);
    }
  }

  // ---------------------------------------------------------------------
  // The conversion as the source performs it

  /** `app.jsonToDom(json)`: the children of the fragment it returns. */
  method JsonToDom(record: Store, json: Value, mode: string) returns (fragment: Completion<seq<Node>>)
    requires record.Valid()
    modifies record
    ensures record.Valid()
    ensures var b := ConvertList(json, mode, |old(record.history)|);
      fragment == b.result && record.history == old(record.history) + b.added
  {
    fragment := Convert(record, json, mode);
  }

  /** `convert(json_list, dom)`. */
  method Convert(record: Store, list: Value, mode: string) returns (dom: Completion<seq<Node>>)
    requires record.Valid()
    modifies record
    ensures record.Valid()
    ensures var b := ConvertList(list, mode, |old(record.history)|);
      dom == b.result && record.history == old(record.history) + b.added
    decreases Size(list), 3
  {
    AppendNothing(record.history);
    if list.Null? || list.Undefined? {
      return TypeError;
    }
    if !list.Arr? {
      return Normal([]);
    }
    var xs := list.items;
    var nodes: seq<Node> := [];
    ghost var issued := |record.history|;
    for i := 0 to |xs|
      invariant record.Valid()
      invariant ConvertItems(xs[..i], mode, issued).result == Normal(nodes)
      invariant record.history == old(record.history) + ConvertItems(xs[..i], mode, issued).added
    {
      ghost var before := ConvertItems(xs[..i], mode, issued);
      ItemSizeBound(xs, i);
      var created := ConvertOne(record, xs[i], mode);
      ConvertItemsSnoc(xs, i, mode, issued);
      ghost var b := ConvertItem(xs[i], mode, issued + |before.added|);
      AppendAssociative(old(record.history), before.added, b.added);
      if created.TypeError? {
        ThrowIsFinal(xs, i + 1, mode, issued);
        return TypeError;
      }
      nodes := nodes + created.value;
    }
    assert xs[..|xs|] == xs;
    dom := Normal(nodes);
  }

  /** `content` is smaller than the item that owns it. */
  lemma ContentSmaller(props: seq<Prop>)
    requires Find(props, "content").Some?
    ensures Size(Find(props, "content").value) < Size(Obj(props))
  {
  }

  /** When the content throws, so does the element, having added what the
      content added. */
  lemma CreateElementThrows(props: seq<Prop>, tag: Value, mode: string, issued: nat)
    requires ContentOf(props, mode, issued).result.TypeError?
    ensures CreateElement(props, tag, mode, issued) == ContentOf(props, mode, issued)
  {
  }

  /** When the content converts, the element is the one `ElementOf` builds
      with the next key, and its context is registered after the content's. */
  lemma CreateElementFinish(props: seq<Prop>, tag: Value, mode: string, issued: nat)
    requires ContentOf(props, mode, issued).result.Normal?
    ensures var inner := ContentOf(props, mode, issued);
      var e := ElementOf(props, tag, mode, Token(issued + |inner.added| + 1), TextOf(props) + inner.result.value);
      CreateElement(props, tag, mode, issued) ==
        Build(if e.Normal? then Normal([e.value]) else TypeError,
              inner.added + if e.Normal? then ContextOf(props) else [])
  {
    var inner := ContentOf(props, mode, issued);
    assert inner.added + [] == inner.added;
  }

  /** One pass of the loop: the item's element, if it has a `tag`. */
  method ConvertOne(record: Store, item: Value, mode: string) returns (created: Completion<seq<Node>>)
    requires record.Valid()
    modifies record
    ensures record.Valid()
    ensures var b := ConvertItem(item, mode, |old(record.history)|);
      created == b.result && record.history == old(record.history) + b.added
    decreases Size(item), 2
  {
    if item.Null? || item.Undefined? {
      // `item.hasOwnProperty('tag')` throws
      return TypeError;
    }
    if item.Obj? && Find(item.props, "tag").Some? {
      ghost var h0 := record.history;
      var n := CreateNode(record, item.props, Find(item.props, "tag").value, mode);
      if ContentOf(item.props, mode, |h0|).result.TypeError? {
        CreateElementThrows(item.props, Find(item.props, "tag").value, mode, |h0|);
      } else {
        CreateElementFinish(item.props, Find(item.props, "tag").value, mode, |h0|);
      }
      if n.TypeError? {
        return TypeError;
      }
      return Normal([n.value]);
    }
    AppendNothing(record.history);
    created := Normal([]);
  }

  /** The body of the loop for an item that has a `tag`: the children, then
      the attributes, class and context of the element `ElementOf` builds
      with the next key. */
  method CreateNode(record: Store, props: seq<Prop>, tag: Value, mode: string) returns (node: Completion<Node>)
    requires record.Valid()
    modifies record
    ensures record.Valid()
    ensures var inner := ContentOf(props, mode, |old(record.history)|);
      && (inner.result.TypeError? ==> node.TypeError? && record.history == old(record.history) + inner.added)
      && (inner.result.Normal? ==>
            && node == ElementOf(props, tag, mode, Token(|old(record.history)| + |inner.added| + 1),
                                 TextOf(props) + inner.result.value)
            && record.history == old(record.history) + (inner.added + if node.Normal? then ContextOf(props) else []))
    decreases Size(Obj(props)), 1
  {
    ghost var h0 := record.history;
    ghost var inner := ContentOf(props, mode, |h0|);
    var children := AppendChildren(record, props, mode);
    if children.TypeError? {
      return TypeError;
    }
    node := FinishNode(record, props, tag, mode, children.value);
    ghost var own := if node.Normal? then ContextOf(props) else [];
    AppendAssociative(h0, inner.added, own);
  }

  /** The text child, then the converted content, appended to a new element. */
  method AppendChildren(record: Store, props: seq<Prop>, mode: string) returns (children: Completion<seq<Node>>)
    requires record.Valid()
    modifies record
    ensures record.Valid()
    ensures var inner := ContentOf(props, mode, |old(record.history)|);
      && record.history == old(record.history) + inner.added
      && (children.TypeError? <==> inner.result.TypeError?)
      && (children.Normal? ==> children.value == TextOf(props) + inner.result.value)
    decreases Size(Obj(props)), 0
  {
    var nodes: seq<Node> := [];
    var str := Find(props, "string");
    if str.Some? {
      nodes := nodes + [Text(ToJsString(str.value))];
    }
    var content := Find(props, "content");
    if content.Some? {
      ContentSmaller(props);
      var converted := Convert(record, content.value, mode);
      if converted.TypeError? {
        return TypeError;
      }
      nodes := nodes + converted.value;
    } else {
      AppendNothing(record.history);
    }
    children := Normal(nodes);
  }

  /** The rest of the loop body, once the children are in place: the image
      attributes, then the class and the context key. */
  method FinishNode(record: Store, props: seq<Prop>, tag: Value, mode: string, children: seq<Node>)
    returns (node: Completion<Node>)
    requires record.Valid()
    modifies record
    ensures record.Valid()
    ensures node == ElementOf(props, tag, mode, Token(|old(record.history)| + 1), children)
    ensures record.history == old(record.history) + if node.Normal? then ContextOf(props) else []
  {
    var attributes := CopyImageAttributes(props, tag);
    var context := Find(props, "context");
    if context.None? {
      return Normal(Element(ToJsString(tag), attributes, "", children));
    }
    var className := ApplyStyle(context.value, mode);
    if className.TypeError? {
      return TypeError;
    }
    var key := record.Add(context.value);
    attributes := SetAttribute(attributes, AttributeName, key);
    node := Normal(Element(ToJsString(tag), attributes, className.value, children));
  }

  /** `n.setAttribute('src', item.src)` and the loop over `ImageAttributes`. */
  method CopyImageAttributes(props: seq<Prop>, tag: Value) returns (attributes: seq<Attr>)
    ensures attributes == ImageAttributesOf(props, tag)
  {
    attributes := [];
    var src := Find(props, "src");
    if tag == Str("img") && src.Some? {
      attributes := SetAttribute(attributes, "src", ToJsString(src.value));
      var j := |ImageAttributes| - 1;
      while j >= 0
        invariant -1 <= j < |ImageAttributes|
        invariant ImageLoop(attributes, props, j) == ImageAttributesOf(props, tag)
      {
        var name := ImageAttributes[j];
        var value := Find(props, name);
        if value.Some? {
          attributes := SetAttribute(attributes, name, ToJsString(value.value));
        }
        j := j - 1;
      }
    }
  }

  /** The class the context's style gives for the mode, built on the empty
      class name of a new element; a TypeError when reading the style throws. */
  method ApplyStyle(context: Value, mode: string) returns (className: Completion<string>)
    ensures StyleDirective(context, mode).TypeError? <==> className.TypeError?
    ensures className.Normal? ==> className.value == ClassName(StyleDirective(context, mode).value)
  {
    var c := "";
    var own := OwnProperty(context, mode);
    if own.TypeError? {
      return TypeError;
    }
    if own.value.Some? {
      var styleProp := OwnProperty(own.value.value, "style");
      if styleProp.TypeError? {
        return TypeError;
      }
      if styleProp.value.Some? {
        var style := styleProp.value.value;
        if style.Str? {
          c := c + " " + style.s;
          assert c == Spaced([style.s]);
        } else if style.Null? || style.Undefined? {
          // `context.style.length` throws
          return TypeError;
        } else if style.Arr? {
          ghost var tokens := seq(|style.items|, k requires 0 <= k < |style.items| => ToJsString(style.items[k]));
          for j := 0 to |style.items|
            invariant c == Spaced(tokens[..j])
          {
            c := c + " " + ToJsString(style.items[j]);
            assert tokens[..j + 1][..j] == tokens[..j];
          }
          assert tokens[..|style.items|] == tokens;
        }
        if |c| >= 1 && c[..1] == " " {
          c := c[1..];
        }
      }
    }
    className := Normal(c);
  }
}
