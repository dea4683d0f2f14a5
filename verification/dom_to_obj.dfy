/** `app.domToObj`: builds the descriptor object for the children of an
    element: `{content: [...]}` with one object per element, holding its
    lower-cased tag, the text of a single text child or its converted
    children, and the context the record holds for its token.

    The source writes the text of a single text child under `str`, a key
    jsonToDom never reads, and tests text nodes with `nodeType` 2, which no
    child node has. `AsWritten` follows the source; `Corrected` writes
    `string` and emits text nodes, and is the one the round trip holds for. */
module ObjectWriter {
  import opened Js
  import opened Dom
  import opened ContextRecord
  import JsonWriter
  import Deserializer

  datatype Variant = AsWritten | Corrected

  /** The key of the text of a single text child. */
  function TextKey(v: Variant): string
  {
    if v.AsWritten? then "str" else "string"
  }

  /** `r.content = convert(parent_el.childNodes)`. */
  function DomToObj(records: map<string, Value>, parent: Node, v: Variant): Value
  {
    Obj([Prop("content", Arr(ObjList(records, ChildNodes(parent), v)))])
  }

  /** `convert(node_list)`: the objects built for the nodes, in order. */
  function ObjList(records: map<string, Value>, nodes: seq<Node>, v: Variant): (r: seq<Value>)
    ensures |r| <= |nodes|
    decreases nodes, 0
  {
    if nodes == [] then []
    else ObjList(records, nodes[..|nodes| - 1], v) + ObjItem(records, nodes[|nodes| - 1], v)
  }

  /** The object pushed for one node, if any. */
  function ObjItem(records: map<string, Value>, n: Node, v: Variant): (r: seq<Value>)
    ensures |r| <= 1
    decreases n, 2
  {
    match n
    case Element(tag, attrs, _, children) =>
      [Obj([Prop("tag", Str(LowerAscii(tag)))] + ChildProps(records, children, v) + ContextProps(records, attrs))]
    case Text(s) => if v.Corrected? && s != "" then [Obj([Prop("string", Str(s))])] else []
    case Other => []
  }

  /** `obj.str` for a single non-empty text child, `obj.content` for a
      single element child or two or more children, nothing otherwise. */
  function ChildProps(records: map<string, Value>, children: seq<Node>, v: Variant): (r: seq<Prop>)
    ensures |r| <= 1
    decreases children, 2
  {
    if |children| == 1 then
      match children[0]
      case Text(s) => if s != "" then [Prop(TextKey(v), Str(s))] else []
      case Element(_, _, _, _) => [Prop("content", Arr(ObjList(records, children, v)))]
      case Other => []
    else if |children| > 1 then [Prop("content", Arr(ObjList(records, children, v)))]
    else []
  }

  /** `obj.context = contextRecord.get(context_token)` when the token is set. */
  function ContextProps(records: map<string, Value>, attrs: seq<Attr>): (r: seq<Prop>)
    ensures |r| <= 1
  {
    match JsonWriter.ContextToken(attrs)
    case Some(t) => [Prop("context", Lookup(records, t))]
    case None => []
  }

  /** An element yields one object. Its `tag` is the lower-cased tag name;
      it has the text key exactly when its only child is a non-empty text
      node, `content` exactly when its only child is an element or it has
      two or more children, and `context` exactly when its token attribute
      is a non-empty string, holding what the record has for the token. */
  lemma ElementObject(records: map<string, Value>, tag: string, attrs: seq<Attr>, className: string, children: seq<Node>, v: Variant)
    ensures var r := ObjItem(records, Element(tag, attrs, className, children), v);
      && |r| == 1 && r[0].Obj?
      && Find(r[0].props, "tag") == Some(Str(LowerAscii(tag)))
      && Find(r[0].props, TextKey(v)) ==
           (if |children| == 1 && children[0].Text? && children[0].value != "" then Some(Str(children[0].value)) else None)
      && Find(r[0].props, "content") ==
           (if (|children| == 1 && children[0].Element?) || |children| > 1
            then Some(Arr(ObjList(records, children, v))) else None)
      && Find(r[0].props, "context") ==
           (match GetAttribute(attrs, AttributeName)
            case Some(t) => if t != "" then Some(Lookup(records, t)) else None
            case None => None)
  {
    var head := [Prop("tag", Str(LowerAscii(tag)))];
    var c := ChildProps(records, children, v);
    var x := ContextProps(records, attrs);
    ChildPropsKeys(records, children, v);
    ContextPropsKeys(records, attrs, v);
    forall key | key in {"tag", TextKey(v), "content", "context"}
      ensures Find(head + c + x, key) ==
        if key == "tag" then Some(Str(LowerAscii(tag)))
        else if Find(c, key).Some? then Find(c, key) else Find(x, key)
    {
      FindConcat(head + c, x, key);
      FindConcat(head, c, key);
    }
  }

  lemma ChildPropsKeys(records: map<string, Value>, children: seq<Node>, v: Variant)
    ensures var c := ChildProps(records, children, v);
      && Find(c, TextKey(v)) ==
           (if |children| == 1 && children[0].Text? && children[0].value != "" then Some(Str(children[0].value)) else None)
      && Find(c, "content") ==
           (if (|children| == 1 && children[0].Element?) || |children| > 1
            then Some(Arr(ObjList(records, children, v))) else None)
      && Find(c, "context").None?
  {
  }

  lemma ContextPropsKeys(records: map<string, Value>, attrs: seq<Attr>, v: Variant)
    ensures var x := ContextProps(records, attrs);
      && Find(x, TextKey(v)).None? && Find(x, "content").None?
      && Find(x, "context") ==
           (match GetAttribute(attrs, AttributeName)
            case Some(t) => if t != "" then Some(Lookup(records, t)) else None
            case None => None)
  {
  }

  /** The number of nodes whose block domToJson writes with something in it. */
  function WrittenBlocks(records: map<string, Value>, nodes: seq<Node>): nat
  {
    if nodes == [] then 0
    else WrittenBlocks(records, nodes[..|nodes| - 1])
         + (if JsonWriter.Body(records, nodes[|nodes| - 1]) != "" then 1 else 0)
  }

  /** As written, a text node is never emitted: a list of text nodes gives
      no object at all, though domToJson writes a `string` block for each
      non-empty one. */
  lemma {:induction false} TextNodesDropped(records: map<string, Value>, nodes: seq<Node>)
    requires forall i :: 0 <= i < |nodes| ==> nodes[i].Text?
    ensures ObjList(records, nodes, AsWritten) == []
    ensures (forall i :: 0 <= i < |nodes| ==> nodes[i].value != "") ==> WrittenBlocks(records, nodes) == |nodes|
  {
    if nodes != [] {
      TextNodesDropped(records, nodes[..|nodes| - 1]);
    }
  }

  /** Corrected, each node yields an object exactly when its domToJson
      block is not empty, and a non-empty text node yields `{string: value}`. */
  lemma CorrectedPerNode(records: map<string, Value>, n: Node)
    ensures |ObjItem(records, n, Corrected)| == if JsonWriter.Body(records, n) != "" then 1 else 0
    ensures n.Text? && n.value != "" ==> ObjItem(records, n, Corrected) == [Obj([Prop("string", Str(n.value))])]
  {
  }

  /** Corrected, there is one object for each node whose domToJson block is
      not empty: every element and every non-empty text node. */
  lemma {:induction false} CorrectedMatchesJson(records: map<string, Value>, nodes: seq<Node>)
    ensures |ObjList(records, nodes, Corrected)| == WrittenBlocks(records, nodes)
  {
    if nodes != [] {
      CorrectedMatchesJson(records, nodes[..|nodes| - 1]);
      CorrectedPerNode(records, nodes[|nodes| - 1]);
    }
  }

  /** Trees the two writers carry back through jsonToDom: elements with a
      lower-case tag, no attributes and no class, whose children are a single
      non-empty text node or such elements. Neither writer emits image
      attributes or a class, a context comes back under a newly minted token,
      and a `{string}` object beside elements has no `tag`, so jsonToDom
      builds nothing for it. */
  ghost predicate Plain(n: Node)
    decreases n
  {
    && n.Element? && n.attributes == [] && n.className == "" && LowerAscii(n.tag) == n.tag
    && ((|n.children| == 1 && n.children[0].Text? && n.children[0].value != "")
        || forall i :: 0 <= i < |n.children| ==> Plain(n.children[i]))
  }

  /** As written, the text of a single text child does not survive a round
      trip: the object holds it under `str`, and jsonToDom builds the
      paragraph without it. */
  lemma TextChildLost(records: map<string, Value>, mode: string, issued: nat)
    ensures var nodes := [Element("p", [], "", [Text("hi")])];
      && Plain(nodes[0])
      && ObjList(records, nodes, AsWritten) == [Obj([Prop("tag", Str("p")), Prop("str", Str("hi"))])]
      && Deserializer.ConvertItems(ObjList(records, nodes, AsWritten), mode, issued)
         == Deserializer.Build(Normal([Element("p", [], "", [])]), [])
  {
    var nodes := [Element("p", [], "", [Text("hi")])];
    ParagraphWritten(records);
    var props := [Prop("tag", Str("p")), Prop("str", Str("hi"))];
    var tagOnly := [Prop("tag", Str("p"))];
    assert tagOnly + [Prop("str", Str("hi"))] == props;
    StrIgnored(tagOnly, "str", Str("hi"), mode, issued);
    EmptyParagraph(mode, issued);
    OneItem(Obj(props), mode, issued);
  }

  /** A list of one item converts as that item. */
  lemma OneItem(x: Value, mode: string, issued: nat)
    ensures Deserializer.ConvertItems([x], mode, issued) == Deserializer.ConvertItem(x, mode, issued)
  {
    assert [x][..0] == [];
    var b := Deserializer.ConvertItem(x, mode, issued);
    assert [] + b.added == b.added;
    if b.result.Normal? {
      assert [] + b.result.value == b.result.value;
    }
  }

  /** `<p>hi</p>` is plain and is written as `{tag: "p", str: "hi"}`. */
  lemma ParagraphWritten(records: map<string, Value>)
    ensures var nodes := [Element("p", [], "", [Text("hi")])];
      && Plain(nodes[0])
      && ObjList(records, nodes, AsWritten) == [Obj([Prop("tag", Str("p")), Prop("str", Str("hi"))])]
  {
    var nodes := [Element("p", [], "", [Text("hi")])];
    assert LowerAscii("p") == "p" by {
      assert LowerAscii("p")[0] == 'p';
    }
    var c := [Text("hi")];
    assert |c| == 1 && c[0] == Text("hi");
    assert ChildProps(records, c, AsWritten) == [Prop("str", Str("hi"))];
    assert ContextProps(records, []) == [];
    var props := [Prop("tag", Str("p")), Prop("str", Str("hi"))];
    assert [Prop("tag", Str("p"))] + [Prop("str", Str("hi"))] + [] == props;
    assert ObjItem(records, nodes[0], AsWritten) == [Obj(props)];
    assert nodes[..0] == [];
  }

  /** `{tag: "p"}` becomes an empty paragraph and adds no context. */
  lemma EmptyParagraph(mode: string, issued: nat)
    ensures Deserializer.ConvertItem(Obj([Prop("tag", Str("p"))]), mode, issued)
            == Deserializer.Build(Normal([Element("p", [], "", [])]), [])
  {
    var tagOnly := [Prop("tag", Str("p"))];
    var e := Element("p", [], "", []);
    Deserializer.CreateElementFinish(tagOnly, Str("p"), mode, issued);
    assert Deserializer.ContentOf(tagOnly, mode, issued) == Deserializer.Nothing;
    assert Deserializer.TextOf(tagOnly) == [];
    assert Deserializer.ContextOf(tagOnly) == [];
    assert Deserializer.ElementOf(tagOnly, Str("p"), mode, Token(issued + 1), []) == Normal(e);
  }

  /** jsonToDom reads only `tag`, `string`, `content`, `src`, `alt`,
      `width`, `height` and `context`: a property under any other key, such
      as `str`, changes nothing in what an item converts to. */
  lemma StrIgnored(props: seq<Prop>, key: string, x: Value, mode: string, issued: nat)
    requires key !in ["tag", "string", "content", "src", "alt", "width", "height", "context"]
    ensures Deserializer.ConvertItem(Obj(props + [Prop(key, x)]), mode, issued)
            == Deserializer.ConvertItem(Obj(props), mode, issued)
  {
    var extra := [Prop(key, x)];
    FindConcat(props, extra, "tag");
    FindConcat(props, extra, "string");
    FindConcat(props, extra, "content");
    FindConcat(props, extra, "src");
    FindConcat(props, extra, "alt");
    FindConcat(props, extra, "width");
    FindConcat(props, extra, "height");
    FindConcat(props, extra, "context");
    SameItem(props + extra, props, mode, issued);
  }

  /** Two property lists that agree on every key jsonToDom reads. */
  ghost predicate SameReads(p1: seq<Prop>, p2: seq<Prop>)
  {
    && Find(p1, "tag") == Find(p2, "tag")
    && Find(p1, "string") == Find(p2, "string")
    && Find(p1, "content") == Find(p2, "content")
    && Find(p1, "src") == Find(p2, "src")
    && Find(p1, "alt") == Find(p2, "alt")
    && Find(p1, "width") == Find(p2, "width")
    && Find(p1, "height") == Find(p2, "height")
    && Find(p1, "context") == Find(p2, "context")
  }

  lemma SameItem(p1: seq<Prop>, p2: seq<Prop>, mode: string, issued: nat)
    requires SameReads(p1, p2)
    ensures Deserializer.ConvertItem(Obj(p1), mode, issued) == Deserializer.ConvertItem(Obj(p2), mode, issued)
  {
    if Find(p2, "tag").Some? {
      SameElement(p1, p2, Find(p2, "tag").value, mode, issued);
    }
  }

  lemma SameElement(p1: seq<Prop>, p2: seq<Prop>, tag: Value, mode: string, issued: nat)
    requires SameReads(p1, p2)
    ensures Deserializer.CreateElement(p1, tag, mode, issued) == Deserializer.CreateElement(p2, tag, mode, issued)
  {
    forall key: string, children: seq<Node>
      ensures Deserializer.ElementOf(p1, tag, mode, key, children) == Deserializer.ElementOf(p2, tag, mode, key, children)
    {
      SameElementOf(p1, p2, tag, mode, key, children);
    }
    SameParts(p1, p2, tag, mode, issued);
  }

  /** `CreateElement` reads the item only through its parts. */
  lemma SameParts(p1: seq<Prop>, p2: seq<Prop>, tag: Value, mode: string, issued: nat)
    requires Deserializer.ContentOf(p1, mode, issued) == Deserializer.ContentOf(p2, mode, issued)
    requires Deserializer.TextOf(p1) == Deserializer.TextOf(p2)
    requires Deserializer.ContextOf(p1) == Deserializer.ContextOf(p2)
    requires forall key: string, children: seq<Node> ::
      Deserializer.ElementOf(p1, tag, mode, key, children) == Deserializer.ElementOf(p2, tag, mode, key, children)
    ensures Deserializer.CreateElement(p1, tag, mode, issued) == Deserializer.CreateElement(p2, tag, mode, issued)
  {
  }

  lemma SameElementOf(p1: seq<Prop>, p2: seq<Prop>, tag: Value, mode: string, key: string, children: seq<Node>)
    requires SameReads(p1, p2)
    ensures Deserializer.ElementOf(p1, tag, mode, key, children) == Deserializer.ElementOf(p2, tag, mode, key, children)
  {
    SameImageAttributes(p1, p2, tag);
  }

  lemma SameImageAttributes(p1: seq<Prop>, p2: seq<Prop>, tag: Value)
    requires SameReads(p1, p2)
    ensures Deserializer.ImageAttributesOf(p1, tag) == Deserializer.ImageAttributesOf(p2, tag)
  {
    if Find(p2, "src").Some? {
      SameImageLoop(SetAttribute([], "src", ToJsString(Find(p2, "src").value)), p1, p2, 3);
    }
  }

  /** The image loop reads only the four image attributes of the item. */
  lemma {:induction false} SameImageLoop(attrs: seq<Attr>, p1: seq<Prop>, p2: seq<Prop>, j: int)
    requires j < |Deserializer.ImageAttributes|
    requires SameReads(p1, p2)
    ensures Deserializer.ImageLoop(attrs, p1, j) == Deserializer.ImageLoop(attrs, p2, j)
    decreases j + 1
  {
    if j >= 0 {
      var name := Deserializer.ImageAttributes[j];
      assert Deserializer.CopyAttribute(attrs, p1, name) == Deserializer.CopyAttribute(attrs, p2, name);
      SameImageLoop(Deserializer.CopyAttribute(attrs, p1, name), p1, p2, j - 1);
    }
  }

  /** Corrected, converting the objects back with jsonToDom rebuilds a list
      of plain trees exactly, and registers no context. */
  lemma {:induction false} RoundTrip(records: map<string, Value>, nodes: seq<Node>, mode: string, issued: nat)
    requires forall i :: 0 <= i < |nodes| ==> Plain(nodes[i])
    ensures Deserializer.ConvertItems(ObjList(records, nodes, Corrected), mode, issued)
            == Deserializer.Build(Normal(nodes), [])
    decreases nodes, 1
  {
    if nodes != [] {
      var init, last := nodes[..|nodes| - 1], nodes[|nodes| - 1];
      assert init + [last] == nodes;
      var ys := ObjList(records, init, Corrected);
      RoundTripElement(records, last, mode, issued);
      var o := ObjItem(records, last, Corrected)[0];
      assert ObjList(records, nodes, Corrected) == ys + [o];
      RoundTrip(records, init, mode, issued);
      AppendConverted(ys, o, init, last, mode, issued);
    }
  }

  /** One more item that converts, adding nothing, appends its node. */
  lemma AppendConverted(ys: seq<Value>, o: Value, init: seq<Node>, n: Node, mode: string, issued: nat)
    requires Deserializer.ConvertItems(ys, mode, issued) == Deserializer.Build(Normal(init), [])
    requires Deserializer.ConvertItem(o, mode, issued) == Deserializer.Build(Normal([n]), [])
    ensures Deserializer.ConvertItems(ys + [o], mode, issued) == Deserializer.Build(Normal(init + [n]), [])
  {
    assert (ys + [o])[..|ys|] == ys;
  }

  lemma {:induction false} RoundTripElement(records: map<string, Value>, n: Node, mode: string, issued: nat)
    requires Plain(n)
    ensures |ObjItem(records, n, Corrected)| == 1
    ensures Deserializer.ConvertItem(ObjItem(records, n, Corrected)[0], mode, issued)
            == Deserializer.Build(Normal([n]), [])
    decreases n, 2
  {
    var textChild := |n.children| == 1 && n.children[0].Text? && n.children[0].value != "";
    assert !textChild ==> forall i :: 0 <= i < |n.children| ==> Plain(n.children[i]);
    var c := ChildProps(records, n.children, Corrected);
    var props := [Prop("tag", Str(n.tag))] + c;
    assert n == Element(n.tag, [], "", n.children);
    assert ContextProps(records, n.attributes) == [];
    assert [Prop("tag", Str(n.tag))] + c + [] == props;
    assert ObjItem(records, n, Corrected) == [Obj(props)];
    FindAfterTag(n.tag, c, "src");
    FindAfterTag(n.tag, c, "context");
    FindAfterTag(n.tag, c, "content");
    FindAfterTag(n.tag, c, "string");
    if textChild {
      assert c == [Prop("string", Str(n.children[0].value))];
      RebuildElement(props, n.tag, mode, issued);
      assert Deserializer.TextOf(props) == n.children;
    } else if n.children == [] {
      assert c == [];
      RebuildElement(props, n.tag, mode, issued);
    } else {
      var xs := ObjList(records, n.children, Corrected);
      assert c == [Prop("content", Arr(xs))];
      RoundTrip(records, n.children, mode, issued);
      RebuildWithContent(props, n.tag, xs, n.children, mode, issued);
    }
  }

  /** Behind the `tag` property, a lookup of any other key reads the rest. */
  lemma FindAfterTag(tag: string, c: seq<Prop>, key: string)
    requires key != "tag"
    ensures Find([Prop("tag", Str(tag))] + c, key) == Find(c, key)
  {
    assert ([Prop("tag", Str(tag))] + c)[1..] == c;
  }

  /** jsonToDom on a descriptor with a string tag and neither `src`,
      `context` nor `content`: an element with no attributes and no class,
      whose only child is the text of `string`, if any. */
  lemma RebuildElement(props: seq<Prop>, tag: string, mode: string, issued: nat)
    requires Find(props, "tag") == Some(Str(tag))
    requires Find(props, "src").None? && Find(props, "context").None? && Find(props, "content").None?
    ensures Deserializer.ConvertItem(Obj(props), mode, issued)
            == Deserializer.Build(Normal([Element(tag, [], "", Deserializer.TextOf(props))]), [])
  {
    Deserializer.CreateElementFinish(props, Str(tag), mode, issued);
    assert Deserializer.TextOf(props) + [] == Deserializer.TextOf(props);
  }

  /** The same with `content` and no `string`: the children are the
      converted content. */
  lemma RebuildWithContent(props: seq<Prop>, tag: string, xs: seq<Value>, children: seq<Node>, mode: string, issued: nat)
    requires Find(props, "tag") == Some(Str(tag))
    requires Find(props, "src").None? && Find(props, "context").None? && Find(props, "string").None?
    requires Find(props, "content") == Some(Arr(xs))
    requires Deserializer.ConvertItems(xs, mode, issued) == Deserializer.Build(Normal(children), [])
    ensures Deserializer.ConvertItem(Obj(props), mode, issued)
            == Deserializer.Build(Normal([Element(tag, [], "", children)]), [])
  {
    Deserializer.ConvertArray(xs, mode, issued);
    Deserializer.CreateElementFinish(props, Str(tag), mode, issued);
    assert [] + children == children;
  }

  /** `convert(node_list)` as the source writes it: `obj` starts as null,
      the switch fills it in for an element, and a non-null `obj` is
      pushed. */
  method WriteObjList(record: Store, nodes: seq<Node>) returns (items: seq<Value>)
    requires record.Valid()
    ensures items == ObjList(record.store, nodes, AsWritten)
    decreases nodes, 1
  {
    items := [];
    for i := 0 to |nodes|
      invariant items == ObjList(record.store, nodes[..i], AsWritten)
    {
      assert nodes[..i + 1][..i] == nodes[..i];
      var obj: Option<Value> := None;
      match nodes[i] {
        case Element(tag, attrs, _, children) =>
          var props := [Prop("tag", Str(LowerAscii(tag)))];
          var childProps := WriteChildProps(record, children);
          var contextProps := WriteContextProps(record, attrs);
          obj := Some(Obj(props + childProps + contextProps));
        case _ =>
          // `case 2` matches no text node, so `obj` stays null
      }
      if obj.Some? {
        items := items + [obj.value];
      }
    }
    assert nodes[..|nodes|] == nodes;
  }

  /** `obj.str` or `obj.content`, by the number and kind of the children. */
  method WriteChildProps(record: Store, children: seq<Node>) returns (props: seq<Prop>)
    requires record.Valid()
    ensures props == ChildProps(record.store, children, AsWritten)
    decreases children, 2
  {
    props := [];
    if |children| == 1 {
      match children[0] {
        case Text(s) =>
          if s != "" {
            props := [Prop("str", Str(s))];
          }
        case Element(_, _, _, _) =>
          var content := WriteObjList(record, children);
          props := [Prop("content", Arr(content))];
        case Other =>
      }
    } else if |children| > 1 {
      var content := WriteObjList(record, children);
      props := [Prop("content", Arr(content))];
    }
  }

  /** `obj.context = contextRecord.get(context_token)` when the token is set. */
  method WriteContextProps(record: Store, attrs: seq<Attr>) returns (props: seq<Prop>)
    requires record.Valid()
    ensures props == ContextProps(record.store, attrs)
  {
    props := [];
    var token := GetAttribute(attrs, AttributeName);
    if token.Some? && token.value != "" {
      var context := record.Get(token.value);
      props := [Prop("context", context)];
    }
  }
}
