/** `app.domToJson`: writes the children of an element as JSON-like text.
    Every node of a list becomes one `{…}` block; an element's block holds
    its lower-cased tag, then either the text of a single text child (under
    `str`) or its converted children (under `content`), then the context the
    record holds for its token. */
module JsonWriter {
  import opened Js
  import opened Dom
  import opened ContextRecord
  import opened Formatter

  /** `'{"content":' + convert(parent_el.childNodes) + '}'`. The record's
      table is passed in, as the source injects `app.contextRecord`. */
  function DomToJson(records: map<string, Value>, parent: Node): string
  {
    "{\"content\":" + JsonList(records, ChildNodes(parent)) + "}"
  }

  /** `convert(node_list)`: the blocks between `[` and a closing `\n]`. */
  function JsonList(records: map<string, Value>, nodes: seq<Node>): string
    decreases nodes, 1
  {
    "[" + JsonBlocks(records, nodes) + "\n]"
  }

  /** The loop: `\n{` before the first block, `,\n{` before every other,
      and `\n}` after each, whatever kind of node it is. */
  function JsonBlocks(records: map<string, Value>, nodes: seq<Node>): string
    decreases nodes, 0
  {
    if nodes == [] then ""
    else
      var init := nodes[..|nodes| - 1];
      JsonBlocks(records, init) + (if init == [] then "\n{" else ",\n{")
        + Body(records, nodes[|nodes| - 1]) + "\n}"
  }

  /** What is written between the braces: an element's fields, a non-empty
      text node's `string`, and nothing for an empty text node or any other
      kind of node. */
  function Body(records: map<string, Value>, n: Node): string
    decreases n, 2
  {
    match n
    case Element(tag, attrs, _, children) =>
      "\n\"tag\": \"" + LowerAscii(tag) + "\"" + ChildPart(records, children) + ContextPart(records, attrs)
    case Text(v) => if v != "" then "\"string\": \"" + v + "\"" else ""
    case Other => ""
  }

  /** The children: nothing for none, `str` for a single non-empty text
      child, `content` for a single element child or two or more children.
      A single child of any other kind writes nothing. */
  function ChildPart(records: map<string, Value>, children: seq<Node>): string
    decreases children, 2
  {
    if |children| == 1 then
      match children[0]
      case Text(v) => if v != "" then ",\n\"str\": \"" + v + "\"" else ""
      case Element(_, _, _, _) => ",\"content\":" + JsonList(records, children)
      case Other => ""
    else if |children| > 1 then ",\"content\":" + JsonList(records, children)
    else ""
  }

  /** The token attribute, when set to a non-empty string. */
  function ContextToken(attrs: seq<Attr>): Option<string>
  {
    match GetAttribute(attrs, AttributeName)
    case Some(t) => if t != "" then Some(t) else None
    case None => None
  }

  /** `',"context":' + app.toString(contextRecord.get(token))`, written only
      when the token is truthy. */
  function ContextPart(records: map<string, Value>, attrs: seq<Attr>): string
  {
    match ContextToken(attrs)
    case Some(t) => ",\"context\":" + Render(Lookup(records, t))
    case None => ""
  }

  /** The block written for one node. */
  function Block(records: map<string, Value>, n: Node): string
  {
    "\n{" + Body(records, n) + "\n}"
  }

  /** A list is written as `[`, the blocks of its nodes joined by commas, and
      `\n]`: exactly one block per node, in order, including the empty block
      of an empty text node or a node that is neither element nor text. */
  lemma {:induction false} JsonListBlocks(records: map<string, Value>, nodes: seq<Node>)
    ensures JsonList(records, nodes) ==
      "[" + Join(",", seq(|nodes|, i requires 0 <= i < |nodes| => Block(records, nodes[i]))) + "\n]"
  {
    JsonBlocksJoin(records, nodes);
  }

  lemma {:induction false} JsonBlocksJoin(records: map<string, Value>, nodes: seq<Node>)
    ensures JsonBlocks(records, nodes) ==
      Join(",", seq(|nodes|, i requires 0 <= i < |nodes| => Block(records, nodes[i])))
  {
    if nodes != [] {
      var init := nodes[..|nodes| - 1];
      var last := nodes[|nodes| - 1];
      JsonBlocksJoin(records, init);
      var blocks := seq(|init|, i requires 0 <= i < |init| => Block(records, init[i]));
      BlocksSnoc(records, nodes);
      JoinSnoc(",", blocks, Block(records, last));
      BlockRegroup(JsonBlocks(records, init), Body(records, last));
    }
  }

  lemma BlocksSnoc(records: map<string, Value>, nodes: seq<Node>)
    requires nodes != []
    ensures var init := nodes[..|nodes| - 1];
      seq(|nodes|, i requires 0 <= i < |nodes| => Block(records, nodes[i]))
      == seq(|init|, i requires 0 <= i < |init| => Block(records, init[i])) + [Block(records, nodes[|nodes| - 1])]
  {
  }

  /** The loop's step: one more node appends its block. */
  lemma BlocksStep(records: map<string, Value>, nodes: seq<Node>, i: nat)
    requires i < |nodes|
    ensures JsonBlocks(records, nodes[..i + 1])
            == JsonBlocks(records, nodes[..i]) + (if i > 0 then ",\n{" else "\n{") + Body(records, nodes[i]) + "\n}"
  {
    assert nodes[..i + 1][..i] == nodes[..i];
  }

  lemma BlockRegroup(blocks: string, body: string)
    ensures blocks + ",\n{" + body + "\n}" == blocks + "," + ("\n{" + body + "\n}")
  {
  }

  /** The output is always `{"content":[`, the blocks, and `\n]}`. */
  lemma DomToJsonWrapper(records: map<string, Value>, parent: Node)
    ensures var json := DomToJson(records, parent);
      var prefix := "{\"content\":[";
      && |json| >= |prefix| + 3
      && json[..|prefix|] == prefix
      && json[|json| - 3..] == "\n]}"
  {
  }

  /** An empty text node and a node of any other kind still get a block,
      an empty one. */
  lemma EmptyNodesStillWriteBlocks(records: map<string, Value>)
    ensures JsonList(records, [Text(""), Other]) == "[\n{\n},\n{\n}\n]"
  {
    assert [Text(""), Other][..1] == [Text("")];
  }

  /** An element's block starts with its lower-cased tag, and ends with
      its context exactly when the token attribute is a non-empty string. */
  lemma ElementBlock(records: map<string, Value>, tag: string, attrs: seq<Attr>, className: string, children: seq<Node>)
    ensures var body := Body(records, Element(tag, attrs, className, children));
      var head := "\n\"tag\": \"" + LowerAscii(tag) + "\"";
      && |body| >= |head| && body[..|head|] == head
      && match GetAttribute(attrs, AttributeName)
         case Some(t) =>
           if t != "" then
             var tail := ",\"context\":" + Render(Lookup(records, t));
             |body| >= |head| + |tail| && body[|body| - |tail|..] == tail
           else body == head + ChildPart(records, children)
         case None => body == head + ChildPart(records, children)
  {
  }

  /** `convert(node_list)` as the source writes it: one loop over the list,
      calling itself on the children of an element. */
  method WriteList(record: Store, nodes: seq<Node>) returns (str: string)
    requires record.Valid()
    ensures str == JsonList(record.store, nodes)
    decreases nodes, 1
  {
    str := "[";
    for i := 0 to |nodes|
      invariant str == "[" + JsonBlocks(record.store, nodes[..i])
    {
      BlocksStep(record.store, nodes, i);
      str := str + (if i > 0 then ",\n{" else "\n{");
      var body := WriteBody(record, nodes[i]);
      str := str + body + "\n}";
    }
    assert nodes[..|nodes|] == nodes;
    str := str + "\n]";
  }

  /** The body of one block: the tag, the children, the context. */
  method WriteBody(record: Store, n: Node) returns (str: string)
    requires record.Valid()
    ensures str == Body(record.store, n)
    decreases n, 2
  {
    str := "";
    match n {
      case Element(tag, attrs, _, children) =>
        var tagName := LowerAscii(tag);
        var childPart := WriteChildren(record, children);
        var contextPart := WriteContext(record, attrs);
        str := "\n\"tag\": \"" + tagName + "\"" + childPart + contextPart;
      case Text(v) =>
        if v != "" {
          str := "\"string\": \"" + v + "\"";
        }
      case Other =>
    }
  }

  /** The branches on the number and kind of an element's children. */
  method WriteChildren(record: Store, children: seq<Node>) returns (str: string)
    requires record.Valid()
    ensures str == ChildPart(record.store, children)
    decreases children, 2
  {
    str := "";
    if |children| == 1 {
      match children[0] {
        case Text(v) =>
          if v != "" {
            str := ",\n\"str\": \"" + v + "\"";
          }
        case Element(_, _, _, _) =>
          var content := WriteList(record, children);
          str := ",\"content\":" + content;
        case Other =>
      }
    } else if |children| > 1 {
      var content := WriteList(record, children);
      str := ",\"content\":" + content;
    }
  }

  /** `contextRecord.get(context_token)`, rendered, when the token is set. */
  method WriteContext(record: Store, attrs: seq<Attr>) returns (str: string)
    requires record.Valid()
    ensures str == ContextPart(record.store, attrs)
  {
    str := "";
    var token := GetAttribute(attrs, AttributeName);
    if token.Some? && token.value != "" {
      var context := record.Get(token.value);
      str := ToJsonText(context);
      str := ",\"context\":" + str;
    }
  }
}
