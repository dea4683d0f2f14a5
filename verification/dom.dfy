/** The document tree as the converter sees it: element nodes with a tag
    name, attributes in the order they were first set, a class name and
    ordered children; text nodes; and any other kind of node (a comment, for
    one), which both serialisers treat as neither element nor text. */
module Dom {
  import opened Js

  datatype Node =
    | Element(tag: string, attributes: seq<Attr>, className: string, children: seq<Node>)
    | Text(value: string)
    | Other

  datatype Attr = Attr(name: string, value: string)

  /** `node.childNodes`: only elements have children here. */
  function ChildNodes(n: Node): seq<Node>
  {
    if n.Element? then n.children else []
  }

  /** `getAttribute(name)`: `null` (None) when the attribute is not set. */
  function GetAttribute(attrs: seq<Attr>, name: string): Option<string>
  {
    if attrs == [] then None
    else if attrs[0].name == name then Some(attrs[0].value)
    else GetAttribute(attrs[1..], name)
  }

  /** `getAttribute` reports a value exactly when an attribute of that name is
      listed, and then the value listed. */
  lemma {:induction false} GetAttributeSpec(attrs: seq<Attr>, name: string)
    ensures GetAttribute(attrs, name).None? <==> forall i :: 0 <= i < |attrs| ==> attrs[i].name != name
    ensures GetAttribute(attrs, name).Some? ==>
      exists i :: 0 <= i < |attrs| && attrs[i] == Attr(name, GetAttribute(attrs, name).value)
  {
    if attrs != [] && attrs[0].name != name {
      GetAttributeSpec(attrs[1..], name);
      if GetAttribute(attrs, name).Some? {
        var i :| 0 <= i < |attrs| - 1 && attrs[1..][i] == Attr(name, GetAttribute(attrs, name).value);
        assert attrs[i + 1] == attrs[1..][i];
      } else {
        forall i | 0 <= i < |attrs| ensures attrs[i].name != name {
          if i > 0 { assert attrs[i] == attrs[1..][i - 1]; }
        }
      }
    }
  }

  /** `setAttribute(name, value)`: an attribute already set keeps its place
      and takes the new value; a new one goes last. */
  function SetAttribute(attrs: seq<Attr>, name: string, value: string): seq<Attr>
  {
    if attrs == [] then [Attr(name, value)]
    else if attrs[0].name == name then [Attr(name, value)] + attrs[1..]
    else [attrs[0]] + SetAttribute(attrs[1..], name, value)
  }

  /** After `setAttribute(name, value)` the attribute reads back as `value`
      and every other attribute reads as before; a new name is appended, and
      setting an existing name leaves the names and their order unchanged. */
  lemma {:induction false} SetAttributeSpec(attrs: seq<Attr>, name: string, value: string)
    ensures GetAttribute(SetAttribute(attrs, name, value), name) == Some(value)
    ensures forall other :: other != name ==>
      GetAttribute(SetAttribute(attrs, name, value), other) == GetAttribute(attrs, other)
    ensures GetAttribute(attrs, name).None? ==> SetAttribute(attrs, name, value) == attrs + [Attr(name, value)]
    ensures GetAttribute(attrs, name).Some? ==> Names(SetAttribute(attrs, name, value)) == Names(attrs)
  {
    var r := SetAttribute(attrs, name, value);
    if attrs == [] {
    } else if attrs[0].name == name {
      assert r[1..] == attrs[1..];
    } else {
      SetAttributeSpec(attrs[1..], name, value);
      assert r[1..] == SetAttribute(attrs[1..], name, value);
      forall other | other != name
        ensures GetAttribute(r, other) == GetAttribute(attrs, other)
      {
      }
    }
  }

  /** The attribute names, in order. */
  function Names(attrs: seq<Attr>): (r: seq<string>)
    ensures |r| == |attrs|
  {
    if attrs == [] then [] else [attrs[0].name] + Names(attrs[1..])
  }
}
