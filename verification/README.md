# tagline: descriptors, document trees and the context record

tagline edits rich text held as a list of JSON-like *descriptors*
(`{tag, string, content, src, alt, width, height, context}`) and shows it as
DOM nodes. `src/js/app.js` converts in both directions and keeps a side
table of *context* objects:

- `app.contextRecord` is an append-only table. `add` mints the key
  `'tg' + n` from a pre-incremented counter and stores the value under it.
  `get` looks a key up.
- `app.toString` renders a value as JSON-like text. Strings are quoted
  without escaping, arrays and objects are rendered element by element, and
  every other type renders as the empty string.
- `app.jsonToDom` builds one element per descriptor that owns a `tag`. The
  element gets the text of `string`, then the converted `content`. An `img`
  with a `src` gets its image attributes. When the descriptor has a
  `context`, the element gets the classes that context gives for the
  display mode, and the context is added to the table under a token that the
  element carries in `data-tg-context`.
- `app.domToJson` and `app.domToObj` walk a node list the other way. Each
  element yields its lower-cased tag, then either the text of a single text
  child (`str`) or its converted children (`content`), then the context the
  table holds for its token.

The Dafny modules follow those parts:

- `Js` (js_value.dfy): the JavaScript values the code touches, own-property
  lookup, `String()` and `join`.
- `ContextRecord` (context_record.dfy): the table, as a class with a counter,
  a map and a ghost history of added values.
- `Formatter` (to_string.dfy): `app.toString`, as a function and as the
  looping method it specifies.
- `Dom` (dom.dfy): nodes, `getAttribute` and `setAttribute`.
- `Style` (style.dfy): the class a context's style gives.
- `Deserializer` (json_to_dom.dfy): `app.jsonToDom`. The functions say what
  a conversion produces and which contexts it adds. The methods perform it
  on a `ContextRecord.Store` and are proved to agree with the functions.
- `JsonWriter` (dom_to_json.dfy) and `ObjectWriter` (dom_to_obj.dfy):
  `app.domToJson` and `app.domToObj`, as functions and as looping methods.

A JavaScript throw is a `TypeError` result. The display mode (`app.context`,
always `'page'` in the source) is a parameter. So is the table the two
writers read.

## Model

| member | source | states |
|---|---|---|
| Js.OwnProperty | src/js/app.js:177-179 | `hasOwnProperty` then a read: throws on null and undefined and on nothing else, reads an object's own property, and finds nothing on numbers and booleans |
| Js.LowerAscii | src/js/app.js:254 | `toLowerCase` keeps the length, turns each upper-case letter into its lower-case partner and leaves every other character as it is |
| Js.ToJsString | src/js/app.js:151 | defines `String(v)`, the coercion `createElement`, `createTextNode`, `setAttribute` and `' ' +` apply: strings as they are, numbers as decimal numerals, arrays joined by commas, other objects as `[object Object]`; it never throws |
| Dom.GetAttribute | src/js/app.js:290 | defines `getAttribute`: the value of the attribute of that name, `null` when none is set |
| Dom.SetAttribute | src/js/app.js:163-168 | defines `setAttribute`: an attribute already set takes the new value in place, a new one goes last |
| ContextRecord.Token | src/js/app.js:33-36 | a minted key is `tg` followed by the counter's decimal numeral |
| ContextRecord.TokenInjective | src/js/app.js:33-36 | two counter values mint the same key only if they are equal, so no key is minted twice |
| ContextRecord.Entries | src/js/app.js:41-48 | defines the table after a sequence of `add` calls: each call stores its value under the next minted key |
| ContextRecord.Lookup | src/js/app.js:49-51 | defines `store[key]`: the stored value, `undefined` for a key not in the table |
| ContextRecord.EntriesSpec | src/js/app.js:41-51 | after n adds, the table's keys are exactly `tg1` … `tgn`, and `tgk` holds the k-th value added |
| ContextRecord.EntriesPreserved | src/js/app.js:41-48 | later adds neither remove nor change an entry already stored |
| ContextRecord.Store.constructor | src/js/app.js:30-32 | the table starts empty with the counter at zero |
| ContextRecord.Store.NewKey | src/js/app.js:33-36 | the counter goes up by one before the key is minted from it, and nothing else changes |
| ContextRecord.Store.Add | src/js/app.js:41-48 | the n-th add returns `Token(n)`, a key not in the table before, and stores the value under it |
| ContextRecord.Store.Get | src/js/app.js:49-51 | `get` of the k-th key returns the k-th value added, and `undefined` for any key never minted |
| Formatter.Render | src/js/app.js:70-117 | renders the empty string exactly for undefined, booleans and numbers; strings, arrays, objects and `null` (whose `typeof` is `'object'`) render to something; it never throws |
| Formatter.RenderItems | src/js/app.js:85-96 | defines the array loop: a comma before every element but the first, then the element rendered |
| Formatter.RenderPairs | src/js/app.js:98-108 | defines the object loop: one `"key":value` entry per own property, in order |
| Formatter.RenderString | src/js/app.js:80-83 | a string renders as `"`, the string with no character escaped, and `"` |
| Formatter.RenderArray | src/js/app.js:85-96 | an array renders as `[`, the comma-joined renderings of its elements, `]` |
| Formatter.RenderObject | src/js/app.js:98-111 | an object renders as `{`, the comma-joined `"key":value` entries in property order, `}` |
| Formatter.RenderIsAmbiguous | src/js/app.js:83 | without escaping, two different arrays render to the same text |
| Formatter.UnsupportedElementsVanish | src/js/app.js:85-113 | an array of undefined values, booleans and numbers renders as its commas alone between brackets |
| Formatter.ToJsonText | src/js/app.js:70-117 | the two loops of `toString` produce exactly `Render(item)` |
| Dom.GetAttributeSpec | src/js/app.js:290 | `getAttribute` returns a value exactly when an attribute of that name is set, and then that value |
| Dom.SetAttributeSpec | src/js/app.js:163-168 | after `setAttribute` the name reads back the new value, other names read as before, a new name is appended and an existing one keeps its place |
| Style.StyleDirective | src/js/app.js:177-189 | defines the tokens `context[mode].style` gives: none without an entry or a style, one for a string, `String()` of each element for an array; reading through null or undefined throws |
| Style.ClassName | src/js/app.js:181-195 | defines the class a style gives: each token after a space, then one leading space removed |
| Style.Spaced | src/js/app.js:181-188 | defines `className += ' ' + token` for each token in turn |
| Style.StripLeadingSpace | src/js/app.js:192-195 | defines the removal of one leading space |
| Style.SpacedJoin | src/js/app.js:186-188 | appending `' ' + token` for each token gives a space followed by the tokens joined with spaces |
| Style.ClassNameJoins | src/js/app.js:181-195 | after the leading space is removed, the class name is the style tokens joined by single spaces |
| Style.SingleStyleExample | src/js/app.js:181-182 | style `"foo"` for the mode gives class `foo` |
| Style.StyleListExample | src/js/app.js:184-188 | style `["foo","bar"]` for the mode gives class `foo bar` |
| Style.NoStyleNoClass | src/js/app.js:177-179 | any context with no entry for the mode, or whose entry has no `style`, gives no tokens and an empty class |
| Style.OtherModeExample | src/js/app.js:177 | example: under mode `page`, a context with only a `teaser` entry leaves the class empty |
| Deserializer.ConvertList | src/js/app.js:134-147 | defines `convert(json_list, dom)` on any value: an array's items in turn; `null` and `undefined` throw on `.length`; other values build nothing |
| Deserializer.ConvertItems | src/js/app.js:147-205 | defines the loop: each item converted with the keys minted before it, the first throw ending the walk with the contexts added so far |
| Deserializer.ConvertItem | src/js/app.js:148-150 | defines one item: `hasOwnProperty('tag')` throws on null and undefined, and only an object can own `tag` |
| Deserializer.ConvertObject | src/js/app.js:150-151 | defines an object item: an element when it owns `tag`, nothing otherwise |
| Deserializer.CreateElement | src/js/app.js:150-203 | defines the element of an item: the content converted first, then the element finished with the next minted key, its context added last |
| Deserializer.ContentOf | src/js/app.js:158-160 | defines the conversion of `content`, when the item owns it |
| Deserializer.TextOf | src/js/app.js:153-156 | at most one child: the text node of `String(item.string)`, when the item owns `string` |
| Deserializer.ContextOf | src/js/app.js:173-199 | at most one value added: the item's `context`, when it owns one |
| Deserializer.ImageAttributesOf | src/js/app.js:162-171 | defines the image branch: attributes only for an `img` item owning `src` |
| Deserializer.ImageLoop | src/js/app.js:164-170 | defines the loop from index 3 down to 0 over `src`, `alt`, `width`, `height` |
| Deserializer.CopyAttribute | src/js/app.js:167-169 | defines one step: `setAttribute(name, item[name])` when the item owns `name` |
| Deserializer.ThrowIsFinal | src/js/app.js:147-150 | once an item throws, later items are never read and the contexts added so far stay added |
| Deserializer.OneElementPerTaggedItem | src/js/app.js:147-151 | a successful conversion yields one element per item that owns `tag`, in input order, named by `String(tag)`; other items yield nothing |
| Deserializer.ChildrenInOrder | src/js/app.js:151-160 | an element's children are the text node of `string`, if present, followed by the converted `content`, if present |
| Deserializer.ElementOf | src/js/app.js:151-200 | the element built is named by `String(tag)` and has the given children; in the model only an item with a context can throw here, since tag-name validity is not modelled |
| Deserializer.ImageAttributesExact | src/js/app.js:162-171 | only an `img` item that owns `src` gets image attributes: `src` first, then `height`, `width` and `alt`, each only when owned and with the item's value |
| Deserializer.ElementContext | src/js/app.js:173-200 | an element carries `data-tg-context` exactly when its item has a context, whatever the mode, and it holds the key given |
| Deserializer.ContextAddedLast | src/js/app.js:158-199 | an element adds what its content added, then its own context, once |
| Deserializer.ContextAttribute | src/js/app.js:199-200 | the token an element carries is the key minted for the last value it added |
| Deserializer.ContextRegistered | src/js/app.js:199-200 | after the conversion, the table holds the element's context under the token the element carries |
| Deserializer.JsonToDom | src/js/app.js:128-214 | the fragment's children and the table's new entries are those `ConvertList` gives |
| Deserializer.Convert | src/js/app.js:134-205 | the loop appends each item's nodes and adds each context in order, and a throw ends it |
| Deserializer.ConvertOne | src/js/app.js:148-150 | one pass of the loop agrees with `ConvertItem` |
| Deserializer.CreateNode | src/js/app.js:150-203 | an item with a `tag`: the content is converted first, then the element is finished with the next key |
| Deserializer.AppendChildren | src/js/app.js:153-160 | the children are the text of `string` then the converted content; a throw in the content is passed on |
| Deserializer.FinishNode | src/js/app.js:162-200 | the image attributes, the class and the token are set as `ElementOf` says, and the context is added exactly when the element is built with one |
| Deserializer.CopyImageAttributes | src/js/app.js:162-171 | the attribute loop produces `ImageAttributesOf` |
| Deserializer.ApplyStyle | src/js/app.js:177-196 | the class loop throws exactly when reading the style throws, and otherwise gives `ClassName` of the style |
| JsonWriter.DomToJson | src/js/app.js:313-317 | defines `domToJson`: `{"content":`, the children's list, `}` |
| JsonWriter.JsonList | src/js/app.js:233-310 | defines `convert(node_list)`: `[`, the blocks, `\n]` |
| JsonWriter.JsonBlocks | src/js/app.js:246-306 | defines the loop: `\n{` before the first block, `,\n{` before every other, `\n}` after each |
| JsonWriter.Body | src/js/app.js:251-302 | defines one block's body: an element's tag, children and context; a non-empty text node's `string`; nothing otherwise |
| JsonWriter.ChildPart | src/js/app.js:258-288 | defines the children part: `str` for a single non-empty text child, `content` for a single element child or two or more children |
| JsonWriter.ContextToken | src/js/app.js:290-291 | defines the token test: the attribute's value when it is set and not empty |
| JsonWriter.ContextPart | src/js/app.js:290-295 | defines the context part: `,"context":` and the rendered stored value, for a token that passes the test |
| JsonWriter.JsonListBlocks | src/js/app.js:245-309 | a node list is written as `[`, one `\n{…\n}` block per node joined by commas, and `\n]` |
| JsonWriter.DomToJsonWrapper | src/js/app.js:313-315 | the output always starts with `{"content":[` and ends with `\n]}` |
| JsonWriter.EmptyNodesStillWriteBlocks | src/js/app.js:249-305 | an empty text node and a node of any other kind still get an empty block |
| JsonWriter.ElementBlock | src/js/app.js:251-295 | an element's block starts with its lower-cased tag and ends with its context exactly when its token is a non-empty string |
| JsonWriter.WriteList | src/js/app.js:233-311 | the loop writes exactly `JsonList` |
| JsonWriter.WriteBody | src/js/app.js:251-302 | one block's body is written as `Body` says |
| JsonWriter.WriteChildren | src/js/app.js:258-288 | nothing, `str` or `content`, by the number and kind of the children |
| JsonWriter.WriteContext | src/js/app.js:290-295 | the rendered context is written exactly when the token is a non-empty string |
| ObjectWriter.DomToObj | src/js/app.js:397-399 | defines `domToObj`: `{content: [...]}` over the parent's children |
| ObjectWriter.ObjList | src/js/app.js:334-395 | at most one object per node, in node order |
| ObjectWriter.ObjItem | src/js/app.js:350-391 | at most one object for a node: an element's, or, corrected only, a non-empty text node's `{string}` |
| ObjectWriter.ChildProps | src/js/app.js:355-371 | at most one child field: the text key for a single non-empty text child, `content` for a single element child or two or more children |
| ObjectWriter.ContextProps | src/js/app.js:373-376 | at most one field: `context`, for a token that passes the test |
| ObjectWriter.ElementObject | src/js/app.js:351-376 | an element yields one object: `tag` lower-cased; `str` exactly for a single non-empty text child; `content` exactly for a single element child or two or more children; `context` exactly for a non-empty token |
| ObjectWriter.ChildPropsKeys | src/js/app.js:355-371 | the child fields hold the text or the converted children as the cases say, and never a context |
| ObjectWriter.ContextPropsKeys | src/js/app.js:373-376 | the context field holds what the table has for a non-empty token, and nothing else |
| ObjectWriter.TextNodesDropped | src/js/app.js:380-385 | as written, any list of text nodes yields no object, though domToJson writes a non-empty block for each non-empty one |
| ObjectWriter.CorrectedPerNode | src/js/app.js:380-385 | corrected, each node yields one object exactly when its domToJson block is not empty, and a non-empty text node yields `{string: value}` |
| ObjectWriter.CorrectedMatchesJson | src/js/app.js:380-385 | corrected, there is one object per node whose domToJson block is not empty |
| ObjectWriter.TextChildLost | src/js/app.js:359 | as written, `<p>hi</p>` becomes `{tag: "p", str: "hi"}`, which jsonToDom turns into an empty paragraph |
| ObjectWriter.StrIgnored | src/js/app.js:150-199 | appending a property under any key jsonToDom does not read, `str` among them, leaves the item's conversion unchanged |
| ObjectWriter.RoundTrip | src/js/app.js:150-160 | corrected, converting the objects back with jsonToDom rebuilds a list of plain trees exactly, adding no context |
| ObjectWriter.RoundTripElement | src/js/app.js:351-365 | corrected, one plain element converts back to itself |
| ObjectWriter.WriteObjList | src/js/app.js:334-395 | the loop pushes exactly the objects `ObjList` gives for the code as written |
| ObjectWriter.WriteChildProps | src/js/app.js:355-371 | the child fields are set as `ChildProps` says |
| ObjectWriter.WriteContextProps | src/js/app.js:373-376 | the context field is set exactly when the token is a non-empty string |

## Left out

- The jQuery ready handler (src/js/app.js:404-447): input logging, `contentEditable`, `innerHTML` and the `$.getJSON` fetch. It is user-interface and network code.
- `console.log` calls and the display-mode label: they only produce output.
- The global `app.context` is always `'page'` in the source. The mode is a parameter, so the `app.hasOwnProperty('context')` test (src/js/app.js:173) is always true.
- Real DOM objects: nodes are immutable values, and the fragment is the list of its children. `className` is a field of the element.
- Deserializer.ElementOf: `document.createElement` (src/js/app.js:151) throws `InvalidCharacterError` when `String(tag)` is not a valid element name. Examples are `""` and any object tag, because `"[object Object]"` contains a space. The model builds the element anyway, and `Deserializer.OneElementPerTaggedItem` counts it. Element-name validity is not modelled.
- Attribute names are compared as given. HTML's lower-casing of attribute names is not modelled.
- `nodeName` is the tag as created. HTML upper-cases it, but both writers lower-case it again, which gives the same text for ASCII names.
- `toLowerCase` is modelled on ASCII letters only.
- Numbers are integers. Fractions, `NaN` and the numeral forms of large or small numbers are not modelled.
- An object that owns a `length` property is treated as having no items, when it is passed as `content` or as a style.
- Properties inherited from a prototype are not modelled: objects have only their own properties.
- ContextRecord.Store.NewKey: the counter is unbounded. Beyond 2^53 the source's counter would lose precision.
- Js.OwnProperty: an object that owns a `hasOwnProperty` key of its own makes `x.hasOwnProperty(…)` throw, because the own key hides the method (src/js/app.js:103, 150, 153, 158, 167, 173, 177, 179). The model reads such an object like any other and does not throw.
- Js.ToJsString: an object that owns a `toString` key of its own makes `String(x)` and `' ' + x` throw (src/js/app.js:151, 154, 163, 168, 187). The model writes every object as `[object Object]`.
- Formatter.Render: for the same reason, an object owning a `hasOwnProperty` key makes the object loop throw (src/js/app.js:103). The model renders it like any other object.
- Objects with a repeated key: a JavaScript object cannot hold one, and `JSON.parse` keeps the last. The model's property lists can repeat a key, and then lookups read the first. No entry point restricts this.

## Findings

| source | as written | input that shows it | evidently intended | confidence | as-written member | corrected member |
|---|---|---|---|---|---|---|
| src/js/app.js:359 | domToObj stores the text of a single text child under `str`; jsonToDom reads `string` (src/js/app.js:153) | `<p>hi</p>` becomes `{tag: "p", str: "hi"}`, and converting it back gives an empty `<p>` | the text goes under `string`, so converting the object back rebuilds the element | not executed | ObjectWriter.TextChildLost | ObjectWriter.RoundTrip |
| src/js/app.js:380 | the text-node branch tests `nodeType` 2, which belongs to attribute nodes and no child node has | a text node among two or more children yields no object, while domToJson writes `"string": "hi"` for it | `case 3`: a non-empty text node yields `{string: value}` | not executed | ObjectWriter.TextNodesDropped | ObjectWriter.CorrectedPerNode, ObjectWriter.CorrectedMatchesJson |

`RoundTrip` is stated for plain trees only: elements with a lower-case tag, no attributes and no class, whose children are one non-empty text node or plain elements. The descriptor format could carry more, since jsonToDom reads `src`, `alt`, `width`, `height` and `context` (src/js/app.js:162-199), but the corrected variant still does not bring the rest back:

- Neither writer emits image attributes or a class (src/js/app.js:251-295, 351-376). `<img src="a.png">` becomes `{tag: "img"}` and comes back as a bare `<img>`.
- A context is written out, but jsonToDom registers it again under a newly minted token, so the element's `data-tg-context` changes.
- Text beside elements is lost. jsonToDom builds nothing for a `{string}` descriptor, because it has no `tag`, so `<p>a<b></b></p>` comes back without `a`.
- Both writers lower-case the tag.

domToJson writes the same `str` key for a single text child (src/js/app.js:268). `JsonWriter` writes it as the source does.
