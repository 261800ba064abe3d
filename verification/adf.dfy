/** JIRA's rich-text format (Atlassian Document Format): the one-paragraph
    wrapper the JIRA client sends for free-text fields, and the extractor that
    flattens a document back into plain text. */
module Adf {
  import opened Wrappers
  import opened Json

  /** The single-paragraph document holding `value` as its only text node */
  function Paragraph(value: Json): (doc: Json)
    ensures Truthy(doc)
  {
    JObj([("type", JStr("doc")), ("version", JInt(1)),
          ("content", JArr([JObj([("type", JStr("paragraph")),
                                  ("content", JArr([JObj([("type", JStr("text")), ("text", value)])]))])]))])
  }

  // --------------------------------------------------------------- extraction

  /** `item.get('type') == 'text'` */
  predicate IsTextNode(ms: Members) {
    Get(ms, "type") == Some(JStr("text"))
  }

  /** The values the inner `extract` appends to `text_parts`, in visiting
      order: a dict contributes `item.get('text', '')` when it is a text node
      and then the parts of its `content`; a list contributes the parts of its
      items; anything else contributes nothing. Iterating a `content` that is
      neither a list, a str nor a dict raises TypeError. */
  function Parts(j: Json): Result<seq<Json>>
    decreases j, 1
  {
    match j
    case JObj(ms) =>
      var own := if IsTextNode(ms) then [FieldOr(ms, "text", JStr(""))] else [];
      var i := IndexOf(ms, "content");
      if i < 0 then Ok(own)
      else
        (match ms[i].1
         case JArr(items) =>
           var rest :- PartsOfAll(items);
           Ok(own + rest)
         // iterating a str or a dict yields str values, which add nothing
         case JStr(_) => Ok(own)
         case JObj(_) => Ok(own)
         case other => Err(NotIterable(other)))
    case JArr(items) => PartsOfAll(items)
    case _ => Ok([])
  }

  function PartsOfAll(items: seq<Json>): Result<seq<Json>>
    decreases items, 0
  {
    if |items| == 0 then Ok([])
    else
      var first :- Parts(items[0]);
      var rest :- PartsOfAll(items[1..]);
      Ok(first + rest)
  }

  lemma PartsOfOne(x: Json)
    ensures PartsOfAll([x]) == Parts(x)
  {
    assert [x][1..] == [];
    if Parts(x).Ok? {
      assert Parts(x).value + [] == Parts(x).value;
    }
  }

  /** Position of the first part that is not a str, or -1 */
  function FirstNonString(parts: seq<Json>): (i: int)
    ensures -1 <= i < |parts|
    ensures 0 <= i ==> !parts[i].JStr?
    ensures forall k :: 0 <= k < |parts| && (i < 0 || k < i) ==> parts[k].JStr?
  {
    if |parts| == 0 then -1
    else if !parts[0].JStr? then 0
    else
      var t := FirstNonString(parts[1..]);
      if t < 0 then -1 else t + 1
  }

  /** The TypeError `' '.join` raises on a part that is not a str */
  function JoinError(index: nat, part: Json): string {
    "sequence item " + Decimal(index) + ": expected str instance, " + TypeName(part) + " found"
  }

  /** `' '.join(parts)` */
  function JoinParts(parts: seq<Json>): (r: Result<string>)
    ensures r.Ok? <==> forall k :: 0 <= k < |parts| ==> parts[k].JStr?
    ensures r.Err? ==> exists k :: 0 <= k < |parts| && !parts[k].JStr? && r.error == JoinError(k, parts[k])
  {
    var i := FirstNonString(parts);
    if i < 0 then Ok(Join(seq(|parts|, k requires 0 <= k < |parts| => parts[k].s), " "))
    else Err(JoinError(i, parts[i]))
  }

  /** `_extract_text_from_doc(content)` */
  function Extract(j: Json): Result<string> {
    var parts :- Parts(j);
    JoinParts(parts)
  }

  // -------------------------------------------------------- reference reading

  /** A rich-text node as the format describes it: a type tag, other
      attributes (such as `version` or `attrs`), an optional text and an
      ordered list of children that is present only when `hasContent` */
  datatype Node = Node(kind: string, attrs: Members, text: Option<string>, hasContent: bool, children: seq<Node>)

  /** The attributes never use the keys the encoding reserves, at any depth */
  ghost predicate ValidNode(n: Node)
    decreases n, 1
  {
    && !Has(n.attrs, "type") && !Has(n.attrs, "text") && !Has(n.attrs, "content")
    && (n.hasContent ==> ValidNodes(n.children))
  }

  ghost predicate ValidNodes(ns: seq<Node>)
    decreases ns, 0
  {
    forall i :: 0 <= i < |ns| ==> ValidNode(ns[i])
  }

  /** The JSON form of a node: `type`, the attributes, then `text` and
      `content` when present */
  function Encode(n: Node): Json
    decreases n, 1
  {
    var text := if n.text.Some? then [("text", JStr(n.text.value))] else [];
    var content := if n.hasContent then [("content", JArr(EncodeAll(n.children)))] else [];
    JObj([("type", JStr(n.kind))] + n.attrs + text + content)
  }

  function EncodeAll(ns: seq<Node>): (js: seq<Json>)
    decreases ns, 0
    ensures |js| == |ns|
  {
    if |ns| == 0 then [] else [Encode(ns[0])] + EncodeAll(ns[1..])
  }

  /** The reference reading of a node: the text of every text node in
      depth-first, left-to-right order, with "" for a text node that has no
      text; a text node's own children follow its text */
  function Texts(n: Node): seq<string>
    decreases n, 1
  {
    (if n.kind == "text" then [n.text.GetOr("")] else [])
    + (if n.hasContent then TextsOfAll(n.children) else [])
  }

  function TextsOfAll(ns: seq<Node>): seq<string>
    decreases ns, 0
  {
    if |ns| == 0 then [] else Texts(ns[0]) + TextsOfAll(ns[1..])
  }

  function AsJson(ss: seq<string>): (js: seq<Json>)
    ensures |js| == |ss|
    ensures forall i :: 0 <= i < |ss| ==> js[i] == JStr(ss[i])
  {
    seq(|ss|, i requires 0 <= i < |ss| => JStr(ss[i]))
  }

  // ------------------------------------------------------------------ lemmas

  /** Joining parts that are all strings never fails and joins their texts */
  lemma JoinStrings(ss: seq<string>)
    ensures JoinParts(AsJson(ss)) == Ok(Join(ss, " "))
  {
    var parts := AsJson(ss);
    assert seq(|parts|, k requires 0 <= k < |parts| => parts[k].s) == ss;
  }

  /** How the encoding of a valid node answers the three lookups `extract` makes */
  lemma EncodedLookups(n: Node)
    requires ValidNode(n)
    ensures Encode(n).JObj?
    ensures IsTextNode(Encode(n).members) <==> n.kind == "text"
    ensures FieldOr(Encode(n).members, "text", JStr("")) == JStr(n.text.GetOr(""))
    ensures !n.hasContent ==> IndexOf(Encode(n).members, "content") < 0
    ensures n.hasContent ==>
      var i := IndexOf(Encode(n).members, "content");
      0 <= i && Encode(n).members[i].1 == JArr(EncodeAll(n.children))
  {
    var head: Members := [("type", JStr(n.kind))];
    var text: Members := if n.text.Some? then [("text", JStr(n.text.value))] else [];
    var content: Members := if n.hasContent then [("content", JArr(EncodeAll(n.children)))] else [];
    var ms := head + n.attrs + text + content;
    assert Encode(n).members == ms;
    assert !Has(n.attrs, "type") && !Has(n.attrs, "text") && !Has(n.attrs, "content");
    assert !Has(head, "text") && !Has(head, "content");
    // the tag is the first member
    assert IndexOf(ms, "type") == 0;
    // `text` follows the tag and the attributes
    IndexOfAppend(head, n.attrs, "text");
    IndexOfAppend(head + n.attrs, text, "text");
    IndexOfAppend(head + n.attrs + text, content, "text");
    GetAppend(head + n.attrs + text, content, "text");
    GetAppend(head + n.attrs, text, "text");
    // `content`, when present, is the last member
    IndexOfAppend(head, n.attrs, "content");
    assert !Has(text, "content");
    IndexOfAppend(head + n.attrs, text, "content");
    IndexOfAppend(head + n.attrs + text, content, "content");
  }

  /** On encoded nodes, the appended parts are exactly the reference texts */
  lemma {:induction false} PartsOfEncoded(n: Node)
    requires ValidNode(n)
    ensures Parts(Encode(n)) == Ok(AsJson(Texts(n)))
    decreases n, 1
  {
    EncodedLookups(n);
    var ms := Encode(n).members;
    var own := if n.kind == "text" then [n.text.GetOr("")] else [];
    assert AsJson(own) == (if IsTextNode(ms) then [FieldOr(ms, "text", JStr(""))] else []);
    assert Encode(n) == JObj(ms);
    if n.hasContent {
      PartsOfEncodedAll(n.children);
      AsJsonAppend(own, TextsOfAll(n.children));
      assert Texts(n) == own + TextsOfAll(n.children);
    } else {
      assert Texts(n) == own;
    }
  }

  lemma {:induction false} PartsOfEncodedAll(ns: seq<Node>)
    requires ValidNodes(ns)
    ensures PartsOfAll(EncodeAll(ns)) == Ok(AsJson(TextsOfAll(ns)))
    decreases ns, 0
  {
    if |ns| > 0 {
      assert EncodeAll(ns)[0] == Encode(ns[0]);
      assert EncodeAll(ns)[1..] == EncodeAll(ns[1..]);
      PartsOfEncoded(ns[0]);
      PartsOfEncodedAll(ns[1..]);
      AsJsonAppend(Texts(ns[0]), TextsOfAll(ns[1..]));
    }
  }

  lemma AsJsonAppend(a: seq<string>, b: seq<string>)
    ensures AsJson(a + b) == AsJson(a) + AsJson(b)
  {
  }

  /** The extractor agrees with the reference reading: on any valid document
      it returns the texts of its text nodes, in depth-first order, joined by
      single spaces */
  lemma ExtractMatchesReference(n: Node)
    requires ValidNode(n)
    ensures Extract(Encode(n)) == Ok(Join(Texts(n), " "))
  {
    PartsOfEncoded(n);
    JoinStrings(Texts(n));
  }

  /** The same for a raw list of nodes, which the extractor also accepts */
  lemma ExtractListMatchesReference(ns: seq<Node>)
    requires ValidNodes(ns)
    ensures Extract(JArr(EncodeAll(ns))) == Ok(Join(TextsOfAll(ns), " "))
  {
    PartsOfEncodedAll(ns);
    JoinStrings(TextsOfAll(ns));
  }

  /** The node tree that `Paragraph` encodes */
  function ParagraphNode(s: string): Node {
    Node("doc", [("version", JInt(1))], None, true,
         [Node("paragraph", [], None, true, [Node("text", [], Some(s), false, [])])])
  }

  /** Wrapping a string and extracting it gives the string back */
  lemma ParagraphRoundTrip(s: string)
    ensures Extract(Paragraph(JStr(s))) == Ok(s)
  {
    var n := ParagraphNode(s);
    var t := Node("text", [], Some(s), false, []);
    var p := Node("paragraph", [], None, true, [t]);
    assert EncodeAll([t]) == [Encode(t)];
    assert EncodeAll([p]) == [Encode(p)];
    assert Encode(t) == JObj([("type", JStr("text")), ("text", JStr(s))]);
    assert Encode(p) == JObj([("type", JStr("paragraph")), ("content", JArr([Encode(t)]))]);
    assert Encode(n) == Paragraph(JStr(s));
    assert ValidNode(t) && ValidNodes([t]) && ValidNode(p) && ValidNodes([p]);
    assert Keys([("version", JInt(1))]) == ["version"];
    ExtractMatchesReference(n);
    assert Texts(t) == [s];
    assert TextsOfAll([t]) == [s];
    assert Texts(p) == [s];
    assert TextsOfAll([p]) == [s];
  }

  /** Wrapping anything but a string makes extraction fail: the join meets a
      non-str text value */
  lemma ParagraphOfNonString(v: Json)
    requires !v.JStr?
    ensures Extract(Paragraph(v)) == Err(JoinError(0, v))
  {
    var textNode: Members := [("type", JStr("text")), ("text", v)];
    assert IsTextNode(textNode);
    assert "type" != "text";
    assert textNode[0].0 == "type" && textNode[1].0 == "text";
    assert IndexOf(textNode, "text") == 1;
    assert FieldOr(textNode, "text", JStr("")) == v;
    assert Parts(JObj(textNode)) == Ok([v]);
    PartsOfOne(JObj(textNode));
    var para: Members := [("type", JStr("paragraph")), ("content", JArr([JObj(textNode)]))];
    assert "type" != "content";
    assert para[0].0 == "type" && para[1].0 == "content";
    assert IndexOf(para, "content") == 1;
    assert IndexOf(para, "type") == 0;
    assert !IsTextNode(para);
    assert para[1].1 == JArr([JObj(textNode)]);
    assert PartsOfAll([JObj(textNode)]) == Ok([v]);
    var own: seq<Json> := [];
    assert own + [v] == [v];
    assert Parts(JObj(para)) == Ok([v]);
    PartsOfOne(JObj(para));
    var doc: Members := [("type", JStr("doc")), ("version", JInt(1)), ("content", JArr([JObj(para)]))];
    assert Paragraph(v) == JObj(doc);
    assert doc[0].0 == "type" && doc[1].0 == "version" && doc[2].0 == "content";
    assert "version" != "content";
    assert IndexOf(doc, "content") == 2;
    assert Parts(Paragraph(v)) == Ok([v]);
  }

  /** The mixed-content example: non-text nodes are skipped and order is kept */
  lemma MixedContentExample()
    ensures Extract(JArr([
      JObj([("type", JStr("text")), ("text", JStr("a"))]),
      JObj([("type", JStr("emoji"))]),
      JObj([("type", JStr("text")), ("text", JStr("b"))])])) == Ok("a b")
  {
    var a := Node("text", [], Some("a"), false, []);
    var e := Node("emoji", [], None, false, []);
    var b := Node("text", [], Some("b"), false, []);
    assert Encode(a) == JObj([("type", JStr("text")), ("text", JStr("a"))]);
    assert Encode(e) == JObj([("type", JStr("emoji"))]);
    assert Encode(b) == JObj([("type", JStr("text")), ("text", JStr("b"))]);
    assert EncodeAll([b]) == [Encode(b)];
    assert EncodeAll([e, b]) == [Encode(e), Encode(b)];
    assert EncodeAll([a, e, b]) == [Encode(a), Encode(e), Encode(b)];
    assert ValidNode(a) && ValidNode(e) && ValidNode(b);
    assert ValidNodes([a, e, b]);
    ExtractListMatchesReference([a, e, b]);
    assert Texts(a) == ["a"] && Texts(e) == [] && Texts(b) == ["b"];
    assert TextsOfAll([b]) == ["b"];
    assert TextsOfAll([e, b]) == ["b"];
    assert TextsOfAll([a, e, b]) == ["a", "b"];
    assert Join(["a", "b"], " ") == "a b";
  }
}
