/** XML object trees and how they are printed: src/uxmpp/XmlObject.cpp.

    The original copies objects by value, so a tree is a value here. Attributes and namespace
    aliases live in hash maps whose iteration order is unspecified: printing takes the orders as a
    parameter, one for each map of each node, and everything is proved for all orders. */
module Xml {
  import opened Sequences
  import opened Strings

  datatype Part = Start | Body | End | All

  datatype XmlObject = XmlObject(
    tagName: string,
    namespace: string,
    nsIsDefault: bool,
    aliases: map<string, string>,
    defaultNs: string,
    attributes: map<string, string>,
    nodes: seq<XmlObject>,
    content: string,
    part: Part)
  {
    /** An object without a tag name counts as false. */
    predicate IsValid() {
      tagName != ""
    }

    function FullName(): string {
      if namespace != "" then namespace + ":" + tagName
      else if defaultNs != "" then defaultNs + ":" + tagName
      else tagName
    }

    function Attribute(name: string): string {
      LookUp(attributes, name)
    }

    function SetAttribute(name: string, value: string): XmlObject {
      this.(attributes := attributes[name := value])
    }

    function AddNode(node: XmlObject): XmlObject {
      this.(nodes := nodes + [node])
    }
  }

  const EMPTY := XmlObject("", "", false, map[], "", map[], [], "", All)

  /** The constructor with a name and a namespace. */
  function New(tagName: string, namespace: string, setAttr: bool, isDefault: bool): XmlObject {
    XmlObject(tagName, namespace, isDefault, map[], if setAttr then namespace else "", map[], [], "", All)
  }

  function LookUp(m: map<string, string>, key: string): string {
    if key in m then m[key] else ""
  }

  /** The first child with a given name, or the empty object. */
  function FindNode(nodes: seq<XmlObject>, name: string, fullName: bool): XmlObject {
    if nodes == [] then EMPTY
    else if (if fullName then nodes[0].FullName() else nodes[0].tagName) == name then nodes[0]
    else FindNode(nodes[1..], name, fullName)
  }

  /** A full name, for tags without a ':', as every parsed object has: the tag in the namespace, or
      without one in the object's own xmlns. */
  lemma FullNameIs(o: XmlObject, ns: string, tagName: string)
    requires ':' !in o.tagName && ':' !in tagName && ns != ""
    ensures o.FullName() == ns + ":" + tagName <==>
              o.tagName == tagName && (o.namespace == ns || (o.namespace == "" && o.defaultNs == ns))
  {
    SameSplit(o.namespace, o.tagName, ns, tagName);
    SameSplit(o.defaultNs, o.tagName, ns, tagName);
    assert (ns + ":" + tagName)[|ns|] == ':';
  }

  // ---------- Escaping ----------

  function EscapeChar(c: char): string {
    match c
    case '&' => "&amp;"
    case '<' => "&lt;"
    case '>' => "&gt;"
    case '\'' => "&apos;"
    case '"' => "&quot;"
    case _ => [c]
  }

  function Escape(s: string): string {
    if s == "" then "" else EscapeChar(s[0]) + Escape(s[1..])
  }

  // ---------- Printing ----------

  type Pairs = seq<(string, string)>

  datatype Which = OfAliases | OfAttributes

  /** The iteration orders of the hash maps in a tree: a node is found by the numbers of named siblings
      that follow it and its ancestors. */
  type Order = (seq<nat>, Which, map<string, string>) -> seq<string>

  ghost predicate IsOrder(order: Order) {
    forall at: seq<nat>, which: Which, m: map<string, string> :: Enumerates(order(at, which, m), m)
  }

  function CountNamed(nodes: seq<XmlObject>): nat {
    if nodes == [] then 0 else (if nodes[0].IsValid() then 1 else 0) + CountNamed(nodes[1..])
  }

  ghost predicate Enumerates(keys: seq<string>, m: map<string, string>) {
    (forall k :: k in keys <==> k in m) && (forall i, j :: 0 <= i < j < |keys| ==> keys[i] != keys[j])
  }

  /** The entries of a map, key by key. */
  function Entries(keys: seq<string>, m: map<string, string>): (p: Pairs)
    ensures |p| == |keys|
    ensures forall i :: 0 <= i < |p| ==> p[i] == (keys[i], LookUp(m, keys[i]))
  {
    seq(|keys|, i requires 0 <= i < |keys| => (keys[i], LookUp(m, keys[i])))
  }

  function PrintPair(prefix: string, name: string, value: string): string {
    prefix + Escape(name) + "='" + Escape(value) + "'"
  }

  function PrintPairs(prefix: string, p: Pairs): string {
    if p == [] then "" else PrintPair(prefix, p[0].0, p[0].1) + PrintPairs(prefix, p[1..])
  }

  /** The attributes in the order they are printed. */
  function PrintAttributes(o: XmlObject, order: Order, at: seq<nat>): string {
    PrintPairs(" xmlns:", Entries(order(at, OfAliases, o.aliases), o.aliases))
    + (if |Escape(o.defaultNs)| > 0 then " " + "xmlns" + "='" + Escape(o.defaultNs) + "'" else "")
    + PrintPairs(" ", Entries(order(at, OfAttributes, o.attributes), o.attributes))
  }

  function PrintTag(o: XmlObject): string {
    if |Escape(o.namespace)| > 0 && !o.nsIsDefault
    then Escape(Escape(o.namespace) + ":" + Escape(o.tagName))
    else Escape(o.tagName)
  }

  /** A start tag, the body if there is one, and the end tag. */
  function PrintElement(tag: string, attributes: string, isEmpty: bool, body: string): string {
    if isEmpty then "<" + tag + attributes + "/>"
    else "<" + tag + attributes + ">" + (body + ("</" + tag + ">"))
  }

  /** to_string without indentation. */
  function Print(o: XmlObject, order: Order, at: seq<nat>): string
    decreases o, 1
  {
    if !o.IsValid() then ""
    else if o.part == Body then Escape(o.content)
    else if o.part == End then "</" + PrintTag(o) + ">"
    else if o.part == Start then "<" + PrintTag(o) + PrintAttributes(o, order, at) + ">"
    else PrintElement(PrintTag(o), PrintAttributes(o, order, at), o.nodes == [] && |o.content| == 0,
                      PrintNodes(o.nodes, order, at) + Escape(o.content))
  }

  function PrintNodes(nodes: seq<XmlObject>, order: Order, at: seq<nat>): string
    decreases nodes, 0
  {
    if nodes == [] then ""
    else Print(nodes[0], order, at + [CountNamed(nodes[1..])]) + PrintNodes(nodes[1..], order, at)
  }

  // ---------- The parts of an object ----------

  lemma PartForms(o: XmlObject, order: Order, at: seq<nat>)
    requires o.tagName != ""
    ensures Print(o.(part := Start), order, at) == "<" + PrintTag(o) + PrintAttributes(o, order, at) + ">"
    ensures Print(o.(part := End), order, at) == "</" + PrintTag(o) + ">"
  {
  }

  /** The text of the start part, then the children and the content, then the text of the end part, is
      the text of the whole; so a stream that is written in parts says what the whole would say. */
  lemma PartsMakeWhole(o: XmlObject, order: Order, at: seq<nat>)
    requires o.tagName != "" && (o.nodes != [] || o.content != "")
    ensures Print(o.(part := All), order, at)
         == Print(o.(part := Start), order, at) + PrintNodes(o.nodes, order, at)
            + Print(o.(part := Body), order, at) + Print(o.(part := End), order, at)
  {
    var tag, a, inner := PrintTag(o), PrintAttributes(o, order, at), PrintNodes(o.nodes, order, at);
    Pieces("<" + tag + a + ">", inner, Escape(o.content), "</" + tag + ">");
  }

  lemma Pieces(a: string, b: string, c: string, d: string)
    ensures a + ((b + c) + d) == a + b + c + d
  {
  }

  // ---------- The printing loops ----------

  lemma {:induction false} EscapeConcat(s: string, t: string)
    ensures Escape(s + t) == Escape(s) + Escape(t)
  {
    if s == "" {
      assert s + t == t;
    } else {
      assert (s + t)[1..] == s[1..] + t;
      EscapeConcat(s[1..], t);
    }
  }

  lemma EscapeSnoc(s: string, i: nat)
    requires i < |s|
    ensures Escape(s[..i + 1]) == Escape(s[..i]) + EscapeChar(s[i])
  {
    assert s[..i + 1] == s[..i] + [s[i]];
    EscapeConcat(s[..i], [s[i]]);
    assert Escape([s[i]]) == EscapeChar(s[i]) + Escape("");
  }

  /** xml_escape */
  method XmlEscape(str: string) returns (ss: string)
    ensures ss == Escape(str)
  {
    ss := "";
    for i := 0 to |str|
      invariant ss == Escape(str[..i])
    {
      EscapeSnoc(str, i);
      match str[i]
      case '&' => ss := ss + "&amp;";
      case '<' => ss := ss + "&lt;";
      case '>' => ss := ss + "&gt;";
      case '\'' => ss := ss + "&apos;";
      case '"' => ss := ss + "&quot;";
      case _ => ss := ss + [str[i]];
    }
    assert str[..|str|] == str;
  }

  lemma {:induction false} PrintPairsSnoc(prefix: string, p: Pairs, q: (string, string))
    ensures PrintPairs(prefix, p + [q]) == PrintPairs(prefix, p) + PrintPair(prefix, q.0, q.1)
  {
    if p == [] {
      assert p + [q] == [q] && [q][1..] == [];
    } else {
      assert (p + [q])[1..] == p[1..] + [q];
      PrintPairsSnoc(prefix, p[1..], q);
    }
  }

  /** One of the two attribute loops of to_string. */
  method PrintEntries(prefix: string, keys: seq<string>, m: map<string, string>) returns (ss: string)
    ensures ss == PrintPairs(prefix, Entries(keys, m))
  {
    ghost var all := Entries(keys, m);
    ss := "";
    for i := 0 to |keys|
      invariant ss == PrintPairs(prefix, all[..i])
    {
      assert all[..i + 1] == all[..i] + [all[i]];
      PrintPairsSnoc(prefix, all[..i], all[i]);
      var key := XmlEscape(keys[i]);
      var value := XmlEscape(LookUp(m, keys[i]));
      var entry := prefix + key + "='" + value + "'";
      ss := ss + entry;
    }
    assert all[..|keys|] == all;
  }

  method PrintChildren(nodes: seq<XmlObject>, order: Order, at: seq<nat>) returns (ss: string)
    ensures ss == PrintNodes(nodes, order, at)
    decreases nodes, 0
  {
    ss := "";
    for i := 0 to |nodes|
      invariant ss + PrintNodes(nodes[i..], order, at) == PrintNodes(nodes, order, at)
    {
      assert nodes[i..][0] == nodes[i] && nodes[i..][1..] == nodes[i + 1..];
      var node := ToString(nodes[i], order, at + [CountNamed(nodes[i + 1..])]);
      Assoc(ss, node, PrintNodes(nodes[i + 1..], order, at));
      ss := ss + node;
    }
  }

  /** The start tag up to, but not including, its '>'. */
  method PrintStart(o: XmlObject, tagName: string, order: Order, at: seq<nat>) returns (ss: string)
    ensures ss == "<" + tagName + PrintAttributes(o, order, at)
  {
    ss := PrintEntries(" xmlns:", order(at, OfAliases, o.aliases), o.aliases);
    var defaultNs := XmlEscape(o.defaultNs);
    if |defaultNs| > 0 {
      ss := ss + (" " + "xmlns" + "='" + defaultNs + "'");
    }
    var attributes := PrintEntries(" ", order(at, OfAttributes, o.attributes), o.attributes);
    ss := "<" + tagName + (ss + attributes);
  }

  /** to_string */
  method ToString(o: XmlObject, order: Order, at: seq<nat>) returns (ss: string)
    ensures ss == Print(o, order, at)
    decreases o, 1
  {
    if !o.IsValid() {
      return "";
    }
    if o.part == Body {
      ss := XmlEscape(o.content);
      return;
    }
    var ns := XmlEscape(o.namespace);
    var tagName := XmlEscape(o.tagName);
    if |ns| > 0 && !o.nsIsDefault {
      tagName := XmlEscape(ns + ":" + tagName);
    }
    if o.part == End {
      return "</" + tagName + ">";
    }
    ss := PrintStart(o, tagName, order, at);
    if o.part == Start {
      return ss + ">";
    }
    if o.nodes == [] && |o.content| == 0 {
      return ss + "/>";
    }
    var children := PrintChildren(o.nodes, order, at);
    var content := XmlEscape(o.content);
    ss := ss + ">" + (children + content + ("</" + tagName + ">"));
  }
}
