/** Markup as the parser sees it: element events, and a tokenizer for the markup that to_string
    prints. The tokenizer stands for expat on that subset: elements with quoted attributes, text,
    and the five predefined entities. */
module XmlSyntax {
  import opened Sequences
  import opened Strings
  import opened Xml

  datatype Event =
    | StartElement(name: string, attributes: Pairs)
    | Text(data: string)
    | EndElement(name: string)

  /** An element as it is written: raw names, attributes in order, children and text in order. */
  datatype Tree = Tree(name: string, attributes: Pairs, kids: seq<Kid>)
  datatype Kid = Child(tree: Tree) | Chars(data: string)

  function Flatten(t: Tree): seq<Event>
    decreases t, 1
  {
    [StartElement(t.name, t.attributes)] + FlattenKids(t.kids) + [EndElement(t.name)]
  }

  function FlattenKids(kids: seq<Kid>): seq<Event>
    decreases kids, 0
  {
    if kids == [] then []
    else FlattenKid(kids[0]) + FlattenKids(kids[1..])
  }

  function FlattenKid(kid: Kid): seq<Event>
    decreases kid, 0
  {
    match kid
    case Child(t) => Flatten(t)
    case Chars(data) => [Text(data)]
  }

  // ---------- The tokenizer ----------

  function Prefix(prefix: string, s: Option<string>): Option<string> {
    match s case None => None case Some(t) => Some(prefix + t)
  }

  function Unescape(s: string): Option<string> {
    if s == "" then Some("")
    else if s[0] != '&' then Prefix([s[0]], Unescape(s[1..]))
    else if "&amp;" <= s then Prefix("&", Unescape(s[5..]))
    else if "&lt;" <= s then Prefix("<", Unescape(s[4..]))
    else if "&gt;" <= s then Prefix(">", Unescape(s[4..]))
    else if "&apos;" <= s then Prefix("'", Unescape(s[6..]))
    else if "&quot;" <= s then Prefix("\"", Unescape(s[6..]))
    else None
  }

  /** One attribute ` name='value'` at the start of s, and what follows it. */
  function ReadAttribute(s: string): (r: Option<((string, string), string)>)
    ensures r.Some? ==> |r.value.1| < |s|
  {
    if s == "" || s[0] != ' ' then None
    else
      var eq := Find(s, '=', 1);
      if eq + 1 >= |s| || s[eq + 1] != '\'' then None
      else
        var quote := Find(s, '\'', eq + 2);
        if quote == |s| then None
        else match Unescape(s[eq + 2..quote])
          case None => None
          case Some(value) => Some(((s[1..eq], value), s[quote + 1..]))
  }

  function ReadAttributes(s: string): (r: Option<(Pairs, string)>)
    ensures r.Some? ==> |r.value.1| <= |s|
    decreases |s|
  {
    if s == "" || s[0] != ' ' then Some(([], s))
    else match ReadAttribute(s)
      case None => None
      case Some((attribute, rest)) =>
        match ReadAttributes(rest)
        case None => None
        case Some((attributes, rest')) => Some(([attribute] + attributes, rest'))
  }

  predicate DistinctNames(p: Pairs) {
    forall i, j :: 0 <= i < j < |p| ==> p[i].0 != p[j].0
  }

  predicate EndsName(c: char) {
    c == ' ' || c == '/' || c == '>'
  }

  function NameLength(s: string): (n: nat)
    ensures n <= |s|
  {
    if s == "" || EndsName(s[0]) then 0 else 1 + NameLength(s[1..])
  }

  function Then(events: seq<Event>, rest: Option<seq<Event>>): Option<seq<Event>> {
    match rest case None => None case Some(more) => Some(events + more)
  }

  /** An attribute name that is repeated in a tag is an error (section 3.1 of XML 1.0). */
  function Tokenize(s: string): Option<seq<Event>>
    decreases |s|
  {
    if s == "" then Some([])
    else if s[0] != '<' then
      var n := Find(s, '<', 0);
      match Unescape(s[..n])
      case None => None
      case Some(data) => Then([Text(data)], Tokenize(s[n..]))
    else if |s| >= 2 && s[1] == '/' then
      var n := Find(s, '>', 2);
      if n == |s| then None else Then([EndElement(s[2..n])], Tokenize(s[n + 1..]))
    else
      var n := NameLength(s[1..]);
      var name := s[1..][..n];
      match ReadAttributes(s[1..][n..])
      case None => None
      case Some((attributes, rest)) =>
        if !DistinctNames(attributes) then None
        else if ">" <= rest then Then([StartElement(name, attributes)], Tokenize(rest[1..]))
        else if "/>" <= rest then
          Then([StartElement(name, attributes), EndElement(name)], Tokenize(rest[2..]))
        else None
  }

  // ---------- Reading back escaped text ----------

  lemma {:induction false} UnescapeEscape(s: string)
    ensures Unescape(Escape(s)) == Some(s)
  {
    if s != "" {
      var rest := Escape(s[1..]);
      UnescapeEscape(s[1..]);
      assert s == [s[0]] + s[1..];
      match s[0]
      case '&' => assert ("&amp;" + rest)[5..] == rest;
      case '<' => assert ("&lt;" + rest)[4..] == rest && ("&lt;" + rest)[1] == 'l';
      case '>' => assert ("&gt;" + rest)[4..] == rest && ("&gt;" + rest)[1] == 'g';
      case '\'' => assert ("&apos;" + rest)[6..] == rest && ("&apos;" + rest)[2] == 'p';
      case '"' => assert ("&quot;" + rest)[6..] == rest && ("&quot;" + rest)[1] == 'q';
      case _ => assert ([s[0]] + rest)[1..] == rest;
    }
  }

  lemma {:induction false} EscapedHasNoMarkup(s: string)
    ensures '<' !in Escape(s) && '\'' !in Escape(s)
    ensures Escape(s) == "" <==> s == ""
  {
    if s != "" {
      EscapedHasNoMarkup(s[1..]);
    }
  }

  // ---------- Names ----------

  /** What neither ends a name nor is escaped. */
  predicate Harmless(c: char) {
    c !in " \t\r\n=/<>&'\""
  }

  predicate Unmarked(s: string) {
    forall i :: 0 <= i < |s| ==> Harmless(s[i])
  }

  /** NameStartChar of section 2.3 of XML 1.0 */
  predicate NameStart(c: char) {
    || c == ':' || c == '_' || 'A' <= c <= 'Z' || 'a' <= c <= 'z'
    || '\U{C0}' <= c <= '\U{D6}' || '\U{D8}' <= c <= '\U{F6}' || '\U{F8}' <= c <= '\U{2FF}'
    || '\U{370}' <= c <= '\U{37D}' || '\U{37F}' <= c <= '\U{1FFF}' || '\U{200C}' <= c <= '\U{200D}'
    || '\U{2070}' <= c <= '\U{218F}' || '\U{2C00}' <= c <= '\U{2FEF}' || '\U{3001}' <= c <= '\U{D7FF}'
    || '\U{F900}' <= c <= '\U{FDCF}' || '\U{FDF0}' <= c <= '\U{FFFD}' || '\U{10000}' <= c <= '\U{EFFFF}'
  }

  predicate NameChar(c: char) {
    || NameStart(c) || c == '-' || c == '.' || '0' <= c <= '9' || c == '\U{B7}'
    || '\U{300}' <= c <= '\U{36F}' || '\U{203F}' <= c <= '\U{2040}'
  }

  predicate IsName(s: string): (r: bool)
    ensures r ==> Unmarked(s) && s != ""
  {
    s != "" && NameStart(s[0]) && forall i :: 0 <= i < |s| ==> NameChar(s[i])
  }

  lemma {:induction false} EscapeName(s: string)
    requires Unmarked(s)
    ensures Escape(s) == s
  {
    if s != "" {
      EscapeName(s[1..]);
      assert Harmless(s[0]);
      assert s == [s[0]] + s[1..];
    }
  }

  lemma {:induction false} NameLengthIs(name: string, rest: string)
    requires Unmarked(name) && rest != "" && EndsName(rest[0])
    ensures NameLength(name + rest) == |name|
  {
    if name == "" {
      assert name + rest == rest;
    } else {
      assert (name + rest)[1..] == name[1..] + rest;
      assert Harmless(name[0]);
      NameLengthIs(name[1..], rest);
    }
  }

  // ---------- The tree an object is printed as ----------

  function Prefixed(prefix: string, p: Pairs): (q: Pairs)
    ensures |q| == |p| && forall i :: 0 <= i < |p| ==> q[i] == (prefix + p[i].0, p[i].1)
  {
    seq(|p|, i requires 0 <= i < |p| => (prefix + p[i].0, p[i].1))
  }

  /** The attributes of an object in the order they are printed. */
  function WrittenAttributes(o: XmlObject, order: Order, at: seq<nat>): Pairs {
    Prefixed("xmlns:", Entries(order(at, OfAliases, o.aliases), o.aliases))
    + (if o.defaultNs != "" then [("xmlns", o.defaultNs)] else [])
    + Entries(order(at, OfAttributes, o.attributes), o.attributes)
  }

  function WrittenName(o: XmlObject): string {
    if o.namespace != "" && !o.nsIsDefault then o.namespace + ":" + o.tagName else o.tagName
  }

  function TreeOf(o: XmlObject, order: Order, at: seq<nat>): Tree
    decreases o, 1
  {
    Tree(WrittenName(o), WrittenAttributes(o, order, at),
         KidsOf(o.nodes, order, at) + if o.content != "" then [Chars(o.content)] else [])
  }

  /** Children without a tag name are not printed at all. */
  function KidsOf(nodes: seq<XmlObject>, order: Order, at: seq<nat>): seq<Kid>
    decreases nodes, 0
  {
    if nodes == [] then []
    else
      (if nodes[0].IsValid() then [Child(TreeOf(nodes[0], order, at + [CountNamed(nodes[1..])]))] else [])
      + KidsOf(nodes[1..], order, at)
  }

  /** Whole objects whose names can be written as XML names. */
  predicate Writable(o: XmlObject)
    decreases o, 1
  {
    && o.part == All && o.tagName != "" && IsName(WrittenName(o))
    && (forall k :: k in o.aliases ==> IsName(k))
    && (forall k :: k in o.attributes ==> IsName(k))
    && WritableNodes(o.nodes)
  }

  predicate WritableNodes(nodes: seq<XmlObject>)
    decreases nodes, 0
  {
    nodes != [] ==> (nodes[0].IsValid() ==> Writable(nodes[0])) && WritableNodes(nodes[1..])
  }

  /** No attribute is named like a declaration that is written beside it. */
  predicate TagDistinct(o: XmlObject) {
    && (o.defaultNs != "" ==> "xmlns" !in o.attributes)
    && (forall a :: a in o.aliases ==> "xmlns:" + a !in o.attributes)
  }

  predicate NoRepeats(o: XmlObject)
    decreases o, 1
  {
    TagDistinct(o) && NoRepeatsIn(o.nodes)
  }

  predicate NoRepeatsIn(nodes: seq<XmlObject>)
    decreases nodes, 0
  {
    nodes != [] ==> (nodes[0].IsValid() ==> NoRepeats(nodes[0])) && NoRepeatsIn(nodes[1..])
  }

  predicate AttributeNames(p: Pairs) {
    forall i :: 0 <= i < |p| ==> Unmarked(p[i].0)
  }

  // ---------- Tokenizing what was printed ----------

  lemma ReadAttributeAt(s: string, eq: nat, quote: nat)
    requires 1 <= eq && eq + 2 <= quote < |s| && s[0] == ' '
    requires '=' !in s[1..eq] && s[eq] == '=' && s[eq + 1] == '\''
    requires '\'' !in s[eq + 2..quote] && s[quote] == '\'' && Unescape(s[eq + 2..quote]).Some?
    ensures ReadAttribute(s) == Some(((s[1..eq], Unescape(s[eq + 2..quote]).value), s[quote + 1..]))
  {
    FindIs(s, '=', 1, eq);
    FindIs(s, '\'', eq + 2, quote);
  }

  /** Where the parts of ` name='value'` are, for any pieces of these lengths. */
  lemma PairSlices(s: string, a: string, name: string, b: string, e: string, c: string, rest: string)
    requires |a| == 1 && |b| == 2 && |c| == 1 && s == a + name + b + e + c + rest
    ensures |s| > |name| + |e| + 3 && s[0] == a[0] && s[1..1 + |name|] == name
    ensures s[1 + |name|] == b[0] && s[2 + |name|] == b[1] && s[3 + |name|..3 + |name| + |e|] == e
    ensures s[3 + |name| + |e|] == c[0] && s[4 + |name| + |e|..] == rest
  {
  }

  lemma NameHas(name: string, c: char)
    requires Unmarked(name) && !Harmless(c)
    ensures c !in name
  {
  }

  lemma ReadPiece(s: string, name: string, e: string, value: string, rest: string)
    requires s == " " + name + "='" + e + "'" + rest
    requires '=' !in name && '\'' !in e && Unescape(e) == Some(value)
    ensures ReadAttribute(s) == Some(((name, value), rest))
  {
    PairSlices(s, " ", name, "='", e, "'", rest);
    ReadAttributeAt(s, 1 + |name|, 3 + |name| + |e|);
  }

  lemma ReadPair(name: string, value: string, rest: string)
    requires Unmarked(name)
    ensures ReadAttribute(PrintPair(" ", name, value) + rest) == Some(((name, value), rest))
  {
    EscapeName(name);
    EscapedHasNoMarkup(value);
    UnescapeEscape(value);
    NameHas(name, '=');
    ReadPiece(PrintPair(" ", name, value) + rest, name, Escape(value), value, rest);
  }

  /** One more attribute is read. */
  lemma ReadAnother(s: string, attribute: (string, string), more: string, p: Pairs, rest: string)
    requires s != "" && s[0] == ' ' && ReadAttribute(s) == Some((attribute, more))
    requires ReadAttributes(more) == Some((p, rest))
    ensures ReadAttributes(s) == Some(([attribute] + p, rest))
  {
  }

  lemma {:induction false} ReadPairs(p: Pairs, rest: string)
    requires AttributeNames(p) && (rest == "" || rest[0] != ' ')
    ensures ReadAttributes(PrintPairs(" ", p) + rest) == Some((p, rest))
  {
    if p == [] {
      assert PrintPairs(" ", p) + rest == rest;
    } else {
      var more := PrintPairs(" ", p[1..]) + rest;
      Assoc(PrintPair(" ", p[0].0, p[0].1), PrintPairs(" ", p[1..]), rest);
      ReadPair(p[0].0, p[0].1, more);
      ReadPairs(p[1..], rest);
      ReadAnother(PrintPairs(" ", p) + rest, p[0], more, p[1..], rest);
      assert p == [p[0]] + p[1..];
    }
  }

  lemma {:induction false} PrintPairsConcat(prefix: string, p: Pairs, q: Pairs)
    ensures PrintPairs(prefix, p + q) == PrintPairs(prefix, p) + PrintPairs(prefix, q)
  {
    if p == [] {
      assert p + q == q;
    } else {
      assert (p + q)[1..] == p[1..] + q;
      PrintPairsConcat(prefix, p[1..], q);
    }
  }

  lemma EscapePrefixed(prefix: string, name: string)
    requires Unmarked(prefix)
    ensures Escape(prefix + name) == prefix + Escape(name)
  {
    EscapeConcat(prefix, name);
    EscapeName(prefix);
  }

  lemma PrintNamedPair(name: string, value: string)
    ensures PrintPair(" xmlns:", name, value) == PrintPair(" ", "xmlns:" + name, value)
  {
    EscapePrefixed("xmlns:", name);
    assert " xmlns:" + Escape(name) == " " + ("xmlns:" + Escape(name));
  }

  lemma {:induction false} PrintNamed(p: Pairs)
    ensures PrintPairs(" xmlns:", p) == PrintPairs(" ", Prefixed("xmlns:", p))
  {
    if p != [] {
      PrintNamed(p[1..]);
      assert Prefixed("xmlns:", p)[1..] == Prefixed("xmlns:", p[1..]);
      PrintNamedPair(p[0].0, p[0].1);
    }
  }

  lemma PrintOwn(value: string)
    ensures PrintPairs(" ", [("xmlns", value)]) == " " + "xmlns" + "='" + Escape(value) + "'"
  {
    EscapeName("xmlns");
    assert [("xmlns", value)][1..] == [];
  }

  lemma PrintWritten(o: XmlObject, order: Order, at: seq<nat>)
    requires Writable(o)
    ensures PrintAttributes(o, order, at) == PrintPairs(" ", WrittenAttributes(o, order, at))
  {
    var aliases := Entries(order(at, OfAliases, o.aliases), o.aliases);
    var own: Pairs := if o.defaultNs != "" then [("xmlns", o.defaultNs)] else [];
    var attributes := Entries(order(at, OfAttributes, o.attributes), o.attributes);
    PrintNamed(aliases);
    EscapedHasNoMarkup(o.defaultNs);
    PrintOwn(o.defaultNs);
    PrintPairsConcat(" ", Prefixed("xmlns:", aliases) + own, attributes);
    PrintPairsConcat(" ", Prefixed("xmlns:", aliases), own);
  }

  lemma PrintedTag(o: XmlObject)
    requires Unmarked(WrittenName(o))
    ensures PrintTag(o) == WrittenName(o)
  {
    EscapedHasNoMarkup(o.namespace);
    EscapeName(WrittenName(o));
    if o.namespace != "" && !o.nsIsDefault {
      var w := WrittenName(o);
      assert forall i :: 0 <= i < |o.namespace| ==> w[i] == o.namespace[i];
      assert forall i :: 0 <= i < |o.tagName| ==> w[|o.namespace| + 1 + i] == o.tagName[i];
      EscapeName(o.namespace);
      EscapeName(o.tagName);
    }
  }

  lemma TokenizeText(data: string, rest: string)
    requires data != "" && (rest == "" || rest[0] == '<')
    ensures Tokenize(Escape(data) + rest) == Then([Text(data)], Tokenize(rest))
  {
    var e := Escape(data);
    EscapedHasNoMarkup(data);
    UnescapeEscape(data);
    if rest == "" {
      FindIs(e + rest, '<', 0, |e|);
    } else {
      FindHead(e, rest, '<');
    }
    assert (e + rest)[..|e|] == e && (e + rest)[|e|..] == rest;
    assert e[0] == (e + rest)[0];
  }

  lemma TokenizeEnd(name: string, rest: string)
    requires Unmarked(name)
    ensures Tokenize("</" + name + ">" + rest) == Then([EndElement(name)], Tokenize(rest))
  {
    var s := "</" + name + ">" + rest;
    var n := 2 + |name|;
    assert s[2..n] == name && s[n] == '>' && s[n + 1..] == rest;
    NameHas(name, '>');
    FindIs(s, '>', 2, n);
  }

  lemma TokenizeStartAt(s: string, name: string, p: Pairs, after: string)
    requires Unmarked(name) && name != "" && AttributeNames(p)
    requires after != "" && (after[0] == '>' || after[0] == '/')
    requires s == ['<'] + (name + (PrintPairs(" ", p) + after))
    ensures s[0] == '<' && s[1] != '/' && NameLength(s[1..]) == |name| && s[1..][..|name|] == name
    ensures ReadAttributes(s[1..][|name|..]) == Some((p, after))
  {
    var rest := PrintPairs(" ", p) + after;
    assert s[1..] == name + rest;
    assert s[1] == name[0] && Harmless(name[0]);
    assert EndsName(rest[0]) by {
      if p == [] {
        assert rest == after;
      } else {
        assert PrintPairs(" ", p)[0] == ' ';
      }
    }
    NameLengthIs(name, rest);
    assert (name + rest)[..|name|] == name && (name + rest)[|name|..] == rest;
    ReadPairs(p, after);
  }

  lemma Regroup(a: string, b: string, c: string, d: string, e: string)
    ensures a + b + c + d + e == a + (b + (c + (d + e)))
  {
  }

  lemma TokenizeStart(name: string, p: Pairs, rest: string)
    requires Unmarked(name) && name != "" && AttributeNames(p)
    ensures Tokenize("<" + name + PrintPairs(" ", p) + ">" + rest)
         == if DistinctNames(p) then Then([StartElement(name, p)], Tokenize(rest)) else None
  {
    var s := "<" + name + PrintPairs(" ", p) + ">" + rest;
    Regroup("<", name, PrintPairs(" ", p), ">", rest);
    TokenizeStartAt(s, name, p, ">" + rest);
    assert (">" + rest)[1..] == rest;
  }

  lemma TokenizeEmpty(name: string, p: Pairs, rest: string)
    requires Unmarked(name) && name != "" && AttributeNames(p)
    ensures Tokenize("<" + name + PrintPairs(" ", p) + "/>" + rest)
         == if DistinctNames(p) then Then([StartElement(name, p), EndElement(name)], Tokenize(rest)) else None
  {
    var s := "<" + name + PrintPairs(" ", p) + "/>" + rest;
    Regroup("<", name, PrintPairs(" ", p), "/>", rest);
    TokenizeStartAt(s, name, p, "/>" + rest);
    assert ("/>" + rest)[2..] == rest;
  }

  // ---------- Lexemes ----------

  /** The pieces printed markup consists of. */
  datatype Lexeme =
    | StartTag(name: string, attributes: Pairs)
    | EmptyTag(name: string, attributes: Pairs)
    | EndTag(name: string)
    | TextRun(data: string)

  function Written(l: Lexeme): string {
    match l
    case StartTag(name, p) => "<" + name + PrintPairs(" ", p) + ">"
    case EmptyTag(name, p) => "<" + name + PrintPairs(" ", p) + "/>"
    case EndTag(name) => "</" + name + ">"
    case TextRun(data) => Escape(data)
  }

  function EventsOf(l: Lexeme): seq<Event> {
    match l
    case StartTag(name, p) => [StartElement(name, p)]
    case EmptyTag(name, p) => [StartElement(name, p), EndElement(name)]
    case EndTag(name) => [EndElement(name)]
    case TextRun(data) => [Text(data)]
  }

  /** A tag that repeats an attribute name. */
  predicate Repeats(l: Lexeme) {
    match l
    case StartTag(_, p) => !DistinctNames(p)
    case EmptyTag(_, p) => !DistinctNames(p)
    case _ => false
  }

  predicate NoneRepeats(ls: seq<Lexeme>) {
    ls != [] ==> !Repeats(ls[0]) && NoneRepeats(ls[1..])
  }

  predicate LexemeOk(l: Lexeme) {
    match l
    case StartTag(name, p) => Unmarked(name) && name != "" && AttributeNames(p)
    case EmptyTag(name, p) => Unmarked(name) && name != "" && AttributeNames(p)
    case EndTag(name) => Unmarked(name)
    case TextRun(data) => data != ""
  }

  /** Text runs are maximal. */
  predicate LexemesOk(ls: seq<Lexeme>) {
    (forall i :: 0 <= i < |ls| ==> LexemeOk(ls[i]))
    && (forall i :: 0 <= i < |ls| - 1 ==> !(ls[i].TextRun? && ls[i + 1].TextRun?))
  }

  function AllWritten(ls: seq<Lexeme>): string {
    if ls == [] then "" else Written(ls[0]) + AllWritten(ls[1..])
  }

  function AllEvents(ls: seq<Lexeme>): seq<Event> {
    if ls == [] then [] else EventsOf(ls[0]) + AllEvents(ls[1..])
  }

  lemma AllCons(l: Lexeme, ls: seq<Lexeme>)
    ensures AllWritten([l] + ls) == Written(l) + AllWritten(ls) && AllEvents([l] + ls) == EventsOf(l) + AllEvents(ls)
  {
    assert ([l] + ls)[1..] == ls;
  }

  lemma {:induction false} AllConcat(a: seq<Lexeme>, b: seq<Lexeme>)
    ensures AllWritten(a + b) == AllWritten(a) + AllWritten(b)
    ensures AllEvents(a + b) == AllEvents(a) + AllEvents(b)
  {
    if a == [] {
      assert a + b == b;
    } else {
      assert a + b == [a[0]] + (a[1..] + b);
      AllCons(a[0], a[1..] + b);
      AllConcat(a[1..], b);
      Assoc(Written(a[0]), AllWritten(a[1..]), AllWritten(b));
      Assoc(EventsOf(a[0]), AllEvents(a[1..]), AllEvents(b));
    }
  }

  lemma TokenizeLexeme(l: Lexeme, rest: string)
    requires LexemeOk(l) && (l.TextRun? ==> rest == "" || rest[0] == '<')
    ensures Tokenize(Written(l) + rest) == if Repeats(l) then None else Then(EventsOf(l), Tokenize(rest))
  {
    match l
    case StartTag(name, p) => TokenizeStart(name, p, rest);
    case EmptyTag(name, p) => TokenizeEmpty(name, p, rest);
    case EndTag(name) => TokenizeEnd(name, rest);
    case TextRun(data) => TokenizeText(data, rest);
  }

  lemma MarkupStart(ls: seq<Lexeme>)
    requires ls != [] && !ls[0].TextRun?
    ensures AllWritten(ls) != "" && AllWritten(ls)[0] == '<'
  {
    assert Written(ls[0])[0] == '<';
  }

  /** The tokenizer splits printed markup into exactly its lexemes, unless a tag repeats a name. */
  lemma {:induction false} TokenizeLexemes(ls: seq<Lexeme>)
    requires LexemesOk(ls)
    ensures Tokenize(AllWritten(ls)) == if NoneRepeats(ls) then Some(AllEvents(ls)) else None
  {
    if ls != [] {
      if |ls| >= 2 && ls[0].TextRun? {
        MarkupStart(ls[1..]);
      }
      assert LexemesOk(ls[1..]);
      TokenizeLexemes(ls[1..]);
      TokenizeLexeme(ls[0], AllWritten(ls[1..]));
    }
  }

  // ---------- The lexemes of an object ----------

  function LexemesOf(o: XmlObject, order: Order, at: seq<nat>): seq<Lexeme>
    decreases o, 1
  {
    if o.nodes == [] && o.content == "" then [EmptyTag(WrittenName(o), WrittenAttributes(o, order, at))]
    else
      var text := if o.content != "" then [TextRun(o.content)] else [];
      [StartTag(WrittenName(o), WrittenAttributes(o, order, at))]
      + (LexemesOfNodes(o.nodes, order, at) + text) + [EndTag(WrittenName(o))]
  }

  function LexemesOfNodes(nodes: seq<XmlObject>, order: Order, at: seq<nat>): seq<Lexeme>
    decreases nodes, 0
  {
    if nodes == [] then []
    else
      (if nodes[0].IsValid() then LexemesOf(nodes[0], order, at + [CountNamed(nodes[1..])]) else [])
      + LexemesOfNodes(nodes[1..], order, at)
  }

  lemma WrittenNames(o: XmlObject, order: Order, at: seq<nat>)
    requires Writable(o) && IsOrder(order)
    ensures AttributeNames(WrittenAttributes(o, order, at))
  {
    assert Enumerates(order(at, OfAliases, o.aliases), o.aliases);
    assert Enumerates(order(at, OfAttributes, o.attributes), o.attributes);
    var keys := order(at, OfAliases, o.aliases);
    forall i | 0 <= i < |keys| ensures Unmarked("xmlns:" + keys[i]) {
      assert keys[i] in keys;
    }
    var names := order(at, OfAttributes, o.attributes);
    forall i | 0 <= i < |names| ensures Unmarked(names[i]) {
      assert names[i] in names;
    }
  }

  lemma PrintForm(o: XmlObject, order: Order, at: seq<nat>)
    requires Writable(o)
    ensures Print(o, order, at) == PrintElement(WrittenName(o), PrintPairs(" ", WrittenAttributes(o, order, at)),
      o.nodes == [] && o.content == "", PrintNodes(o.nodes, order, at) + Escape(o.content))
  {
    PrintWritten(o, order, at);
    PrintedTag(o);
  }

  lemma AllOne(l: Lexeme)
    ensures AllWritten([l]) == Written(l) && AllEvents([l]) == EventsOf(l)
  {
    assert [l][1..] == [];
  }

  lemma {:induction false} LexemesPrinted(o: XmlObject, order: Order, at: seq<nat>)
    requires Writable(o) && IsOrder(order)
    ensures AllWritten(LexemesOf(o, order, at)) == Print(o, order, at)
    ensures AllEvents(LexemesOf(o, order, at)) == Flatten(TreeOf(o, order, at))
    decreases o, 1
  {
    PrintForm(o, order, at);
    var name, p := WrittenName(o), WrittenAttributes(o, order, at);
    if o.nodes == [] && o.content == "" {
      AllOne(EmptyTag(name, p));
    } else {
      var inner := LexemesOfNodes(o.nodes, order, at) + (if o.content != "" then [TextRun(o.content)] else []);
      LexemesBody(o, order, at);
      AllOne(StartTag(name, p));
      AllOne(EndTag(name));
      AllConcat([StartTag(name, p)] + inner, [EndTag(name)]);
      AllConcat([StartTag(name, p)], inner);
      Assoc(Written(StartTag(name, p)), AllWritten(inner), Written(EndTag(name)));
    }
  }

  lemma {:induction false} LexemesBody(o: XmlObject, order: Order, at: seq<nat>)
    requires WritableNodes(o.nodes) && IsOrder(order)
    ensures var inner := LexemesOfNodes(o.nodes, order, at) + (if o.content != "" then [TextRun(o.content)] else []);
      AllWritten(inner) == PrintNodes(o.nodes, order, at) + Escape(o.content)
      && AllEvents(inner) == FlattenKids(TreeOf(o, order, at).kids)
    decreases o, 0
  {
    LexemesOfNodesPrinted(o.nodes, order, at);
    AllConcat(LexemesOfNodes(o.nodes, order, at), if o.content != "" then [TextRun(o.content)] else []);
    if o.content != "" {
      AllOne(TextRun(o.content));
      FlattenKidsConcat(KidsOf(o.nodes, order, at), [Chars(o.content)]);
      assert FlattenKids([Chars(o.content)]) == [Text(o.content)];
    } else {
      assert KidsOf(o.nodes, order, at) + [] == KidsOf(o.nodes, order, at);
    }
  }

  lemma {:induction false} LexemesOfNodesPrinted(nodes: seq<XmlObject>, order: Order, at: seq<nat>)
    requires WritableNodes(nodes) && IsOrder(order)
    ensures AllWritten(LexemesOfNodes(nodes, order, at)) == PrintNodes(nodes, order, at)
    ensures AllEvents(LexemesOfNodes(nodes, order, at)) == FlattenKids(KidsOf(nodes, order, at))
    decreases nodes, 0
  {
    if nodes != [] {
      LexemesOfNodesPrinted(nodes[1..], order, at);
      if nodes[0].IsValid() {
        var t := TreeOf(nodes[0], order, at + [CountNamed(nodes[1..])]);
        LexemesPrinted(nodes[0], order, at + [CountNamed(nodes[1..])]);
        AllConcat(LexemesOf(nodes[0], order, at + [CountNamed(nodes[1..])]), LexemesOfNodes(nodes[1..], order, at));
        FlattenKidsConcat([Child(t)], KidsOf(nodes[1..], order, at));
        assert FlattenKids([Child(t)]) == Flatten(t);
      } else {
        AllConcat([], LexemesOfNodes(nodes[1..], order, at));
        assert KidsOf(nodes, order, at) == KidsOf(nodes[1..], order, at);
      }
    }
  }

  lemma {:induction false} FlattenKidsConcat(a: seq<Kid>, b: seq<Kid>)
    ensures FlattenKids(a + b) == FlattenKids(a) + FlattenKids(b)
  {
    if a == [] {
      assert a + b == b;
    } else {
      assert (a + b)[1..] == a[1..] + b;
      FlattenKidsConcat(a[1..], b);
    }
  }

  lemma {:induction false} LexemesOfOk(o: XmlObject, order: Order, at: seq<nat>)
    requires Writable(o) && IsOrder(order)
    ensures var ls := LexemesOf(o, order, at); LexemesOk(ls) && ls != [] && !ls[0].TextRun? && !ls[|ls| - 1].TextRun?
    decreases o, 1
  {
    WrittenNames(o, order, at);
    LexemesOfNodesOk(o.nodes, order, at);
    if o.nodes != [] || o.content != "" {
      WrappedOk(WrittenName(o), WrittenAttributes(o, order, at), LexemesOfNodes(o.nodes, order, at), o.content);
    }
  }

  lemma WrappedOk(name: string, p: Pairs, inner: seq<Lexeme>, content: string)
    requires LexemesOk(inner) && (inner != [] ==> !inner[|inner| - 1].TextRun?)
    requires Unmarked(name) && name != "" && AttributeNames(p)
    ensures LexemesOk([StartTag(name, p)] + (inner + if content != "" then [TextRun(content)] else []) + [EndTag(name)])
  {
  }

  lemma {:induction false} LexemesOfNodesOk(nodes: seq<XmlObject>, order: Order, at: seq<nat>)
    requires WritableNodes(nodes) && IsOrder(order)
    ensures var ls := LexemesOfNodes(nodes, order, at);
      LexemesOk(ls) && (ls != [] ==> !ls[0].TextRun? && !ls[|ls| - 1].TextRun?)
    decreases nodes, 0
  {
    if nodes != [] {
      LexemesOfNodesOk(nodes[1..], order, at);
      if nodes[0].IsValid() {
        LexemesOfOk(nodes[0], order, at + [CountNamed(nodes[1..])]);
      }
    }
  }

  // ---------- Repeated names ----------

  /** Two enumerations and an entry between them, as far as names go. */
  lemma JoinedDistinct(a: Pairs, own: Pairs, b: Pairs)
    requires DistinctNames(a) && DistinctNames(b) && |own| <= 1
    requires forall i :: 0 <= i < |a| && own != [] ==> a[i].0 != own[0].0
    ensures DistinctNames(a + own + b) <==>
              (forall i, j :: 0 <= i < |a| && 0 <= j < |b| ==> a[i].0 != b[j].0)
              && (own != [] ==> forall j :: 0 <= j < |b| ==> own[0].0 != b[j].0)
  {
    var p, n := a + own + b, |a| + |own|;
    if DistinctNames(p) {
      forall i, j | 0 <= i < |a| && 0 <= j < |b| ensures a[i].0 != b[j].0 {
        assert p[i] == a[i] && p[n + j] == b[j];
      }
      if own != [] {
        forall j | 0 <= j < |b| ensures own[0].0 != b[j].0 {
          assert p[|a|] == own[0] && p[n + j] == b[j];
        }
      }
    }
  }

  lemma WrittenDistinct(o: XmlObject, order: Order, at: seq<nat>)
    requires IsOrder(order)
    ensures DistinctNames(WrittenAttributes(o, order, at)) <==> TagDistinct(o)
  {
    var keys, names := order(at, OfAliases, o.aliases), order(at, OfAttributes, o.attributes);
    assert Enumerates(keys, o.aliases) && Enumerates(names, o.attributes);
    var a, b := Prefixed("xmlns:", Entries(keys, o.aliases)), Entries(names, o.attributes);
    var own: Pairs := if o.defaultNs != "" then [("xmlns", o.defaultNs)] else [];
    forall i, j | 0 <= i < j < |a| ensures a[i].0 != a[j].0 {
      assert a[i].0[6..] == keys[i] && a[j].0[6..] == keys[j];
    }
    forall i | 0 <= i < |a| && own != [] ensures a[i].0 != own[0].0 {
      assert a[i].0[5] == ':';
    }
    JoinedDistinct(a, own, b);
    if DistinctNames(a + own + b) {
      forall k | k in o.aliases ensures "xmlns:" + k !in o.attributes {
        var i :| 0 <= i < |keys| && keys[i] == k;
        assert a[i].0 == "xmlns:" + k;
        assert forall j :: 0 <= j < |names| ==> names[j] == b[j].0;
        assert a[i].0 !in names;
      }
      if o.defaultNs != "" {
        assert forall j :: 0 <= j < |names| ==> names[j] == b[j].0;
        assert own[0].0 !in names;
      }
    } else {
      assert !TagDistinct(o) by {
        if i, j :| 0 <= i < |a| && 0 <= j < |b| && a[i].0 == b[j].0 {
          assert keys[i] in o.aliases && names[j] in o.attributes;
        } else {
          var j :| 0 <= j < |b| && own != [] && own[0].0 == b[j].0;
          assert names[j] in o.attributes;
        }
      }
    }
  }

  lemma {:induction false} NoneRepeatsConcat(a: seq<Lexeme>, b: seq<Lexeme>)
    ensures NoneRepeats(a + b) <==> NoneRepeats(a) && NoneRepeats(b)
  {
    if a == [] {
      assert a + b == b;
    } else {
      assert (a + b)[1..] == a[1..] + b;
      NoneRepeatsConcat(a[1..], b);
    }
  }

  lemma {:induction false} LexemesRepeat(o: XmlObject, order: Order, at: seq<nat>)
    requires IsOrder(order)
    ensures NoneRepeats(LexemesOf(o, order, at)) <==> NoRepeats(o)
    decreases o, 1
  {
    var name, p := WrittenName(o), WrittenAttributes(o, order, at);
    WrittenDistinct(o, order, at);
    LexemesOfNodesRepeat(o.nodes, order, at);
    if o.nodes == [] && o.content == "" {
      assert [EmptyTag(name, p)][1..] == [];
    } else {
      var text := if o.content != "" then [TextRun(o.content)] else [];
      var inner := LexemesOfNodes(o.nodes, order, at) + text;
      NoneRepeatsConcat(LexemesOfNodes(o.nodes, order, at), text);
      NoneRepeatsConcat([StartTag(name, p)] + inner, [EndTag(name)]);
      NoneRepeatsConcat([StartTag(name, p)], inner);
      assert [StartTag(name, p)][1..] == [] && [EndTag(name)][1..] == [] && (text != [] ==> text[1..] == []);
    }
  }

  lemma {:induction false} LexemesOfNodesRepeat(nodes: seq<XmlObject>, order: Order, at: seq<nat>)
    requires IsOrder(order)
    ensures NoneRepeats(LexemesOfNodes(nodes, order, at)) <==> NoRepeatsIn(nodes)
    decreases nodes, 0
  {
    if nodes != [] {
      LexemesOfNodesRepeat(nodes[1..], order, at);
      if nodes[0].IsValid() {
        LexemesRepeat(nodes[0], order, at + [CountNamed(nodes[1..])]);
        NoneRepeatsConcat(LexemesOf(nodes[0], order, at + [CountNamed(nodes[1..])]),
                          LexemesOfNodes(nodes[1..], order, at));
      } else {
        assert [] + LexemesOfNodes(nodes[1..], order, at) == LexemesOfNodes(nodes[1..], order, at);
      }
    }
  }

  /** Tokenizing what to_string prints gives the events of the object's tree, unless some tag repeats an
      attribute name: to_string writes those, too, and they are rejected. */
  lemma TokenizePrinted(o: XmlObject, order: Order, at: seq<nat>)
    requires Writable(o) && IsOrder(order)
    ensures Tokenize(Print(o, order, at)) == if NoRepeats(o) then Some(Flatten(TreeOf(o, order, at))) else None
  {
    LexemesPrinted(o, order, at);
    LexemesOfOk(o, order, at);
    LexemesRepeat(o, order, at);
    TokenizeLexemes(LexemesOf(o, order, at));
  }

  // ---------- The parts of an object ----------

  lemma PartsPrinted(o: XmlObject, order: Order, at: seq<nat>)
    requires Writable(o) && IsOrder(order)
    ensures var name, p := WrittenName(o), WrittenAttributes(o, order, at);
      && Print(o.(part := Part.Start), order, at) == "<" + name + PrintPairs(" ", p) + ">"
      && Print(o.(part := Part.End), order, at) == "</" + name + ">"
  {
    PartForms(o, order, at);
    PrintWritten(o, order, at);
    PrintedTag(o);
  }

  lemma TagsTokenize(name: string, p: Pairs)
    requires Unmarked(name) && name != "" && AttributeNames(p)
    ensures Tokenize("<" + name + PrintPairs(" ", p) + ">" + ("</" + name + ">"))
         == if DistinctNames(p) then Some([StartElement(name, p), EndElement(name)]) else None
  {
    TokenizeStart(name, p, "</" + name + ">");
    TokenizeEnd(name, "");
    assert "</" + name + ">" + "" == "</" + name + ">";
    assert Tokenize("") == Some([]);
    assert [StartElement(name, p)] + ([EndElement(name)] + []) == [StartElement(name, p), EndElement(name)];
  }

  /** The start part of an object reads as its start tag, with all declarations and attributes, and the
      end part as its end tag; together they are what an object without content is. */
  lemma StartThenEnd(o: XmlObject, order: Order, at: seq<nat>)
    requires Writable(o) && IsOrder(order)
    ensures var name, p := WrittenName(o), WrittenAttributes(o, order, at);
      Tokenize(Print(o.(part := Part.Start), order, at) + Print(o.(part := Part.End), order, at))
      == if TagDistinct(o) then Some([StartElement(name, p), EndElement(name)]) else None
    ensures o.nodes == [] && o.content == "" && TagDistinct(o) ==>
      Tokenize(Print(o.(part := Part.Start), order, at) + Print(o.(part := Part.End), order, at))
      == Some(Flatten(TreeOf(o, order, at)))
  {
    var name, p := WrittenName(o), WrittenAttributes(o, order, at);
    PartsPrinted(o, order, at);
    WrittenNames(o, order, at);
    WrittenDistinct(o, order, at);
    TagsTokenize(name, p);
    if o.nodes == [] && o.content == "" {
      assert TreeOf(o, order, at).kids == [];
      assert [StartElement(name, p)] + [] + [EndElement(name)] == [StartElement(name, p), EndElement(name)];
    }
  }

  /** The body part unescapes to the content. */
  lemma BodyIsContent(o: XmlObject, order: Order, at: seq<nat>)
    requires o.tagName != ""
    ensures Unescape(Print(o.(part := Part.Body), order, at)) == Some(o.content)
  {
    UnescapeEscape(o.content);
  }
}
