/** What a written element means: namespaces resolved with an environment that is passed down the
    tree (section 6 of Namespaces in XML 1.0), with the differences the parser's code makes. */
module XmlMeaning {
  import opened Sequences
  import opened Strings
  import opened Xml
  import opened XmlSyntax

  /** The default namespace and the prefixes in scope. */
  datatype Env = Env(defaultNs: string, aliases: map<string, string>)

  /** Entries without a value mean nothing. */
  function Clean(m: map<string, string>): map<string, string> {
    map k | k in m && m[k] != "" :: m[k]
  }

  function Extend(env: Env, defaultNs: string, aliases: map<string, string>): Env {
    Env(if defaultNs != "" then defaultNs else env.defaultNs, env.aliases + Clean(aliases))
  }

  /** The scope of an element's children, from what the element itself declares. */
  function Inner(env: Env, tag: OpenTag): Env {
    Extend(env, tag.defaultNs, tag.aliases)
  }

  // ---------- A start tag on its own ----------

  /** The object a start tag describes before its namespace is resolved, and what it declares. */
  datatype OpenTag = OpenTag(obj: XmlObject, defaultNs: string, aliases: map<string, string>)

  /** parse_xml_tag_name: split at the last ':'. */
  function SplitName(name: string): (string, string) {
    var pos := FindLast(name, ':');
    if pos == |name| then (name, "") else (name[pos + 1..], name[..pos])
  }

  const XMLNS := "xmlns"
  const XMLNS_PREFIX := "xmlns:"

  /** One attribute of parse_xml_attributes. */
  function AddAttribute(e: OpenTag, name: string, value: string): OpenTag {
    if name == XMLNS then
      if value == "" then e
      else
        var ns := if e.obj.namespace == "" then value else e.obj.namespace;
        e.(defaultNs := value,
           obj := e.obj.(defaultNs := value, namespace := ns, nsIsDefault := e.obj.nsIsDefault || value == ns))
    else if XMLNS_PREFIX <= name then
      var alias := name[6..];
      if value == "" || alias == "" then e else e.(aliases := e.aliases[alias := value])
    else e.(obj := e.obj.SetAttribute(name, value))
  }

  function AddAttributes(e: OpenTag, attributes: Pairs): OpenTag {
    if attributes == [] then e
    else
      var last := |attributes| - 1;
      AddAttribute(AddAttributes(e, attributes[..last]), attributes[last].0, attributes[last].1)
  }

  function Named(name: string): XmlObject {
    EMPTY.(tagName := SplitName(name).0, namespace := SplitName(name).1)
  }

  function Open(name: string, attributes: Pairs): OpenTag {
    AddAttributes(OpenTag(Named(name), "", map[]), attributes)
  }

  // ---------- Resolution ----------

  /** normalize_namespace: no namespace yet means the default one; any other is taken as a prefix if
      it is declared, even when it came from an xmlns attribute. */
  function ResolveWith(o: XmlObject, defaultNs: string, alias: string): XmlObject {
    if o.namespace == "" then
      if defaultNs == "" then o else o.(namespace := defaultNs, nsIsDefault := true)
    else if alias == "" then o
    else o.(namespace := alias, nsIsDefault := o.nsIsDefault || (defaultNs != "" && defaultNs == o.defaultNs))
  }

  function Resolve(o: XmlObject, env: Env): XmlObject {
    ResolveWith(o, env.defaultNs, LookUp(env.aliases, o.namespace))
  }

  /** The text directly inside an element, however it is split. */
  function TextOf(kids: seq<Kid>): string {
    if kids == [] then "" else TextOfKid(kids[0]) + TextOf(kids[1..])
  }

  function TextOfKid(kid: Kid): string {
    if kid.Chars? then kid.data else ""
  }

  /** The object an element means in a scope. Its own prefixes are in scope for its children only. */
  function Meaning(t: Tree, env: Env): XmlObject
    decreases t, 1
  {
    var tag := Open(t.name, t.attributes);
    Resolve(tag.obj, env).(nodes := MeaningOfKids(t.kids, Inner(env, tag)), content := TextOf(t.kids))
  }

  function MeaningOfKids(kids: seq<Kid>, env: Env): seq<XmlObject>
    decreases kids, 0
  {
    if kids == [] then [] else MeaningOfKid(kids[0], env) + MeaningOfKids(kids[1..], env)
  }

  function MeaningOfKid(kid: Kid, env: Env): seq<XmlObject>
    decreases kid, 0
  {
    match kid
    case Child(t) => [Meaning(t, env)]
    case Chars(_) => []
  }

  lemma {:induction false} MeaningOfKidsConcat(a: seq<Kid>, b: seq<Kid>, env: Env)
    ensures MeaningOfKids(a + b, env) == MeaningOfKids(a, env) + MeaningOfKids(b, env)
    ensures TextOf(a + b) == TextOf(a) + TextOf(b)
  {
    if a == [] {
      assert a + b == b;
    } else {
      assert (a + b)[1..] == a[1..] + b;
      MeaningOfKidsConcat(a[1..], b, env);
      Assoc(MeaningOfKid(a[0], env), MeaningOfKids(a[1..], env), MeaningOfKids(b, env));
      Assoc(TextOfKid(a[0]), TextOf(a[1..]), TextOf(b));
    }
  }

  lemma OnlyText(x: string, env: Env)
    ensures TextOf([Chars(x)]) == x && MeaningOfKids([Chars(x)], env) == []
  {
    assert x + "" == x && [Chars(x)][1..] == [];
    assert MeaningOfKid(Chars(x), env) == [];
  }

  /** Splitting text differently does not change the meaning of an element. */
  lemma TextSplit(t: Tree, a: seq<Kid>, x: string, y: string, b: seq<Kid>, env: Env)
    requires t.kids == a + [Chars(x + y)] + b
    ensures Meaning(t.(kids := a + [Chars(x), Chars(y)] + b), env) == Meaning(t, env)
  {
    var inner := Inner(env, Open(t.name, t.attributes));
    MeaningOfKidsConcat(a + [Chars(x + y)], b, inner);
    MeaningOfKidsConcat(a, [Chars(x + y)], inner);
    MeaningOfKidsConcat(a + [Chars(x), Chars(y)], b, inner);
    MeaningOfKidsConcat(a, [Chars(x), Chars(y)], inner);
    MeaningOfKidsConcat([Chars(x)], [Chars(y)], inner);
    assert [Chars(x), Chars(y)] == [Chars(x)] + [Chars(y)];
    OnlyText(x, inner);
    OnlyText(y, inner);
    OnlyText(x + y, inner);
  }

  /** A tag never declares a prefix without a value. */
  lemma {:induction false} OpenIsClean(e: OpenTag, p: Pairs)
    requires Clean(e.aliases) == e.aliases
    ensures Clean(AddAttributes(e, p).aliases) == AddAttributes(e, p).aliases
  {
    if p != [] {
      OpenIsClean(e, p[..|p| - 1]);
      var a := AddAttributes(e, p[..|p| - 1]);
      assert forall k :: k in a.aliases ==> k in Clean(a.aliases);
    }
  }

  // ---------- Attribute order does not matter ----------

  /** The value of an attribute, or the empty string. */
  function ValueOf(p: Pairs, name: string): string {
    if p == [] then "" else if p[|p| - 1].0 == name then p[|p| - 1].1 else ValueOf(p[..|p| - 1], name)
  }

  predicate Declaration(name: string) {
    name == XMLNS || XMLNS_PREFIX <= name
  }

  function AliasName(alias: string): string {
    XMLNS_PREFIX + alias
  }

  ghost predicate HasName(p: Pairs, name: string) {
    exists i :: 0 <= i < |p| && p[i].0 == name
  }

  /** What the attribute loop computes, said without the loop: for distinct names (which XML
      guarantees) it depends only on the value of each name. */
  ghost predicate Describes(e: OpenTag, name: string, p: Pairs) {
    var prefix, own := SplitName(name).1, ValueOf(p, XMLNS);
    && e.defaultNs == own
    && e.obj == Named(name).(
         defaultNs := own,
         namespace := if prefix != "" then prefix else own,
         nsIsDefault := own != "" && (prefix == "" || prefix == own),
         attributes := e.obj.attributes)
    && (forall k :: k in e.obj.attributes <==> HasName(p, k) && !Declaration(k))
    && (forall k :: k in e.obj.attributes ==> e.obj.attributes[k] == ValueOf(p, k))
    && (forall a :: a in e.aliases <==> a != "" && ValueOf(p, AliasName(a)) != "")
    && (forall a :: a in e.aliases ==> e.aliases[a] == ValueOf(p, AliasName(a)))
  }

  lemma {:induction false} ValueOfSnoc(p: Pairs, name: string, value: string)
    requires NotNamed(p, name)
    ensures forall k :: ValueOf(p + [(name, value)], k) == if k == name then value else ValueOf(p, k)
    ensures forall k :: HasName(p + [(name, value)], k) <==> k == name || HasName(p, k)
    ensures ValueOf(p, name) == ""
  {
    var q := p + [(name, value)];
    assert q[..|q| - 1] == p;
    forall k ensures HasName(q, k) <==> k == name || HasName(p, k) {
      if HasName(p, k) {
        var i :| 0 <= i < |p| && p[i].0 == k;
        assert q[i].0 == k;
      }
      assert q[|p|].0 == name;
    }
    NoValue(p, name);
  }

  lemma {:induction false} NoValue(p: Pairs, name: string)
    requires NotNamed(p, name)
    ensures ValueOf(p, name) == ""
  {
    if p != [] {
      NoValue(p[..|p| - 1], name);
    }
  }

  lemma AliasNames(name: string)
    ensures XMLNS_PREFIX <= name ==> forall a :: AliasName(a) == name <==> a == name[6..]
    ensures !(XMLNS_PREFIX <= name) ==> forall a :: AliasName(a) != name
  {
  }

  predicate NotNamed(p: Pairs, name: string) {
    forall i :: 0 <= i < |p| ==> p[i].0 != name
  }

  lemma DescribesOwn(e: OpenTag, name: string, p: Pairs, value: string)
    requires Describes(e, name, p) && NotNamed(p, XMLNS)
    ensures Describes(AddAttribute(e, XMLNS, value), name, p + [(XMLNS, value)])
  {
    ValueOfSnoc(p, XMLNS, value);
    AliasNames(XMLNS);
  }

  lemma DescribesAlias(e: OpenTag, name: string, p: Pairs, attribute: string, value: string)
    requires Describes(e, name, p) && NotNamed(p, attribute) && XMLNS_PREFIX <= attribute
    ensures Describes(AddAttribute(e, attribute, value), name, p + [(attribute, value)])
  {
    ValueOfSnoc(p, attribute, value);
    AliasNames(attribute);
  }

  lemma DescribesPlain(e: OpenTag, name: string, p: Pairs, attribute: string, value: string)
    requires Describes(e, name, p) && NotNamed(p, attribute) && !Declaration(attribute)
    ensures Describes(AddAttribute(e, attribute, value), name, p + [(attribute, value)])
  {
    ValueOfSnoc(p, attribute, value);
    AliasNames(attribute);
  }

  lemma DescribesStep(e: OpenTag, name: string, p: Pairs, q: (string, string))
    requires Describes(e, name, p) && NotNamed(p, q.0)
    ensures Describes(AddAttribute(e, q.0, q.1), name, p + [q])
  {
    assert q == (q.0, q.1);
    if q.0 == XMLNS {
      DescribesOwn(e, name, p, q.1);
    } else if XMLNS_PREFIX <= q.0 {
      DescribesAlias(e, name, p, q.0, q.1);
    } else {
      DescribesPlain(e, name, p, q.0, q.1);
    }
  }

  lemma OpenNone(name: string)
    ensures Describes(Open(name, []), name, [])
  {
    assert Open(name, []) == OpenTag(Named(name), "", map[]);
  }

  lemma OpenSnoc(name: string, p: Pairs, q: (string, string))
    ensures Open(name, p + [q]) == AddAttribute(Open(name, p), q.0, q.1)
  {
    assert (p + [q])[..|p|] == p;
  }

  /** The attribute loop meets its description. */
  lemma {:induction false} OpenDescribes(name: string, p: Pairs)
    requires DistinctNames(p)
    ensures Describes(Open(name, p), name, p)
  {
    if p == [] {
      OpenNone(name);
    } else {
      var init, last := p[..|p| - 1], p[|p| - 1];
      assert p == init + [last];
      OpenDescribes(name, init);
      DescribesStep(Open(name, init), name, init, last);
      OpenSnoc(name, init, last);
    }
  }

  lemma {:induction false} ValueIs(p: Pairs, i: nat)
    requires DistinctNames(p) && i < |p|
    ensures ValueOf(p, p[i].0) == p[i].1
  {
    if i != |p| - 1 {
      ValueIs(p[..|p| - 1], i);
    }
  }

  /** The same attributes in another order open the same element. */
  lemma OrderIrrelevant(name: string, p: Pairs, q: Pairs)
    requires DistinctNames(p) && DistinctNames(q) && forall x :: x in p <==> x in q
    ensures Open(name, p) == Open(name, q)
  {
    OpenDescribes(name, p);
    OpenDescribes(name, q);
    forall k ensures ValueOf(p, k) == ValueOf(q, k) && (HasName(p, k) <==> HasName(q, k)) {
      SameValue(p, q, k);
      SameValue(q, p, k);
    }
    assert Open(name, p).obj.attributes == Open(name, q).obj.attributes;
    assert Open(name, p).aliases == Open(name, q).aliases;
  }

  lemma SameValue(p: Pairs, q: Pairs, k: string)
    requires DistinctNames(p) && DistinctNames(q) && forall x :: x in p ==> x in q
    ensures HasName(p, k) ==> HasName(q, k) && ValueOf(q, k) == ValueOf(p, k)
    ensures !HasName(p, k) ==> ValueOf(p, k) == ""
  {
    if HasName(p, k) {
      var i :| 0 <= i < |p| && p[i].0 == k;
      assert p[i] in q;
      var j :| 0 <= j < |q| && q[j] == p[i];
      ValueIs(p, i);
      ValueIs(q, j);
    } else {
      NoValue(p, k);
    }
  }
}
