/** Printing an object and parsing it back: exactly which objects come back unchanged. */
module XmlRoundTrip {
  import opened Strings
  import opened Xml
  import opened XmlSyntax
  import opened XmlMeaning
  import opened XmlMachine

  // ---------- The exact condition ----------

  /** Whether the namespace, printed as it is and resolved in env, comes out the same.
      A prefix must not equal the element's own xmlns and must not be declared as something else; an
      own xmlns must not be declared as a prefix for something else; otherwise the namespace must be
      the inherited one. */
  predicate NamespaceSurvives(o: XmlObject, env: Env) {
    var own := o.defaultNs;
    if o.namespace != "" && !o.nsIsDefault then
      var declared := LookUp(env.aliases, o.namespace);
      own != o.namespace
      && (declared == "" || (declared == o.namespace && !(env.defaultNs != "" && env.defaultNs == own)))
    else if own != "" then
      var declared := LookUp(env.aliases, own);
      o.nsIsDefault && o.namespace == if declared != "" then declared else own
    else o.namespace == env.defaultNs && o.nsIsDefault == (env.defaultNs != "")
  }

  predicate Faithful(o: XmlObject, env: Env)
    decreases o, 1
  {
    && ':' !in o.tagName
    && (forall k :: k in o.attributes ==> !Declaration(k))
    && o.aliases == map[]
    && NamespaceSurvives(o, env)
    && FaithfulNodes(o.nodes, Extend(env, o.defaultNs, map[]))
  }

  predicate FaithfulNodes(nodes: seq<XmlObject>, env: Env)
    decreases nodes, 0
  {
    nodes == [] || (nodes[0].IsValid() && Faithful(nodes[0], env) && FaithfulNodes(nodes[1..], env))
  }

  // ---------- The start tag ----------

  lemma {:induction false} KeepsNames(e: OpenTag, p: Pairs)
    requires forall k :: k in e.obj.attributes ==> !Declaration(k)
    ensures var o := AddAttributes(e, p).obj;
      o.tagName == e.obj.tagName && o.aliases == e.obj.aliases && o.part == e.obj.part
      && forall k :: k in o.attributes ==> !Declaration(k)
  {
    if p != [] {
      KeepsNames(e, p[..|p| - 1]);
    }
  }

  lemma SplitWritten(o: XmlObject)
    ensures var prefix := if o.namespace != "" && !o.nsIsDefault then o.namespace else "";
      ':' !in o.tagName ==> SplitName(WrittenName(o)) == (o.tagName, prefix)
    ensures ':' in o.tagName ==> SplitName(WrittenName(o)).0 != o.tagName
  {
    if ':' !in o.tagName && o.namespace != "" && !o.nsIsDefault {
      assert WrittenName(o) == o.namespace + [':'] + o.tagName;
      FindLastIs(o.namespace, ':', o.tagName);
      assert WrittenName(o)[|o.namespace| + 1..] == o.tagName;
      assert WrittenName(o)[..|o.namespace|] == o.namespace;
    }
  }

  /** With no aliases and no attribute that looks like a declaration, the written attributes are the
      xmlns attribute and the attributes. */
  predicate Plain(o: XmlObject) {
    o.aliases == map[] && forall k :: k in o.attributes ==> !Declaration(k)
  }

  lemma WrittenPlain(o: XmlObject, order: Order, at: seq<nat>)
    requires Plain(o) && IsOrder(order)
    ensures Enumerates(order(at, OfAttributes, o.attributes), o.attributes)
    ensures WrittenAttributes(o, order, at)
         == (if o.defaultNs != "" then [(XMLNS, o.defaultNs)] else [])
            + Entries(order(at, OfAttributes, o.attributes), o.attributes)
  {
    var keys := order(at, OfAliases, o.aliases);
    assert Enumerates(keys, o.aliases);
    var first := if keys == [] then "" else keys[0];
    assert first !in o.aliases && first !in keys;
    assert Enumerates(order(at, OfAttributes, o.attributes), o.attributes);
  }

  /** What the written attributes of a plain object look like. */
  ghost predicate Lists(p: Pairs, own: string, keys: seq<string>, m: map<string, string>) {
    Enumerates(keys, m) && (forall k :: k in m ==> !Declaration(k))
    && p == (if own != "" then [(XMLNS, own)] else []) + Entries(keys, m)
  }

  lemma ListedAt(p: Pairs, own: string, keys: seq<string>, m: map<string, string>)
    requires Lists(p, own, keys, m)
    ensures |p| - |keys| == (if own == "" then 0 else 1) && (own != "" ==> p[0] == (XMLNS, own))
    ensures var n := |p| - |keys|;
      forall i :: n <= i < |p| ==> keys[i - n] in m && p[i] == (keys[i - n], m[keys[i - n]])
  {
  }

  lemma ListedDistinct(p: Pairs, own: string, keys: seq<string>, m: map<string, string>)
    requires Lists(p, own, keys, m)
    ensures DistinctNames(p)
  {
    ListedAt(p, own, keys, m);
  }

  lemma ListedValue(p: Pairs, own: string, keys: seq<string>, m: map<string, string>, k: string)
    requires Lists(p, own, keys, m)
    ensures k in m ==> HasName(p, k) && ValueOf(p, k) == m[k]
    ensures k == XMLNS ==> ValueOf(p, k) == own
    ensures Declaration(k) && k != XMLNS ==> ValueOf(p, k) == ""
    ensures HasName(p, k) && !Declaration(k) ==> k in m
  {
    var n := |p| - |keys|;
    ListedAt(p, own, keys, m);
    ListedDistinct(p, own, keys, m);
    if k in m {
      var i :| 0 <= i < |keys| && keys[i] == k;
      assert p[n + i].0 == k;
      ValueIs(p, n + i);
    } else if k == XMLNS && own != "" {
      ValueIs(p, 0);
    } else if Declaration(k) {
      NoValue(p, k);
    }
  }

  lemma OpenWritten(o: XmlObject, order: Order, at: seq<nat>)
    requires Plain(o) && IsOrder(order)
    ensures var tag, prefix := Open(WrittenName(o), WrittenAttributes(o, order, at)), SplitName(WrittenName(o)).1;
      tag.aliases == map[] && tag.defaultNs == o.defaultNs
      && tag.obj == Named(WrittenName(o)).(defaultNs := o.defaultNs, attributes := o.attributes,
           namespace := if prefix != "" then prefix else o.defaultNs,
           nsIsDefault := o.defaultNs != "" && (prefix == "" || prefix == o.defaultNs))
  {
    var p, keys := WrittenAttributes(o, order, at), order(at, OfAttributes, o.attributes);
    WrittenPlain(o, order, at);
    assert Lists(p, o.defaultNs, keys, o.attributes);
    ListedDistinct(p, o.defaultNs, keys, o.attributes);
    OpenDescribes(WrittenName(o), p);
    forall k: string {
      ListedValue(p, o.defaultNs, keys, o.attributes, k);
    }
    forall a: string ensures Declaration(AliasName(a)) && AliasName(a) != XMLNS {
      assert AliasName(a)[5] == ':';
    }
    var tag := Open(WrittenName(o), p);
    assert tag.obj.attributes == o.attributes;
    assert tag.aliases == map[];
  }

  // ---------- The meaning of a printed object ----------

  lemma {:induction false} MeaningOfPrinted(o: XmlObject, order: Order, at: seq<nat>, env: Env)
    requires o.part == All && AllWhole(o.nodes) && IsOrder(order)
    ensures Meaning(TreeOf(o, order, at), env) == o <==> Faithful(o, env)
    decreases o, 1
  {
    if ':' !in o.tagName && Plain(o) {
      MeaningOfPrintedNodes(o.nodes, order, at, Extend(env, o.defaultNs, map[]));
      MeaningOfPlain(o, order, at, env);
    } else {
      NotPlain(o, order, at, env);
    }
  }

  /** Whatever is read is plain. */
  lemma NotPlain(o: XmlObject, order: Order, at: seq<nat>, env: Env)
    requires !(':' !in o.tagName && Plain(o))
    ensures Meaning(TreeOf(o, order, at), env) != o && !Faithful(o, env)
  {
    SplitWritten(o);
    KeepsNames(OpenTag(Named(WrittenName(o)), "", map[]), WrittenAttributes(o, order, at));
  }

  /** A plain object: the start tag decides the namespace, the children are independent of it. */
  lemma MeaningOfPlain(o: XmlObject, order: Order, at: seq<nat>, env: Env)
    requires o.part == All && IsOrder(order) && ':' !in o.tagName && Plain(o)
    requires TextOf(KidsOf(o.nodes, order, at)) == ""
    ensures var m := Meaning(TreeOf(o, order, at), env);
      m == o.(namespace := m.namespace, nsIsDefault := m.nsIsDefault,
              nodes := MeaningOfKids(KidsOf(o.nodes, order, at), Extend(env, o.defaultNs, map[])))
      && (m.namespace == o.namespace && m.nsIsDefault == o.nsIsDefault <==> NamespaceSurvives(o, env))
  {
    var name, p := WrittenName(o), WrittenAttributes(o, order, at);
    var read := Open(name, p).obj;
    SplitWritten(o);
    OpenWritten(o, order, at);
    NamespaceResolved(o, read, env);
    OnlyNamespace(read, env);
    BodyOfPrinted(o, order, at, Extend(env, o.defaultNs, map[]));
    PutTogether(o, read, Resolve(read, env), TreeOf(o, order, at), env);
  }

  lemma OnlyNamespace(read: XmlObject, env: Env)
    ensures var r := Resolve(read, env); r == read.(namespace := r.namespace, nsIsDefault := r.nsIsDefault)
  {
  }

  lemma PutTogether(o: XmlObject, read: XmlObject, r: XmlObject, t: Tree, env: Env)
    requires var tag := Open(t.name, t.attributes);
      tag.obj == read && tag.defaultNs == o.defaultNs && tag.aliases == map[]
    requires r == Resolve(read, env) && r == read.(namespace := r.namespace, nsIsDefault := r.nsIsDefault)
    requires read == o.(namespace := read.namespace, nsIsDefault := read.nsIsDefault, nodes := [], content := "")
    requires TextOf(t.kids) == o.content
    ensures Meaning(t, env) == o.(namespace := r.namespace, nsIsDefault := r.nsIsDefault,
                                  nodes := MeaningOfKids(t.kids, Extend(env, o.defaultNs, map[])))
  {
  }

  lemma BodyOfPrinted(o: XmlObject, order: Order, at: seq<nat>, inner: Env)
    requires TextOf(KidsOf(o.nodes, order, at)) == ""
    ensures var kids := TreeOf(o, order, at).kids;
      TextOf(kids) == o.content && MeaningOfKids(kids, inner) == MeaningOfKids(KidsOf(o.nodes, order, at), inner)
  {
    var text := if o.content != "" then [Chars(o.content)] else [];
    MeaningOfKidsConcat(KidsOf(o.nodes, order, at), text, inner);
    MeaningOfText(o.content, inner);
  }

  lemma MeaningOfText(content: string, env: Env)
    ensures var text := if content != "" then [Chars(content)] else [];
      TextOf(text) == content && MeaningOfKids(text, env) == []
  {
  }

  lemma NamespaceResolved(o: XmlObject, read: XmlObject, env: Env)
    requires read.defaultNs == o.defaultNs
    requires var prefix := if o.namespace != "" && !o.nsIsDefault then o.namespace else "";
      read.namespace == (if prefix != "" then prefix else o.defaultNs)
      && read.nsIsDefault == (o.defaultNs != "" && (prefix == "" || prefix == o.defaultNs))
    ensures var r := Resolve(read, env);
      r.namespace == o.namespace && r.nsIsDefault == o.nsIsDefault <==> NamespaceSurvives(o, env)
  {
  }

  predicate AllWhole(nodes: seq<XmlObject>)
    decreases nodes, 0
  {
    nodes == [] || ((nodes[0].IsValid() ==> nodes[0].part == All && AllWhole(nodes[0].nodes)) && AllWhole(nodes[1..]))
  }

  lemma {:induction false} MeaningOfPrintedNodes(nodes: seq<XmlObject>, order: Order, at: seq<nat>, env: Env)
    requires AllWhole(nodes) && IsOrder(order)
    ensures |MeaningOfKids(KidsOf(nodes, order, at), env)| <= |nodes|
    ensures MeaningOfKids(KidsOf(nodes, order, at), env) == nodes <==> FaithfulNodes(nodes, env)
    ensures TextOf(KidsOf(nodes, order, at)) == ""
    decreases nodes, 0
  {
    if nodes != [] {
      MeaningOfPrintedNodes(nodes[1..], order, at, env);
      var rest := MeaningOfKids(KidsOf(nodes[1..], order, at), env);
      if nodes[0].IsValid() {
        var first := Meaning(TreeOf(nodes[0], order, at + [CountNamed(nodes[1..])]), env);
        MeaningOfPrinted(nodes[0], order, at + [CountNamed(nodes[1..])], env);
        MeaningOfKidsConcat([Child(TreeOf(nodes[0], order, at + [CountNamed(nodes[1..])]))],
                            KidsOf(nodes[1..], order, at), env);
        MeaningOfOne(TreeOf(nodes[0], order, at + [CountNamed(nodes[1..])]), env);
        assert MeaningOfKids(KidsOf(nodes, order, at), env) == [first] + rest;
        assert [first] + rest == nodes <==> first == nodes[0] && rest == nodes[1..] by {
          assert nodes == [nodes[0]] + nodes[1..];
          assert ([first] + rest)[1..] == rest;
        }
      } else {
        assert KidsOf(nodes, order, at) == KidsOf(nodes[1..], order, at);
      }
    }
  }

  lemma MeaningOfOne(t: Tree, env: Env)
    ensures MeaningOfKids([Child(t)], env) == [Meaning(t, env)] && TextOf([Child(t)]) == ""
  {
    assert [Child(t)][1..] == [];
    assert MeaningOfKid(Child(t), env) == [Meaning(t, env)];
  }

  lemma {:induction false} WritableIsWhole(nodes: seq<XmlObject>)
    requires WritableNodes(nodes)
    ensures AllWhole(nodes)
    decreases nodes, 0
  {
    if nodes != [] {
      WritableIsWhole(nodes[1..]);
      if nodes[0].IsValid() {
        WritableIsWhole(nodes[0].nodes);
      }
    }
  }

  // ---------- The theorem ----------

  lemma {:induction false} FaithfulRepeatsNone(o: XmlObject, env: Env)
    requires Faithful(o, env)
    ensures NoRepeats(o)
    decreases o, 1
  {
    assert Declaration("xmlns");
    FaithfulNodesRepeatNone(o.nodes, Extend(env, o.defaultNs, map[]));
  }

  lemma {:induction false} FaithfulNodesRepeatNone(nodes: seq<XmlObject>, env: Env)
    requires FaithfulNodes(nodes, env)
    ensures NoRepeatsIn(nodes)
    decreases nodes, 0
  {
    if nodes != [] {
      FaithfulRepeatsNone(nodes[0], env);
      FaithfulNodesRepeatNone(nodes[1..], env);
    }
  }

  /** Printing an object gives text that the parser accepts exactly if no tag repeats an attribute name.
      Feeding it to a stream with an open element then adds one child to that element and changes nothing
      else; the child is the printed object exactly when it is faithful in the scope of the open
      elements. */
  lemma PrintThenParse(o: XmlObject, order: Order, s: Stream)
    requires Writable(o) && IsOrder(order) && Inside(s) && s.stack != []
    ensures Tokenize(Print(o, order, [])).Some? <==> NoRepeats(o)
    ensures NoRepeats(o) ==>
              Run(s, Tokenize(Print(o, order, [])).value)
              == s.(stack := [Adopt(s.stack[0], Meaning(TreeOf(o, order, []), ScopeOf(s)))] + s.stack[1..])
    ensures Meaning(TreeOf(o, order, []), ScopeOf(s)) == o <==> Faithful(o, ScopeOf(s))
  {
    TokenizePrinted(o, order, []);
    if NoRepeats(o) {
      RunChild(s, TreeOf(o, order, []));
    }
    WritableIsWhole(o.nodes);
    MeaningOfPrinted(o, order, [], ScopeOf(s));
  }

  /** The same directly inside the top-level element: a faithful object is what the handler gets. */
  lemma PrintThenReceive(o: XmlObject, order: Order, s: Stream)
    requires Writable(o) && IsOrder(order) && Inside(s) && s.stack == [] && s.listening && !IsInternal(o)
    requires Faithful(o, ScopeOf(s))
    ensures var events := Tokenize(Print(o, order, [])); events.Some? && Run(s, events.value) == s.Deliver(o)
  {
    TokenizePrinted(o, order, []);
    FaithfulRepeatsNone(o, ScopeOf(s));
    RunFirstLevel(s, TreeOf(o, order, []));
    WritableIsWhole(o.nodes);
    MeaningOfPrinted(o, order, [], ScopeOf(s));
  }

  // ---------- Children without a tag ----------

  /** The object without its unnamed descendants. */
  function Pruned(o: XmlObject): XmlObject
    decreases o, 1
  {
    o.(nodes := PrunedNodes(o.nodes))
  }

  function PrunedNodes(nodes: seq<XmlObject>): seq<XmlObject>
    decreases nodes, 0
  {
    if nodes == [] then []
    else (if nodes[0].IsValid() then [Pruned(nodes[0])] else []) + PrunedNodes(nodes[1..])
  }

  /** Unnamed children are dropped: they leave no trace in what is written. */
  lemma {:induction false} PrunedSameTree(o: XmlObject, order: Order, at: seq<nat>)
    ensures TreeOf(Pruned(o), order, at) == TreeOf(o, order, at)
    decreases o, 1
  {
    PrunedSameKids(o.nodes, order, at);
  }

  lemma {:induction false} PrunedSameKids(nodes: seq<XmlObject>, order: Order, at: seq<nat>)
    ensures KidsOf(PrunedNodes(nodes), order, at) == KidsOf(nodes, order, at)
    ensures CountNamed(PrunedNodes(nodes)) == CountNamed(nodes)
    decreases nodes, 0
  {
    if nodes != [] {
      PrunedSameKids(nodes[1..], order, at);
      if nodes[0].IsValid() {
        PrunedSameTree(nodes[0], order, at + [CountNamed(nodes[1..])]);
        assert PrunedNodes(nodes)[1..] == PrunedNodes(nodes[1..]);
      } else {
        assert PrunedNodes(nodes) == PrunedNodes(nodes[1..]);
      }
    }
  }
}
