/** The event-driven tree builder of src/uxmpp/XmlInputStream.cpp as a state machine, and what it
    builds: for every well-nested event sequence, the recursive meaning of the element. */
module XmlMachine {
  import opened Strings
  import opened Xml
  import opened XmlSyntax
  import opened XmlMeaning

  /** An element whose end tag has not been seen. The top of the stack comes first. */
  datatype Elem = Elem(obj: XmlObject, defaultNs: string, aliases: map<string, string>)

  /** Which element handlers are installed: before or inside the top-level element. */
  datatype Handlers = AwaitTop | InTop

  datatype Stream = Stream(
    topNode: XmlObject,
    listening: bool,
    stack: seq<Elem>,
    error: bool,
    topFound: bool,
    defaultNs: string,
    aliases: map<string, string>,
    handlers: Handlers,
    charHandler: bool,
    delivered: seq<XmlObject>)
  {
    /** The call of the object handler, if one is set. */
    function Deliver(o: XmlObject): Stream {
      if listening then this.(delivered := delivered + [o]) else this
    }
  }

  const INTERNAL_ERROR := "http://ultramarin.se/uxmpp#internal-error"
  const INTERNAL_TIMER := "http://ultramarin.se/uxmpp#internal-timer"

  predicate IsInternal(o: XmlObject) {
    o.namespace == INTERNAL_ERROR || o.namespace == INTERNAL_TIMER
  }

  // ---------- Walking the stack ----------

  function NearestDefault(stack: seq<Elem>, outer: string): string {
    if stack == [] then outer
    else if stack[0].defaultNs != "" then stack[0].defaultNs
    else NearestDefault(stack[1..], outer)
  }

  function NearestAlias(stack: seq<Elem>, outer: map<string, string>, prefix: string): string {
    if stack == [] then LookUp(outer, prefix)
    else if LookUp(stack[0].aliases, prefix) != "" then LookUp(stack[0].aliases, prefix)
    else NearestAlias(stack[1..], outer, prefix)
  }

  function Normalize(s: Stream, o: XmlObject): XmlObject {
    ResolveWith(o, NearestDefault(s.stack, s.defaultNs), NearestAlias(s.stack, s.aliases, o.namespace))
  }

  // ---------- The four handlers ----------

  /** start_stream_element */
  function StartTop(s: Stream, name: string, attributes: Pairs): Stream {
    var tag := Open(name, attributes);
    var s1 := s.(defaultNs := tag.defaultNs, aliases := tag.aliases);
    var o := Normalize(s1, tag.obj);
    var o' := if o.namespace == "" && s1.defaultNs != ""
              then o.(namespace := s1.defaultNs, nsIsDefault := true) else o;
    var fullName := if o'.namespace != "" then o'.namespace + ":" + o'.tagName else o'.tagName;
    if s.topNode.FullName() == fullName
    then s1.(handlers := InTop, charHandler := true, topFound := true).Deliver(o'.(part := Part.Start))
    else s1
  }

  /** start_xml_node */
  function StartNode(s: Stream, name: string, attributes: Pairs): Stream {
    var tag := Open(name, attributes);
    s.(stack := [Elem(Normalize(s, tag.obj), tag.defaultNs, tag.aliases)] + s.stack)
  }

  function Append(e: Elem, data: string): Elem {
    e.(obj := e.obj.(content := e.obj.content + data))
  }

  /** xml_character_data */
  function CharData(s: Stream, data: string): Stream {
    if s.stack == [] then s else s.(stack := [Append(s.stack[0], data)] + s.stack[1..])
  }

  function Adopt(e: Elem, child: XmlObject): Elem {
    e.(obj := e.obj.AddNode(child))
  }

  /** end_xml_node */
  function EndNode(s: Stream): Stream {
    if s.stack == [] then
      if s.topFound
      then s.(topFound := false, handlers := AwaitTop).Deliver(s.topNode.(part := Part.End))
      else s
    else
      var o, rest := s.stack[0].obj, s.stack[1..];
      if rest == [] then
        if IsInternal(o) then s.(stack := rest) else s.(stack := rest).Deliver(o)
      else s.(stack := [Adopt(rest[0], o)] + rest[1..])
  }

  /** The parser calls whatever handler is installed. */
  function Handle(s: Stream, e: Event): Stream {
    match e
    case StartElement(name, attributes) =>
      if s.handlers == AwaitTop then StartTop(s, name, attributes) else StartNode(s, name, attributes)
    case Text(data) => if s.charHandler then CharData(s, data) else s
    case EndElement(_) => if s.handlers == InTop then EndNode(s) else s
  }

  function Run(s: Stream, events: seq<Event>): Stream
    decreases |events|
  {
    if events == [] then s else Run(Handle(s, events[0]), events[1..])
  }

  lemma {:induction false} RunConcat(s: Stream, a: seq<Event>, b: seq<Event>)
    ensures Run(s, a + b) == Run(Run(s, a), b)
    decreases |a|
  {
    if a == [] {
      assert a + b == b;
    } else {
      assert (a + b)[1..] == a[1..] + b;
      RunConcat(Handle(s, a[0]), a[1..], b);
    }
  }

  lemma RunOne(s: Stream, e: Event)
    ensures Run(s, [e]) == Handle(s, e)
  {
    assert [e][1..] == [];
  }

  // ---------- The stack walk is lexical scoping ----------

  /** The scope the elements on the stack add up to. */
  function EnvOf(stack: seq<Elem>, defaultNs: string, aliases: map<string, string>): Env {
    if stack == [] then Env(defaultNs, Clean(aliases))
    else Extend(EnvOf(stack[1..], defaultNs, aliases), stack[0].defaultNs, stack[0].aliases)
  }

  lemma {:induction false} WalkIsScope(
    stack: seq<Elem>, defaultNs: string, aliases: map<string, string>, prefix: string)
    ensures NearestDefault(stack, defaultNs) == EnvOf(stack, defaultNs, aliases).defaultNs
    ensures NearestAlias(stack, aliases, prefix) == LookUp(EnvOf(stack, defaultNs, aliases).aliases, prefix)
  {
    if stack != [] {
      WalkIsScope(stack[1..], defaultNs, aliases, prefix);
    }
  }

  function ScopeOf(s: Stream): Env {
    EnvOf(s.stack, s.defaultNs, s.aliases)
  }

  lemma NormalizeIsResolve(s: Stream, o: XmlObject)
    ensures Normalize(s, o) == Resolve(o, ScopeOf(s))
  {
    WalkIsScope(s.stack, s.defaultNs, s.aliases, o.namespace);
  }

  // ---------- What a namespace becomes ----------

  /** The nearest declaration counts: number i is the first element from the top that declares the
      prefix, or the top-level element if i is past the last. The same for the default namespace. */
  lemma {:induction false} ScopeIsNearest(
    stack: seq<Elem>, defaultNs: string, aliases: map<string, string>, prefix: string, i: nat)
    requires i <= |stack|
    ensures (forall k :: 0 <= k < i ==> LookUp(stack[k].aliases, prefix) == "")
            && (i < |stack| ==> LookUp(stack[i].aliases, prefix) != "") ==>
              LookUp(EnvOf(stack, defaultNs, aliases).aliases, prefix)
              == if i < |stack| then LookUp(stack[i].aliases, prefix) else LookUp(aliases, prefix)
    ensures (forall k :: 0 <= k < i ==> stack[k].defaultNs == "") && (i < |stack| ==> stack[i].defaultNs != "") ==>
              EnvOf(stack, defaultNs, aliases).defaultNs
              == if i < |stack| then stack[i].defaultNs else defaultNs
  {
    if i > 0 {
      ScopeIsNearest(stack[1..], defaultNs, aliases, prefix, i - 1);
      assert forall k :: 0 < k < i ==> stack[k] == stack[1..][k - 1];
    }
  }

  /** What normalize_namespace makes of a namespace: a declared prefix becomes exactly the namespace it is
      declared as, another one stays as it is, and none becomes the default one of the scope, if there is
      one. Everything else about the object stays, except whether it counts as the default. */
  lemma NormalizeRules(s: Stream, o: XmlObject)
    ensures var r, declared, outer := Normalize(s, o), LookUp(ScopeOf(s).aliases, o.namespace), ScopeOf(s).defaultNs;
      && (o.namespace != "" && declared != "" ==>
            r.namespace == declared && (r.nsIsDefault <==> o.nsIsDefault || (outer != "" && outer == o.defaultNs)))
      && (o.namespace != "" && declared == "" ==> r == o)
      && (o.namespace == "" && outer != "" ==> r.namespace == outer && r.nsIsDefault)
      && (o.namespace == "" && outer == "" ==> r == o)
      && r == o.(namespace := r.namespace, nsIsDefault := r.nsIsDefault)
  {
    WalkIsScope(s.stack, s.defaultNs, s.aliases, o.namespace);
  }

  /** The name that an element is written with: a prefix and a ':', or neither. */
  function WithPrefix(prefix: string, local: string): string {
    if prefix == "" then local else prefix + ":" + local
  }

  lemma SplitPrefix(prefix: string, local: string)
    requires ':' !in local
    ensures SplitName(WithPrefix(prefix, local)) == (local, prefix)
  {
    var name := WithPrefix(prefix, local);
    if prefix == "" {
      FindLastIsNone(name, ':');
    } else {
      assert name == prefix + [':'] + local;
      FindLastIs(prefix, ':', local);
      assert name[|prefix| + 1..] == local && name[..|prefix|] == prefix;
    }
  }

  /** The same for the object that a whole element means in a scope: what it is written with is its
      prefix or, without one, its own xmlns. The scope of its children is its own, extended. */
  lemma MeaningRules(prefix: string, local: string, p: Pairs, kids: seq<Kid>, env: Env)
    requires ':' !in local && DistinctNames(p)
    ensures var m, own := Meaning(Tree(WithPrefix(prefix, local), p, kids), env), ValueOf(p, "xmlns");
      var written := if prefix != "" then prefix else own;
      var declared := LookUp(env.aliases, written);
      && m.tagName == local && m.defaultNs == own && m.part == Part.All && m.aliases == map[]
      && (written != "" && declared != "" ==> m.namespace == declared)
      && (written != "" && declared == "" ==> m.namespace == written)
      && (written == "" ==> m.namespace == env.defaultNs)
      && (m.nsIsDefault <==>
            if written == "" then env.defaultNs != ""
            else (own != "" && written == own) || (declared != "" && env.defaultNs != "" && env.defaultNs == own))
  {
    SplitPrefix(prefix, local);
    OpenDescribes(WithPrefix(prefix, local), p);
  }

  /** What an element declares counts inside it, and what it does not comes from outside. */
  lemma InnerScope(name: string, p: Pairs, env: Env, prefix: string)
    requires DistinctNames(p) && prefix != ""
    ensures var r, own, declared := Inner(env, Open(name, p)), ValueOf(p, "xmlns"), ValueOf(p, "xmlns:" + prefix);
      && r.defaultNs == (if own != "" then own else env.defaultNs)
      && LookUp(r.aliases, prefix) == (if declared != "" then declared else LookUp(env.aliases, prefix))
  {
    OpenDescribes(name, p);
    assert AliasName(prefix) == "xmlns:" + prefix;
  }

  // ---------- The stack machine computes the recursive meaning ----------

  predicate Inside(s: Stream) {
    s.handlers == InTop && s.charHandler
  }

  function WithTop(s: Stream, nodes: seq<XmlObject>, text: string): Stream
    requires s.stack != []
  {
    var e := s.stack[0];
    s.(stack := [e.(obj := e.obj.(nodes := e.obj.nodes + nodes, content := e.obj.content + text))] + s.stack[1..])
  }

  lemma WithTopAgain(s: Stream, a: seq<XmlObject>, x: string, b: seq<XmlObject>, y: string)
    requires s.stack != []
    ensures WithTop(WithTop(s, a, x), b, y) == WithTop(s, a + b, x + y)
    ensures ScopeOf(WithTop(s, a, x)) == ScopeOf(s)
    ensures WithTop(s, [], "") == s
  {
    var o := s.stack[0].obj;
    assert o.nodes + a + b == o.nodes + (a + b) && o.content + x + y == o.content + (x + y);
    assert o.nodes + [] == o.nodes && o.content + "" == o.content;
    assert [s.stack[0]] + s.stack[1..] == s.stack;
    assert WithTop(s, a, x).stack[1..] == s.stack[1..];
  }

  /** The children and text of the open element. */
  lemma {:induction false} RunKids(s: Stream, kids: seq<Kid>)
    requires Inside(s) && s.stack != []
    ensures Run(s, FlattenKids(kids)) == WithTop(s, MeaningOfKids(kids, ScopeOf(s)), TextOf(kids))
    decreases kids, 0
  {
    if kids == [] {
      WithTopAgain(s, [], "", [], "");
    } else {
      var a, x := MeaningOfKid(kids[0], ScopeOf(s)), if kids[0].Chars? then kids[0].data else "";
      RunKid(s, kids[0]);
      RunConcat(s, FlattenKid(kids[0]), FlattenKids(kids[1..]));
      WithTopAgain(s, a, x, MeaningOfKids(kids[1..], ScopeOf(s)), TextOf(kids[1..]));
      RunKids(WithTop(s, a, x), kids[1..]);
    }
  }

  lemma {:induction false} RunKid(s: Stream, kid: Kid)
    requires Inside(s) && s.stack != []
    ensures Run(s, FlattenKid(kid))
         == WithTop(s, MeaningOfKid(kid, ScopeOf(s)), if kid.Chars? then kid.data else "")
    decreases kid, 0
  {
    match kid
    case Child(t) =>
      RunElement(s, t);
      assert s.stack[0].obj.content + "" == s.stack[0].obj.content;
    case Chars(data) =>
      RunOne(s, Text(data));
      assert s.stack[0].obj.nodes + [] == s.stack[0].obj.nodes;
  }

  /** One well-nested element: between its tags the machine pushes it, fills it and pops it. */
  lemma {:induction false} RunElement(s: Stream, t: Tree)
    requires Inside(s)
    ensures Run(s, Flatten(t))
         == EndNode(s.(stack := [Elem(Meaning(t, ScopeOf(s)), Open(t.name, t.attributes).defaultNs,
                                      Open(t.name, t.attributes).aliases)] + s.stack))
    decreases t, 1
  {
    var tag := Open(t.name, t.attributes);
    var s1 := StartNode(s, t.name, t.attributes);
    NormalizeIsResolve(s, tag.obj);
    assert s1.stack[1..] == s.stack;
    assert ScopeOf(s1) == Inner(ScopeOf(s), tag);
    RunKids(s1, t.kids);
    OpenHasNoBody(t.name, t.attributes);
    RunConcat(s, [StartElement(t.name, t.attributes)] + FlattenKids(t.kids), [EndElement(t.name)]);
    RunConcat(s, [StartElement(t.name, t.attributes)], FlattenKids(t.kids));
    RunOne(s, StartElement(t.name, t.attributes));
    RunOne(Run(s1, FlattenKids(t.kids)), EndElement(t.name));
    FilledTop(s, t, s1);
  }

  lemma FilledTop(s: Stream, t: Tree, s1: Stream)
    requires s1 == StartNode(s, t.name, t.attributes)
    requires Normalize(s, Open(t.name, t.attributes).obj) == Resolve(Open(t.name, t.attributes).obj, ScopeOf(s))
    requires Open(t.name, t.attributes).obj.nodes == [] && Open(t.name, t.attributes).obj.content == ""
    requires ScopeOf(s1) == Inner(ScopeOf(s), Open(t.name, t.attributes))
    ensures WithTop(s1, MeaningOfKids(t.kids, ScopeOf(s1)), TextOf(t.kids)).stack
         == [Elem(Meaning(t, ScopeOf(s)), Open(t.name, t.attributes).defaultNs, Open(t.name, t.attributes).aliases)]
            + s.stack
  {
    assert [] + MeaningOfKids(t.kids, ScopeOf(s1)) == MeaningOfKids(t.kids, ScopeOf(s1));
    assert "" + TextOf(t.kids) == TextOf(t.kids);
  }

  lemma {:induction false} OpenHasNoBody(name: string, attributes: Pairs)
    ensures Open(name, attributes).obj.nodes == [] && Open(name, attributes).obj.content == ""
  {
    if attributes != [] {
      OpenHasNoBody(name, attributes[..|attributes| - 1]);
    }
  }

  /** Inside an open element, an element becomes its last child and nothing else changes. */
  lemma RunChild(s: Stream, t: Tree)
    requires Inside(s) && s.stack != []
    ensures Run(s, Flatten(t)) == s.(stack := [Adopt(s.stack[0], Meaning(t, ScopeOf(s)))] + s.stack[1..])
  {
    RunElement(s, t);
    var tag := Open(t.name, t.attributes);
    assert ([Elem(Meaning(t, ScopeOf(s)), tag.defaultNs, tag.aliases)] + s.stack)[1..] == s.stack;
  }

  /** Directly inside the top-level element, the object is delivered unless its namespace is internal. */
  lemma RunFirstLevel(s: Stream, t: Tree)
    requires Inside(s) && s.stack == []
    ensures Run(s, Flatten(t)) == if IsInternal(Meaning(t, ScopeOf(s))) then s else s.Deliver(Meaning(t, ScopeOf(s)))
  {
    RunElement(s, t);
    var tag := Open(t.name, t.attributes);
    assert ([Elem(Meaning(t, ScopeOf(s)), tag.defaultNs, tag.aliases)] + s.stack)[1..] == s.stack;
  }

  /** Told by the two namespaces. */
  lemma FirstLevelDelivered(s: Stream, t: Tree)
    requires Inside(s) && s.stack == [] && s.listening
    ensures var m := Meaning(t, ScopeOf(s));
      Run(s, Flatten(t)).delivered
      == s.delivered + if m.namespace == "http://ultramarin.se/uxmpp#internal-error"
                       || m.namespace == "http://ultramarin.se/uxmpp#internal-timer" then [] else [m]
  {
    RunFirstLevel(s, t);
    assert s.delivered + [] == s.delivered;
  }

  // ---------- Whole documents ----------

  /** The top-level element, unlike any other, sees the prefixes it declares itself. */
  function TopObject(name: string, attributes: Pairs): XmlObject {
    var tag := Open(name, attributes);
    Resolve(tag.obj, Env(tag.defaultNs, tag.aliases))
  }

  predicate Accepts(topNode: XmlObject, name: string, attributes: Pairs) {
    var o := TopObject(name, attributes);
    topNode.FullName() == if o.namespace != "" then o.namespace + ":" + o.tagName else o.tagName
  }

  /** The scope of the first-level objects. */
  function TopScope(name: string, attributes: Pairs): Env {
    Env(Open(name, attributes).defaultNs, Clean(Open(name, attributes).aliases))
  }

  function FirstLevel(kids: seq<Kid>, env: Env): seq<XmlObject> {
    if kids == [] then [] else FirstLevelKid(kids[0], env) + FirstLevel(kids[1..], env)
  }

  function FirstLevelKid(kid: Kid, env: Env): seq<XmlObject> {
    match kid
    case Child(t) => if IsInternal(Meaning(t, env)) then [] else [Meaning(t, env)]
    case Chars(_) => []
  }

  /** What a document delivers: for each accepted top element its start, its objects and its end.
      Elements that are not accepted are searched for one that is. */
  function Deliveries(topNode: XmlObject, t: Tree): seq<XmlObject>
    decreases t, 1
  {
    if Accepts(topNode, t.name, t.attributes) then
      [TopObject(t.name, t.attributes).(part := Part.Start)]
      + FirstLevel(t.kids, TopScope(t.name, t.attributes)) + [topNode.(part := Part.End)]
    else DeliveriesOfKids(topNode, t.kids)
  }

  function DeliveriesOfKids(topNode: XmlObject, kids: seq<Kid>): seq<XmlObject>
    decreases kids, 0
  {
    if kids == [] then [] else DeliveriesOfKid(topNode, kids[0]) + DeliveriesOfKids(topNode, kids[1..])
  }

  function DeliveriesOfKid(topNode: XmlObject, kid: Kid): seq<XmlObject>
    decreases kid, 0
  {
    match kid
    case Child(t) => Deliveries(topNode, t)
    case Chars(_) => []
  }

  predicate Waiting(s: Stream) {
    s.handlers == AwaitTop && s.stack == [] && !s.topFound
  }

  /** s' is s after delivering `objects`, up to the last top-level scope. */
  ghost predicate Delivered(s: Stream, s': Stream, objects: seq<XmlObject>) {
    && s'.topNode == s.topNode && s'.listening == s.listening && s'.error == s.error
    && s'.delivered == s.delivered + (if s.listening then objects else [])
  }

  lemma StartTopIs(s: Stream, name: string, attributes: Pairs)
    requires Waiting(s)
    ensures var s' := StartTop(s, name, attributes);
      if Accepts(s.topNode, name, attributes) then
        Inside(s') && s'.stack == [] && s'.topFound && ScopeOf(s') == TopScope(name, attributes)
        && Delivered(s, s', [TopObject(name, attributes).(part := Part.Start)])
      else Waiting(s') && Delivered(s, s', [])
  {
    assert s.delivered + [] == s.delivered;
    OpenNamespace(name, attributes);
  }

  /** A tag with its own default namespace is never without a namespace. */
  lemma {:induction false} OpenNamespace(name: string, attributes: Pairs)
    ensures Open(name, attributes).defaultNs != "" ==> Open(name, attributes).obj.namespace != ""
  {
    if attributes != [] {
      OpenNamespace(name, attributes[..|attributes| - 1]);
    }
  }

  lemma DeliveredTwice(s: Stream, s': Stream, s'': Stream, a: seq<XmlObject>, b: seq<XmlObject>)
    requires Delivered(s, s', a) && Delivered(s', s'', b)
    ensures Delivered(s, s'', a + b)
  {
    assert s.delivered + a + b == s.delivered + (a + b);
    assert s.delivered + [] + [] == s.delivered + [];
  }

  lemma RunFirstLevelKid(s: Stream, kid: Kid)
    requires Inside(s) && s.stack == []
    ensures var s' := Run(s, FlattenKid(kid));
      Inside(s') && s'.stack == [] && s'.topFound == s.topFound && ScopeOf(s') == ScopeOf(s)
      && Delivered(s, s', FirstLevelKid(kid, ScopeOf(s)))
  {
    assert s.delivered + [] == s.delivered;
    match kid
    case Child(t) => RunFirstLevel(s, t);
    case Chars(data) => RunOne(s, Text(data));
  }

  lemma {:induction false} RunFirstLevelKids(s: Stream, kids: seq<Kid>)
    requires Inside(s) && s.stack == []
    ensures var s' := Run(s, FlattenKids(kids));
      Inside(s') && s'.stack == [] && s'.topFound == s.topFound && ScopeOf(s') == ScopeOf(s)
      && Delivered(s, s', FirstLevel(kids, ScopeOf(s)))
    decreases |kids|
  {
    if kids == [] {
      assert s.delivered + [] == s.delivered;
    } else {
      var s1 := Run(s, FlattenKid(kids[0]));
      var s2 := Run(s1, FlattenKids(kids[1..]));
      RunConcat(s, FlattenKid(kids[0]), FlattenKids(kids[1..]));
      RunFirstLevelKid(s, kids[0]);
      RunFirstLevelKids(s1, kids[1..]);
      DeliveredTwice(s, s1, s2, FirstLevelKid(kids[0], ScopeOf(s)), FirstLevel(kids[1..], ScopeOf(s)));
    }
  }

  /** An accepted top element that is still open: its start, then the completed objects. */
  lemma RunOpenDocument(s: Stream, t: Tree)
    requires Waiting(s) && Accepts(s.topNode, t.name, t.attributes)
    ensures var s' := Run(s, [StartElement(t.name, t.attributes)] + FlattenKids(t.kids));
      Inside(s') && s'.stack == [] && s'.topFound
      && Delivered(s, s', [TopObject(t.name, t.attributes).(part := Part.Start)]
                          + FirstLevel(t.kids, TopScope(t.name, t.attributes)))
  {
    var s1 := StartTop(s, t.name, t.attributes);
    StartTopIs(s, t.name, t.attributes);
    RunConcat(s, [StartElement(t.name, t.attributes)], FlattenKids(t.kids));
    RunOne(s, StartElement(t.name, t.attributes));
    RunFirstLevelKids(s1, t.kids);
    DeliveredTwice(s, s1, Run(s1, FlattenKids(t.kids)),
      [TopObject(t.name, t.attributes).(part := Part.Start)], FirstLevel(t.kids, TopScope(t.name, t.attributes)));
  }

  /** A whole document delivers exactly its deliveries, and the stream waits for the next one. */
  lemma {:induction false} RunDocument(s: Stream, t: Tree)
    requires Waiting(s)
    ensures Waiting(Run(s, Flatten(t))) && Delivered(s, Run(s, Flatten(t)), Deliveries(s.topNode, t))
    decreases t, 1
  {
    var open := [StartElement(t.name, t.attributes)];
    var s1 := StartTop(s, t.name, t.attributes);
    var s2 := Run(s, open + FlattenKids(t.kids));
    RunConcat(s, open + FlattenKids(t.kids), [EndElement(t.name)]);
    RunOne(s2, EndElement(t.name));
    if Accepts(s.topNode, t.name, t.attributes) {
      RunOpenDocument(s, t);
      DeliveredTwice(s, s2, EndNode(s2), [TopObject(t.name, t.attributes).(part := Part.Start)]
        + FirstLevel(t.kids, TopScope(t.name, t.attributes)), [s.topNode.(part := Part.End)]);
    } else {
      StartTopIs(s, t.name, t.attributes);
      RunConcat(s, open, FlattenKids(t.kids));
      RunOne(s, StartElement(t.name, t.attributes));
      RunDocumentKids(s1, t.kids);
      DeliveredTwice(s, s1, s2, [], Deliveries(s.topNode, t));
      assert [] + Deliveries(s.topNode, t) == Deliveries(s.topNode, t);
    }
  }

  lemma {:induction false} RunDocumentKids(s: Stream, kids: seq<Kid>)
    requires Waiting(s)
    ensures var s' := Run(s, FlattenKids(kids)); Waiting(s') && Delivered(s, s', DeliveriesOfKids(s.topNode, kids))
    decreases kids, 0
  {
    if kids == [] {
      assert s.delivered + [] == s.delivered;
    } else {
      var s1 := Run(s, FlattenKid(kids[0]));
      var s2 := Run(s1, FlattenKids(kids[1..]));
      RunConcat(s, FlattenKid(kids[0]), FlattenKids(kids[1..]));
      RunDocumentKid(s, kids[0]);
      RunDocumentKids(s1, kids[1..]);
      DeliveredTwice(s, s1, s2, DeliveriesOfKid(s.topNode, kids[0]), DeliveriesOfKids(s.topNode, kids[1..]));
    }
  }

  lemma {:induction false} RunDocumentKid(s: Stream, kid: Kid)
    requires Waiting(s)
    ensures var s' := Run(s, FlattenKid(kid)); Waiting(s') && Delivered(s, s', DeliveriesOfKid(s.topNode, kid))
    decreases kid, 0
  {
    assert s.delivered + [] == s.delivered;
    match kid
    case Child(t) => RunDocument(s, t);
    case Chars(data) => RunOne(s, Text(data));
  }

  // ---------- Arbitrary input, parse errors and reset ----------

  /** What a user of the stream does: feed a chunk that ends well or in a parse error, insert an
      object, or reset. */
  datatype Input = Chunk(events: seq<Event>, wellFormed: bool) | Insert(obj: XmlObject) | Reset

  function Fresh(topNode: XmlObject, listening: bool): Stream {
    Stream(topNode, listening, [], false, false, "", map[], AwaitTop, false, [])
  }

  function Feed(s: Stream, input: Input): Stream {
    match input
    case Chunk(events, wellFormed) =>
      if s.error then s
      else if wellFormed then Run(s, events)
      else Run(s, events).(error := true, stack := [])
    case Insert(o) => if o.IsValid() then s.Deliver(o) else s
    case Reset => Fresh(s.topNode, s.listening).(delivered := s.delivered)
  }

  function FeedAll(s: Stream, inputs: seq<Input>): Stream
    decreases |inputs|
  {
    if inputs == [] then s else FeedAll(Feed(s, inputs[0]), inputs[1..])
  }

  function Inserted(inputs: seq<Input>): seq<XmlObject> {
    if inputs == [] then []
    else (if inputs[0].Insert? && inputs[0].obj.IsValid() then [inputs[0].obj] else []) + Inserted(inputs[1..])
  }

  /** After a parse error and until a reset, only inserted objects are delivered. */
  lemma {:induction false} ErrorSilences(s: Stream, inputs: seq<Input>)
    requires s.error && Reset !in inputs
    ensures FeedAll(s, inputs).error
    ensures Delivered(s, FeedAll(s, inputs), Inserted(inputs))
    decreases |inputs|
  {
    if inputs == [] {
      assert s.delivered + [] == s.delivered;
    } else {
      var s1 := Feed(s, inputs[0]);
      var head := if inputs[0].Insert? && inputs[0].obj.IsValid() then [inputs[0].obj] else [];
      assert s.delivered + [] == s.delivered;
      ErrorSilences(s1, inputs[1..]);
      DeliveredTwice(s, s1, FeedAll(s, inputs), head, Inserted(inputs[1..]));
    }
  }

  /** Where the input is cut into chunks does not matter. */
  lemma ChunksJoin(s: Stream, a: seq<Event>, b: seq<Event>, wellFormed: bool)
    ensures Feed(Feed(s, Chunk(a, true)), Chunk(b, wellFormed)) == Feed(s, Chunk(a + b, wellFormed))
  {
    RunConcat(s, a, b);
    RunKeepsError(s, a);
  }

  lemma {:induction false} RunKeepsError(s: Stream, events: seq<Event>)
    ensures Run(s, events).error == s.error
    decreases |events|
  {
    if events != [] {
      HandleDelivers(s, events[0]);
      RunKeepsError(Handle(s, events[0]), events[1..]);
    }
  }

  /** After a reset, whatever came before, also an error in the middle of an element, the next document
      is delivered as by a new stream. */
  lemma ResetRestores(s: Stream, t: Tree)
    ensures var r := FeedAll(s, [Reset] + [Chunk(Flatten(t), true)]);
      !r.error && Waiting(r) && r.delivered == s.delivered + if s.listening then Deliveries(s.topNode, t) else []
  {
    var s1 := Feed(s, Reset);
    RunDocument(s1, t);
    assert ([Reset] + [Chunk(Flatten(t), true)])[1..] == [Chunk(Flatten(t), true)];
    assert [Chunk(Flatten(t), true)][1..] == [];
    assert FeedAll(s1, [Chunk(Flatten(t), true)]) == FeedAll(Feed(s1, Chunk(Flatten(t), true)), []);
  }

  predicate MayBeParsed(topNode: XmlObject, o: XmlObject) {
    o.part == Part.Start || o == topNode.(part := Part.End) || !IsInternal(o)
  }

  ghost predicate AtMostOneMore(s: Stream, s': Stream) {
    s'.topNode == s.topNode && s'.listening == s.listening && s'.error == s.error
    && (s'.delivered == s.delivered
        || (exists o :: MayBeParsed(s.topNode, o) && s'.delivered == s.delivered + [o]))
  }

  lemma StartTopDelivers(s: Stream, name: string, attributes: Pairs)
    ensures AtMostOneMore(s, StartTop(s, name, attributes))
  {
  }

  lemma EndNodeDelivers(s: Stream)
    ensures AtMostOneMore(s, EndNode(s))
  {
    if s.stack == [] {
      assert MayBeParsed(s.topNode, s.topNode.(part := Part.End));
    } else if !IsInternal(s.stack[0].obj) {
      assert MayBeParsed(s.topNode, s.stack[0].obj);
    }
  }

  lemma HandleDelivers(s: Stream, e: Event)
    ensures AtMostOneMore(s, Handle(s, e))
  {
    if e.StartElement? {
      StartTopDelivers(s, e.name, e.attributes);
    } else if e.EndElement? {
      EndNodeDelivers(s);
    }
  }

  /** Deliveries are never taken back, and a parsed first-level object never has an internal
      namespace, whatever events arrive in whatever order. */
  lemma {:induction false} NothingInternal(s: Stream, events: seq<Event>)
    ensures s.delivered <= Run(s, events).delivered
    ensures forall o :: o in Run(s, events).delivered[|s.delivered|..] ==>
              || o.part == Part.Start || o == s.topNode.(part := Part.End)
              || (o.namespace != "http://ultramarin.se/uxmpp#internal-error"
                  && o.namespace != "http://ultramarin.se/uxmpp#internal-timer")
    decreases |events|
  {
    if events != [] {
      var s1, all := Handle(s, events[0]), Run(s, events).delivered;
      HandleDelivers(s, events[0]);
      NothingInternal(s1, events[1..]);
      if s1.delivered != s.delivered {
        var o :| MayBeParsed(s.topNode, o) && s1.delivered == s.delivered + [o];
        assert all[|s.delivered|..] == [o] + all[|s1.delivered|..];
      }
    }
  }
}
