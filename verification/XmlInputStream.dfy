/** The parser's handlers as they are written, on the fields they change: each does exactly what
    the state machine does. The look-ups of normalize_namespace insert empty entries into the alias
    maps; the abstract state does not see them, so they never change a later resolution. */
module XmlInput {
  import opened Xml
  import opened XmlSyntax
  import opened XmlMeaning
  import opened XmlMachine

  function CleanElem(e: Elem): Elem {
    e.(aliases := Clean(e.aliases))
  }

  function CleanStack(stack: seq<Elem>): (s: seq<Elem>)
    ensures |s| == |stack| && forall i :: 0 <= i < |s| ==> s[i] == CleanElem(stack[i])
  {
    seq(|stack|, i requires 0 <= i < |stack| => CleanElem(stack[i]))
  }

  /** The value operator[] of a std::map leaves behind for a key. */
  function Touched(m: map<string, string>, key: string): map<string, string> {
    if key in m then m else m[key := ""]
  }

  lemma TouchIsInvisible(m: map<string, string>, key: string)
    ensures Clean(Touched(m, key)) == Clean(m) && LookUp(Clean(m), key) == LookUp(m, key)
  {
  }

  lemma {:induction false} CleanWalk(stack: seq<Elem>, outer: string, aliases: map<string, string>, prefix: string)
    ensures NearestDefault(CleanStack(stack), outer) == NearestDefault(stack, outer)
    ensures NearestAlias(CleanStack(stack), Clean(aliases), prefix) == NearestAlias(stack, aliases, prefix)
  {
    if stack != [] {
      CleanWalk(stack[1..], outer, aliases, prefix);
      assert CleanStack(stack)[1..] == CleanStack(stack[1..]);
      TouchIsInvisible(stack[0].aliases, prefix);
    } else {
      TouchIsInvisible(aliases, prefix);
    }
  }

  lemma CleanPopped(stack: seq<Elem>, o: XmlObject)
    requires stack != []
    ensures CleanStack(stack)[0].obj == stack[0].obj && CleanStack(stack[1..]) == CleanStack(stack)[1..]
    ensures |stack| > 1 ==>
      CleanStack([Adopt(stack[1], o)] + stack[1..][1..])
      == [Adopt(CleanStack(stack)[1], o)] + CleanStack(stack)[1..][1..]
  {
  }

  class XmlInputStream {
    const topNode: XmlObject
    const listening: bool
    var stack: seq<Elem>
    var error: bool
    var topFound: bool
    var defaultNs: string
    var aliases: map<string, string>
    var handlers: Handlers
    var charHandler: bool
    ghost var delivered: seq<XmlObject>

    /** The state machine's state, without the empty alias entries. */
    ghost function Abs(): Stream
      reads this
    {
      Stream(topNode, listening, CleanStack(stack), error, topFound, defaultNs, Clean(aliases),
             handlers, charHandler, delivered)
    }

    constructor (topElement: XmlObject, listening: bool)
      ensures Abs() == Fresh(topElement, listening)
    {
      topNode, this.listening := topElement, listening;
      stack, error, topFound, defaultNs, aliases := [], false, false, "", map[];
      handlers, charHandler, delivered := AwaitTop, false, [];
    }

    /** A call of the object handler. */
    method Deliver(o: XmlObject)
      modifies this`delivered
      ensures Abs() == old(Abs()).Deliver(o)
    {
      if listening {
        delivered := delivered + [o];
      }
    }

    /** parse_xml_attributes */
    static method ParseXmlAttributes(attributes: Pairs, obj: XmlObject) returns (tag: OpenTag)
      ensures tag == AddAttributes(OpenTag(obj, "", map[]), attributes)
    {
      var o, ns := obj, obj.namespace;
      var default, declared: map<string, string> := "", map[];
      for i := 0 to |attributes|
        invariant OpenTag(o, default, declared) == AddAttributes(OpenTag(obj, "", map[]), attributes[..i])
        invariant ns == o.namespace
      {
        assert attributes[..i + 1][..i] == attributes[..i];
        var (name, value) := attributes[i];
        if name == "xmlns" {
          if value == "" {
            continue;
          }
          default := value;
          o := o.(defaultNs := default);
          if ns == "" {
            ns := default;
            o := o.(namespace := ns);
          }
          if default == ns {
            o := o.(nsIsDefault := true);
          }
        } else if "xmlns:" <= name {
          if value == "" {
            continue;
          }
          var alias := name[6..];
          if alias != "" {
            declared := declared[alias := value];
          }
        } else {
          o := o.SetAttribute(name, value);
        }
      }
      assert attributes[..|attributes|] == attributes;
      tag := OpenTag(o, default, declared);
    }

    /** The default namespace of the nearest element that has one, else the stream's. */
    method FindDefault() returns (ns: string)
      ensures ns == NearestDefault(stack, defaultNs)
    {
      ns := defaultNs;
      for i := 0 to |stack|
        invariant ns == defaultNs
        invariant NearestDefault(stack, defaultNs) == NearestDefault(stack[i..], defaultNs)
      {
        assert stack[i..][1..] == stack[i + 1..];
        if stack[i].defaultNs != "" {
          return stack[i].defaultNs;
        }
      }
    }

    /** The alias search of normalize_namespace, with the entries it inserts. */
    method FindAlias(prefix: string) returns (value: string)
      modifies this`stack, this`aliases
      ensures value == old(NearestAlias(stack, aliases, prefix))
      ensures Abs() == old(Abs())
    {
      value := "";
      for i := 0 to |stack|
        invariant |stack| == |old(stack)| && CleanStack(stack) == CleanStack(old(stack))
        invariant aliases == old(aliases) && stack[i..] == old(stack)[i..]
        invariant old(NearestAlias(stack, aliases, prefix)) == NearestAlias(old(stack)[i..], aliases, prefix)
        invariant value == ""
      {
        assert old(stack)[i..][1..] == old(stack)[i + 1..];
        TouchIsInvisible(stack[i].aliases, prefix);
        var touched := Touched(stack[i].aliases, prefix);
        stack := stack[i := stack[i].(aliases := touched)];
        value := touched[prefix];
        if value != "" {
          return;
        }
      }
      TouchIsInvisible(aliases, prefix);
      aliases := Touched(aliases, prefix);
      value := aliases[prefix];
    }

    /** normalize_namespace */
    method NormalizeNamespace(obj: XmlObject) returns (o: XmlObject)
      modifies this`stack, this`aliases
      ensures o == Normalize(old(Abs()), obj)
      ensures Abs() == old(Abs())
    {
      CleanWalk(stack, defaultNs, aliases, obj.namespace);
      o := obj;
      if obj.namespace == "" {
        var ns := FindDefault();
        if ns != "" {
          o := o.(namespace := ns, nsIsDefault := true);
        }
      } else {
        var alias := FindAlias(obj.namespace);
        CleanWalk(stack, defaultNs, aliases, obj.namespace);
        if alias != "" {
          o := o.(namespace := alias);
          var default := FindDefault();
          if default != "" && default == o.defaultNs {
            o := o.(nsIsDefault := true);
          }
        }
      }
    }

    /** start_stream_element */
    method StartStreamElement(name: string, attributes: Pairs)
      modifies this
      ensures Abs() == StartTop(old(Abs()), name, attributes)
    {
      var (tagName, prefix) := SplitName(name);
      var tag := ParseXmlAttributes(attributes, EMPTY.(tagName := tagName, namespace := prefix));
      OpenIsClean(OpenTag(Named(name), "", map[]), attributes);
      defaultNs, aliases := tag.defaultNs, tag.aliases;
      ghost var s1 := Abs();
      var o := NormalizeNamespace(tag.obj);
      assert Abs() == s1 && o == Normalize(s1, tag.obj);
      if o.namespace == "" && defaultNs != "" {
        o := o.(namespace := defaultNs, nsIsDefault := true);
      }
      var fullName := if o.namespace != "" then o.namespace + ":" + o.tagName else o.tagName;
      if topNode.FullName() == fullName {
        handlers, charHandler, topFound := InTop, true, true;
        Deliver(o.(part := Part.Start));
      }
    }

    /** start_xml_node */
    method StartXmlNode(name: string, attributes: Pairs)
      modifies this
      ensures Abs() == StartNode(old(Abs()), name, attributes)
    {
      var (tagName, prefix) := SplitName(name);
      var tag := ParseXmlAttributes(attributes, EMPTY.(tagName := tagName, namespace := prefix));
      OpenIsClean(OpenTag(Named(name), "", map[]), attributes);
      var o := NormalizeNamespace(tag.obj);
      stack := [Elem(o, tag.defaultNs, tag.aliases)] + stack;
    }

    /** xml_character_data */
    method XmlCharacterData(data: string)
      modifies this
      ensures Abs() == CharData(old(Abs()), data)
    {
      if stack == [] {
        return;
      }
      stack := [Append(stack[0], data)] + stack[1..];
    }

    /** end_xml_node */
    method EndXmlNode()
      modifies this
      ensures Abs() == EndNode(old(Abs()))
    {
      if stack == [] {
        if topFound {
          topFound, handlers := false, AwaitTop;
          Deliver(topNode.(part := Part.End));
        }
        return;
      }
      PopElement();
    }

    /** The finished element is delivered, or becomes the last child of the one below it. */
    method PopElement()
      requires stack != []
      modifies this`stack, this`delivered
      ensures Abs() == EndNode(old(Abs()))
    {
      var element := stack[0];
      CleanPopped(stack, element.obj);
      stack := stack[1..];
      if stack == [] {
        if !IsInternal(element.obj) {
          Deliver(element.obj);
        }
      } else {
        stack := [Adopt(stack[0], element.obj)] + stack[1..];
      }
    }

    /** The parser calling the installed handlers on the events of one chunk. */
    method Dispatch(events: seq<Event>)
      modifies this
      ensures Abs() == Run(old(Abs()), events)
    {
      for i := 0 to |events|
        invariant Run(Abs(), events[i..]) == Run(old(Abs()), events)
      {
        assert events[i..][0] == events[i] && events[i..][1..] == events[i + 1..];
        match events[i]
        case StartElement(name, attributes) =>
          if handlers == AwaitTop {
            StartStreamElement(name, attributes);
          } else {
            StartXmlNode(name, attributes);
          }
        case Text(data) =>
          if charHandler {
            XmlCharacterData(data);
          }
        case EndElement(_) =>
          if handlers == InTop {
            EndXmlNode();
          }
      }
    }

    /** operator<< for characters and strings: the parser either accepts the chunk or, after some
        events, reports an error. */
    method Parse(events: seq<Event>, wellFormed: bool)
      modifies this
      ensures Abs() == Feed(old(Abs()), Chunk(events, wellFormed))
    {
      if error {
        return;
      }
      Dispatch(events);
      ghost var s := Abs();
      if !wellFormed {
        error := true;
        while stack != []
          invariant Abs() == s.(error := true, stack := CleanStack(stack))
          decreases |stack|
        {
          stack := stack[1..];
        }
      }
    }

    /** operator<< for objects */
    method InsertObject(o: XmlObject)
      modifies this
      ensures Abs() == Feed(old(Abs()), Insert(o))
    {
      if o.IsValid() {
        Deliver(o);
      }
    }

    /** reset: everything the constructor sets up, except what was delivered before. */
    method ResetStream()
      modifies this
      ensures Abs() == Feed(old(Abs()), Reset)
    {
      while stack != []
        invariant delivered == old(delivered)
        decreases |stack|
      {
        stack := stack[1..];
      }
      error, topFound, defaultNs, aliases := false, false, "", map[];
      handlers, charHandler := AwaitTop, false;
    }
  }
}
