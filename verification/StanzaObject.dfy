/** The stanza editors as they work on the node list of an object. */
module StanzaObject {
  import opened Sequences
  import opened Xml
  import opened Stanzas

  /** The node list around an iterator: what is done, the node it is at, and what lies ahead. */
  lemma AtIterator(done: seq<XmlObject>, n: XmlObject, ahead: seq<XmlObject>, x: XmlObject)
    ensures var nodes, i := done + ([n] + ahead), |done|;
      && nodes[i] == n
      && nodes == done + [n] + ahead
      && nodes[..i] + nodes[i + 1..] == done + ahead
      && nodes[i := x] == done + [x] + ahead
  {
  }

  /** Whether a node of the kind was found so far, or is still ahead, says whether there was one. */
  ghost predicate Pending(before: seq<XmlObject>, ahead: seq<XmlObject>, kind: XmlObject -> bool, found: bool) {
    Where(before, kind, true) == [] <==> !found && Where(ahead, kind, true) == []
  }

  lemma PendingStep(
    asked: bool, before: seq<XmlObject>, n: XmlObject, ahead: seq<XmlObject>, kind: XmlObject -> bool, found: bool)
    requires asked ==> Pending(before, [n] + ahead, kind, found)
    ensures asked ==> Pending(before, ahead, kind, found || kind(n))
  {
    WhereCons(n, ahead, kind);
  }

  /** One round of the loop of set_body. */
  lemma BodyStep(
    done: seq<XmlObject>, n: XmlObject, ahead: seq<XmlObject>, body: string, lang: string, own: string, have: bool)
    ensures done + SweepBody([n] + ahead, body, lang, own, have)
         == if !IsBody(n) then done + [n] + SweepBody(ahead, body, lang, own, have)
            else if body == "" || have then done + SweepBody(ahead, body, lang, own, have)
            else done + [WithBody(n, body, lang, own)] + SweepBody(ahead, body, lang, own, true)
  {
  }

  /** One round of the loop of set_show. */
  lemma ShowStep(
    done: seq<XmlObject>, n: XmlObject, ahead: seq<XmlObject>, content: string, seconds: string, have: bool)
    ensures done + SweepShow([n] + ahead, content, seconds, have)
         == if IsShow(n) then
              if have || content == "" then done + SweepShow(ahead, content, seconds, have)
              else done + [n.(content := content)] + SweepShow(ahead, content, seconds, true)
            else if IsLastActive(n) then
              if seconds == "" then done + SweepShow(ahead, content, seconds, have)
              else done + [n.SetAttribute("seconds", seconds)] + SweepShow(ahead, content, seconds, have)
            else done + [n] + SweepShow(ahead, content, seconds, have)
  {
    assert ([n] + ahead)[1..] == ahead;
    Assoc(done, [n], SweepShow(ahead, content, seconds, have));
    Assoc(done, [n.(content := content)], SweepShow(ahead, content, seconds, true));
    Assoc(done, [n.SetAttribute("seconds", seconds)], SweepShow(ahead, content, seconds, have));
  }

  /** One round of the loop of set_delay, and the edit after it. */
  lemma DelayStep(
    done: seq<XmlObject>, n: XmlObject, ahead: seq<XmlObject>, from: string, stamp: string, reason: string)
    ensures done + SetDelay([n] + ahead, from, stamp, reason)
         == if !IsDelay(n) then done + [n] + SetDelay(ahead, from, stamp, reason)
            else if stamp == "" then done + SetDelay(ahead, from, stamp, reason)
            else done + [WithDelay(n, from, stamp, reason)] + ahead
  {
    assert ([n] + ahead)[1..] == ahead;
    Assoc(done, [n], SetDelay(ahead, from, stamp, reason));
    Assoc(done, [WithDelay(n, from, stamp, reason)], ahead);
    assert [] + Where(ahead, IsDelay, false) == Where(ahead, IsDelay, false);
  }

  class Stanza {
    const rest: XmlObject
    var attributes: map<string, string>
    var nodes: seq<XmlObject>

    function Value(): XmlObject
      reads this
    {
      rest.(attributes := attributes, nodes := nodes)
    }

    constructor (xml: XmlObject)
      ensures Value() == xml
    {
      rest, attributes, nodes := xml, xml.attributes, xml.nodes;
    }

    function Own(): string
      reads this
    {
      LookUp(attributes, LANG)
    }

    /** vector::erase */
    method Erase(i: nat, ghost done: seq<XmlObject>, ghost n: XmlObject, ghost ahead: seq<XmlObject>)
      requires nodes == done + ([n] + ahead) && i == |done|
      modifies this`nodes
      ensures nodes == done + ahead
    {
      AtIterator(done, n, ahead, n);
      nodes := nodes[..i] + nodes[i + 1..];
    }

    /** The node at the iterator is edited. */
    method Put(i: nat, x: XmlObject, ghost done: seq<XmlObject>, ghost n: XmlObject, ghost ahead: seq<XmlObject>)
      requires nodes == done + ([n] + ahead) && i == |done|
      modifies this`nodes
      ensures nodes == done + [x] + ahead
    {
      AtIterator(done, n, ahead, x);
      nodes := nodes[i := x];
    }

    /** Where an iterator that is not at the end stands. */
    ghost method Deref(i: nat, done: seq<XmlObject>, here: seq<XmlObject>) returns (ahead: seq<XmlObject>)
      requires nodes == done + here && i == |done| < |nodes|
      ensures here == [nodes[i]] + ahead
    {
      ahead := here[1..];
    }

    // ---------- Bodies ----------

    method SetMessageBody(body: string, lang: string)
      modifies this`nodes
      ensures nodes == SetBody(old(nodes), body, lang, Own())
    {
      var own := Own();
      var haveBody := false;
      var i := 0;
      ghost var before, done, here := nodes, [], nodes;
      while i < |nodes|
        invariant nodes == done + here && i == |done|
        invariant done + SweepBody(here, body, lang, own, haveBody) == SweepBody(before, body, lang, own, false)
        invariant body != "" ==> Pending(before, here, IsBody, haveBody)
        decreases |here|
      {
        ghost var ahead := Deref(i, done, here);
        var n := nodes[i];
        BodyStep(done, n, ahead, body, lang, own, haveBody);
        PendingStep(body != "", before, n, ahead, IsBody, haveBody);
        here := ahead;
        if IsBody(n) && (body == "" || haveBody) {
          Erase(i, done, n, ahead);
        } else {
          var edited := n;
          if IsBody(n) {
            haveBody := true;
            edited := WithBody(n, body, lang, own);
          }
          Put(i, edited, done, n, ahead);
          done := done + [edited];
          i := i + 1;
        }
      }
      if body != "" && !haveBody {
        nodes := nodes + [WithBody(NEW_BODY, body, lang, own)];
      }
    }

    method GetMessageBody(lang: string) returns (body: string)
      ensures body == GetBody(nodes, lang, Own())
    {
      for i := 0 to |nodes|
        invariant GetBody(nodes, lang, Own()) == GetBody(nodes[i..], lang, Own())
      {
        if Matches(nodes[i], lang, Own()) {
          return nodes[i].content;
        }
      }
      return "";
    }

    // ---------- Show and idle time ----------

    method SetPresenceShow(content: string, lastActive: nat)
      modifies this`nodes
      ensures nodes == SetShow(old(nodes), content, lastActive)
    {
      var seconds := Seconds(lastActive);
      var showIsSet, lastActiveIsSet := false, false;
      var i := 0;
      ghost var before, done, here := nodes, [], nodes;
      while i < |nodes|
        invariant nodes == done + here && i == |done|
        invariant done + SweepShow(here, content, seconds, showIsSet) == SweepShow(before, content, seconds, false)
        invariant content != "" ==> Pending(before, here, IsShow, showIsSet)
        invariant seconds != "" ==> Pending(before, here, IsLastActive, lastActiveIsSet)
        decreases |here|
      {
        ghost var ahead := Deref(i, done, here);
        var n := nodes[i];
        ShowStep(done, n, ahead, content, seconds, showIsSet);
        PendingStep(content != "", before, n, ahead, IsShow, showIsSet);
        PendingStep(seconds != "", before, n, ahead, IsLastActive, lastActiveIsSet);
        here := ahead;
        var erase, edited := EditShow(n, content, seconds, showIsSet);
        if erase {
          Erase(i, done, n, ahead);
        } else {
          showIsSet := showIsSet || IsShow(n);
          lastActiveIsSet := lastActiveIsSet || IsLastActive(n);
          Put(i, edited, done, n, ahead);
          done := done + [edited];
          i := i + 1;
        }
      }
      if !showIsSet && content != "" {
        nodes := nodes + [NEW_SHOW.(content := content)];
      }
      if !lastActiveIsSet && seconds != "" {
        nodes := nodes + [NEW_LAST.SetAttribute("seconds", seconds)];
      }
    }

    /** What the loop does to one node. */
    static method EditShow(n: XmlObject, content: string, seconds: string, showIsSet: bool)
      returns (erase: bool, edited: XmlObject)
      ensures IsShow(n) ==> !IsLastActive(n) && erase == (showIsSet || content == "")
      ensures !IsShow(n) ==> erase == (IsLastActive(n) && seconds == "")
      ensures !erase ==> edited == if IsShow(n) then n.(content := content)
                                   else if IsLastActive(n) then n.SetAttribute("seconds", seconds) else n
    {
      edited := n;
      if IsShow(n) {
        ShowIsNotLast(n);
        if showIsSet || content == "" {
          return true, n;
        }
        edited := n.(content := content);
      } else if IsLastActive(n) {
        if seconds == "" {
          return true, n;
        }
        edited := n.SetAttribute("seconds", seconds);
      }
      erase := false;
    }

    /** get_show, with the search loop of find_node. */
    method GetPresenceShow() returns (content: string)
      ensures content == GetShow(nodes)
    {
      for i := 0 to |nodes|
        invariant FindNode(nodes, "show", false) == FindNode(nodes[i..], "show", false)
      {
        if nodes[i].tagName == "show" {
          return if nodes[i].IsValid() then nodes[i].content else "";
        }
      }
      return "";
    }

    // ---------- Delays ----------

    method SetStanzaDelay(from: string, stamp: string, reason: string)
      modifies this`nodes
      ensures nodes == SetDelay(old(nodes), from, stamp, reason)
    {
      var i := 0;
      ghost var before, done, here := nodes, [], nodes;
      while i < |nodes|
        invariant nodes == done + here && i == |done|
        invariant done + SetDelay(here, from, stamp, reason) == SetDelay(before, from, stamp, reason)
        decreases |here|
      {
        ghost var ahead := Deref(i, done, here);
        var n := nodes[i];
        DelayStep(done, n, ahead, from, stamp, reason);
        if !IsDelay(n) {
          AtIterator(done, n, ahead, n);
          done, here := done + [n], ahead;
          i := i + 1;
        } else if stamp == "" {
          Erase(i, done, n, ahead);
          here := ahead;
        } else {
          Put(i, WithDelay(n, from, stamp, reason), done, n, ahead);
          return;
        }
      }
      if stamp != "" {
        nodes := nodes + [WithDelay(NEW_DELAY, from, stamp, reason)];
      }
    }
  }
}
