/** Editing the child nodes of a stanza in place, erasing while iterating:
    src/uxmpp/MessageStanza.cpp, src/uxmpp/PresenceStanza.cpp and src/uxmpp/Stanza.cpp. */
module Stanzas {
  import opened Strings
  import opened Xml

  const LANG := "xml:lang"
  const DELAY := "urn:xmpp:delay:delay"
  const LAST_ACTIVE := "jabber:iq:last:query"

  /** The nodes that are, or are not, of a kind. */
  function Where(nodes: seq<XmlObject>, kind: XmlObject -> bool, keep: bool): (r: seq<XmlObject>)
    ensures forall i :: 0 <= i < |r| ==> kind(r[i]) == keep
  {
    if nodes == [] then []
    else (if kind(nodes[0]) == keep then [nodes[0]] else []) + Where(nodes[1..], kind, keep)
  }

  lemma {:induction false} WhereConcat(a: seq<XmlObject>, b: seq<XmlObject>, kind: XmlObject -> bool, keep: bool)
    ensures Where(a + b, kind, keep) == Where(a, kind, keep) + Where(b, kind, keep)
  {
    if a == [] {
      assert a + b == b;
    } else {
      assert (a + b)[1..] == a[1..] + b;
      WhereConcat(a[1..], b, kind, keep);
    }
  }

  lemma WhereCons(x: XmlObject, rest: seq<XmlObject>, kind: XmlObject -> bool)
    ensures Where([x] + rest, kind, true) == (if kind(x) then [x] else []) + Where(rest, kind, true)
    ensures Where([x] + rest, kind, false) == (if kind(x) then [] else [x]) + Where(rest, kind, false)
  {
    assert ([x] + rest)[1..] == rest;
  }

  predicate IsBody(n: XmlObject) {
    n.tagName == "body"
  }

  predicate IsShow(n: XmlObject) {
    n.tagName == "show"
  }

  predicate IsLastActive(n: XmlObject) {
    n.FullName() == LAST_ACTIVE
  }

  predicate IsDelay(n: XmlObject) {
    n.FullName() == DELAY
  }

  // ---------- The body of a message ----------

  /** What the first body node becomes; lang is the stanza's own language. */
  function WithBody(n: XmlObject, body: string, lang: string, own: string): XmlObject {
    n.(attributes := if lang == "" || lang == own then n.attributes - {LANG} else n.attributes[LANG := lang],
       content := body)
  }

  const NEW_BODY := New("body", "jabber:client", false, true)

  /** Erasing all bodies, or all but the first, which is edited. */
  function SweepBody(nodes: seq<XmlObject>, body: string, lang: string, own: string, have: bool): seq<XmlObject> {
    if nodes == [] then []
    else if !IsBody(nodes[0]) then [nodes[0]] + SweepBody(nodes[1..], body, lang, own, have)
    else if body == "" || have then SweepBody(nodes[1..], body, lang, own, have)
    else [WithBody(nodes[0], body, lang, own)] + SweepBody(nodes[1..], body, lang, own, true)
  }

  function SetBody(nodes: seq<XmlObject>, body: string, lang: string, own: string): seq<XmlObject> {
    SweepBody(nodes, body, lang, own, false)
    + if body != "" && Where(nodes, IsBody, true) == [] then [WithBody(NEW_BODY, body, lang, own)] else []
  }

  predicate Matches(n: XmlObject, lang: string, own: string) {
    IsBody(n) &&
    var nodeLang := n.Attribute(LANG);
    if lang == "" then nodeLang == "" || nodeLang == own else lang == nodeLang || (nodeLang == "" && lang == own)
  }

  function GetBody(nodes: seq<XmlObject>, lang: string, own: string): string {
    if nodes == [] then ""
    else if Matches(nodes[0], lang, own) then nodes[0].content else GetBody(nodes[1..], lang, own)
  }

  lemma {:induction false} SweepBodyParts(nodes: seq<XmlObject>, body: string, lang: string, own: string, have: bool)
    ensures var r := SweepBody(nodes, body, lang, own, have);
      && Where(r, IsBody, false) == Where(nodes, IsBody, false)
      && Where(r, IsBody, true) == if body == "" || have || Where(nodes, IsBody, true) == [] then []
                                   else [WithBody(Where(nodes, IsBody, true)[0], body, lang, own)]
  {
    if nodes != [] {
      SweepBodyParts(nodes[1..], body, lang, own, have);
      SweepBodyParts(nodes[1..], body, lang, own, have || IsBody(nodes[0]));
      var r := SweepBody(nodes[1..], body, lang, own, have || IsBody(nodes[0]));
      WhereCons(nodes[0], r, IsBody);
      WhereCons(WithBody(nodes[0], body, lang, own), r, IsBody);
    }
  }

  /** The text of a body is that of its body nodes alone. */
  lemma {:induction false} GetBodyOfBodies(nodes: seq<XmlObject>, lang: string, own: string)
    ensures GetBody(nodes, lang, own) == GetBody(Where(nodes, IsBody, true), lang, own)
  {
    if nodes != [] {
      GetBodyOfBodies(nodes[1..], lang, own);
      var rest := Where(nodes[1..], IsBody, true);
      assert ([nodes[0]] + rest)[1..] == rest;
      assert [] + rest == rest;
    }
  }

  /** After setting a non-empty body there is exactly one body node, made from the first one there was,
      and reading it in the same language gives it back; after setting an empty one there is none. All
      other nodes keep their content and order. */
  lemma SetThenGetBody(nodes: seq<XmlObject>, body: string, lang: string, own: string)
    ensures var r := SetBody(nodes, body, lang, own);
      var bodies := Where(nodes, IsBody, true);
      && Where(r, IsBody, false) == Where(nodes, IsBody, false)
      && GetBody(r, lang, own) == body
      && Where(r, IsBody, true) == if body == "" then []
                                   else [WithBody(if bodies == [] then NEW_BODY else bodies[0], body, lang, own)]
  {
    var swept := SweepBody(nodes, body, lang, own, false);
    var r := SetBody(nodes, body, lang, own);
    var n := WithBody(NEW_BODY, body, lang, own);
    SweepBodyParts(nodes, body, lang, own, false);
    WhereConcat(swept, [n], IsBody, true);
    WhereConcat(swept, [n], IsBody, false);
    assert [n][1..] == [] && swept + [] == swept;
    GetBodyOfBodies(r, lang, own);
    if body != "" {
      OneBody(Where(r, IsBody, true)[0],
              if Where(nodes, IsBody, true) == [] then NEW_BODY else Where(nodes, IsBody, true)[0],
              body, lang, own);
    }
  }

  lemma OneBody(n: XmlObject, m: XmlObject, body: string, lang: string, own: string)
    requires n == WithBody(m, body, lang, own) && IsBody(m)
    ensures GetBody([n], lang, own) == body
  {
  }

  lemma WithBodyTwice(n: XmlObject, b1: string, l1: string, b2: string, l2: string, own: string)
    ensures WithBody(WithBody(n, b1, l1, own), b2, l2, own) == WithBody(n, b2, l2, own)
  {
  }

  lemma SweepCons(n: XmlObject, rest: seq<XmlObject>, body: string, lang: string, own: string, have: bool)
    ensures SweepBody([n] + rest, body, lang, own, have)
         == if !IsBody(n) then [n] + SweepBody(rest, body, lang, own, have)
            else if body == "" || have then SweepBody(rest, body, lang, own, have)
            else [WithBody(n, body, lang, own)] + SweepBody(rest, body, lang, own, true)
  {
    assert ([n] + rest)[1..] == rest;
  }

  lemma {:induction false} SweepTwice(
    nodes: seq<XmlObject>, b1: string, l1: string, b2: string, l2: string, own: string, have: bool)
    requires b1 != "" && b2 != ""
    ensures SweepBody(SweepBody(nodes, b1, l1, own, have), b2, l2, own, have) == SweepBody(nodes, b2, l2, own, have)
  {
    if nodes != [] {
      var n, have' := nodes[0], have || IsBody(nodes[0]);
      var rest := SweepBody(nodes[1..], b1, l1, own, have');
      SweepTwice(nodes[1..], b1, l1, b2, l2, own, have');
      SweepCons(n, rest, b2, l2, own, have);
      SweepCons(WithBody(n, b1, l1, own), rest, b2, l2, own, have);
      WithBodyTwice(n, b1, l1, b2, l2, own);
    }
  }

  /** A node behind others that are no bodies. */
  lemma {:induction false} SweepLast(nodes: seq<XmlObject>, n: XmlObject, body: string, lang: string, own: string)
    requires Where(nodes, IsBody, true) == []
    ensures SweepBody(nodes + [n], body, lang, own, false) == nodes + SweepBody([n], body, lang, own, false)
    ensures SweepBody(nodes, body, lang, own, false) == nodes
  {
    if nodes == [] {
      assert nodes + [n] == [n];
    } else {
      assert (nodes + [n])[1..] == nodes[1..] + [n];
      SweepLast(nodes[1..], n, body, lang, own);
    }
  }

  lemma SetBodyIs(nodes: seq<XmlObject>, body: string, lang: string, own: string)
    requires body != ""
    ensures Where(nodes, IsBody, true) != [] ==>
              SetBody(nodes, body, lang, own) == SweepBody(nodes, body, lang, own, false)
    ensures Where(nodes, IsBody, true) == [] ==>
              SetBody(nodes, body, lang, own) == nodes + [WithBody(NEW_BODY, body, lang, own)]
  {
    if Where(nodes, IsBody, true) == [] {
      SweepLast(nodes, NEW_BODY, body, lang, own);
    }
  }

  lemma SetOnlyBody(nodes: seq<XmlObject>, n: XmlObject, body: string, lang: string, own: string)
    requires body != "" && Where(nodes, IsBody, true) == [] && IsBody(n)
    ensures SetBody(nodes + [n], body, lang, own) == nodes + [WithBody(n, body, lang, own)]
  {
    WhereConcat(nodes, [n], IsBody, true);
    SetBodyIs(nodes + [n], body, lang, own);
    SweepLast(nodes, n, body, lang, own);
    SweepCons(n, [], body, lang, own, false);
    assert [n] + [] == [n];
  }

  /** The last of two non-empty texts wins, whatever nodes there were and wherever. */
  lemma SetBodyTwice(nodes: seq<XmlObject>, b1: string, l1: string, b2: string, l2: string, own: string)
    requires b1 != "" && b2 != ""
    ensures SetBody(SetBody(nodes, b1, l1, own), b2, l2, own) == SetBody(nodes, b2, l2, own)
  {
    SetBodyIs(nodes, b1, l1, own);
    SetBodyIs(nodes, b2, l2, own);
    if Where(nodes, IsBody, true) == [] {
      SetOnlyBody(nodes, WithBody(NEW_BODY, b1, l1, own), b2, l2, own);
      WithBodyTwice(NEW_BODY, b1, l1, b2, l2, own);
    } else {
      SetThenGetBody(nodes, b1, l1, own);
      SetBodyIs(SetBody(nodes, b1, l1, own), b2, l2, own);
      SweepTwice(nodes, b1, l1, b2, l2, own, false);
    }
  }

  // ---------- Bodies and languages ----------

  /** The language of a node: its own, or else that of the stanza it is in (section 2.12 of XML 1.0). */
  function LangOf(n: XmlObject, own: string): string {
    var lang := LookUp(n.attributes, "xml:lang");
    if lang != "" then lang else own
  }

  predicate BodyIn(n: XmlObject, lang: string, own: string) {
    n.tagName == "body" && LangOf(n, own) == if lang != "" then lang else own
  }

  /** get_body reads the first body in the language that is asked for, which without one is the
      stanza's; with no such body there is no text, whatever bodies there are in other languages. */
  lemma {:induction false} BodyInLanguage(nodes: seq<XmlObject>, lang: string, own: string, i: nat)
    requires i <= |nodes| && forall k :: 0 <= k < i ==> !BodyIn(nodes[k], lang, own)
    requires i < |nodes| ==> BodyIn(nodes[i], lang, own)
    ensures GetBody(nodes, lang, own) == if i < |nodes| then nodes[i].content else ""
  {
    if nodes != [] {
      assert Matches(nodes[0], lang, own) <==> BodyIn(nodes[0], lang, own);
      if i > 0 {
        assert forall k :: 0 <= k < i - 1 ==> nodes[1..][k] == nodes[k + 1];
        BodyInLanguage(nodes[1..], lang, own, i - 1);
      }
    }
  }

  lemma {:induction false} WhereIn(nodes: seq<XmlObject>, kind: XmlObject -> bool, n: XmlObject)
    ensures n in nodes && kind(n) <==> n in Where(nodes, kind, true)
    ensures n in nodes && !kind(n) <==> n in Where(nodes, kind, false)
  {
    if nodes != [] {
      assert nodes == [nodes[0]] + nodes[1..];
      WhereIn(nodes[1..], kind, n);
    }
  }

  lemma WhereAll(nodes: seq<XmlObject>, kind: XmlObject -> bool)
    ensures forall n: XmlObject :: n in nodes && kind(n) <==> n in Where(nodes, kind, true)
    ensures forall n: XmlObject :: n in nodes && !kind(n) <==> n in Where(nodes, kind, false)
  {
    forall n: XmlObject
      ensures n in nodes && kind(n) <==> n in Where(nodes, kind, true)
      ensures n in nodes && !kind(n) <==> n in Where(nodes, kind, false)
    {
      WhereIn(nodes, kind, n);
    }
  }

  lemma {:induction false} WhereNone(nodes: seq<XmlObject>, kind: XmlObject -> bool)
    ensures Where(nodes, kind, true) == [] <==> forall n :: n in nodes ==> !kind(n)
  {
    if nodes != [] {
      assert nodes == [nodes[0]] + nodes[1..];
      WhereNone(nodes[1..], kind);
    }
  }

  /** What set_body with a text leaves, node by node: one body, with that text, without a language of its
      own if it is the stanza's, and every other node there was. */
  lemma SetBodyLeaves(nodes: seq<XmlObject>, body: string, lang: string, own: string) returns (b: XmlObject)
    requires body != ""
    ensures var r := SetBody(nodes, body, lang, own);
      && b in r && b.tagName == "body" && b.content == body
      && (forall n :: n in r && n.tagName == "body" ==> n == b)
      && (forall n: XmlObject :: n.tagName != "body" ==> (n in r <==> n in nodes))
      && (if lang == "" || lang == own then "xml:lang" !in b.attributes
          else "xml:lang" in b.attributes && b.attributes["xml:lang"] == lang)
      && LangOf(b, own) == if lang != "" then lang else own
    ensures (forall n :: n in nodes ==> n.tagName != "body") ==>
              b.namespace == "jabber:client" && SetBody(nodes, body, lang, own) == nodes + [b]
  {
    var r := SetBody(nodes, body, lang, own);
    SetThenGetBody(nodes, body, lang, own);
    b := Where(r, IsBody, true)[0];
    forall n: XmlObject
      ensures n in r && n.tagName == "body" ==> n == b
      ensures n.tagName != "body" ==> (n in r <==> n in nodes)
    {
      WhereIn(r, IsBody, n);
      WhereIn(nodes, IsBody, n);
    }
    WhereIn(r, IsBody, b);
    if forall n :: n in nodes ==> n.tagName != "body" {
      SetBodyIs(nodes, body, lang, own);
      WhereNone(nodes, IsBody);
    }
  }

  // ---------- The show node of a presence ----------

  const NEW_SHOW := New("show", "jabber:client", false, true)
  const NEW_LAST := New("query", "jabber:iq:last", true, true)

  /** The sweep over show nodes and idle times; have tells whether a show node was kept. */
  function SweepShow(nodes: seq<XmlObject>, content: string, seconds: string, have: bool): seq<XmlObject> {
    if nodes == [] then []
    else
      var rest := SweepShow(nodes[1..], content, seconds, have || (IsShow(nodes[0]) && content != ""));
      if IsShow(nodes[0]) then
        if have || content == "" then rest else [nodes[0].(content := content)] + rest
      else if IsLastActive(nodes[0]) then
        if seconds == "" then rest else [nodes[0].SetAttribute("seconds", seconds)] + rest
      else [nodes[0]] + rest
  }

  function Digits(n: nat): (r: string)
    ensures r != ""
  {
    var last := [('0' as int + n % 10) as char];
    if n < 10 then last else Digits(n / 10) + last
  }

  /** A zero idle time is not written. */
  function Seconds(lastActive: nat): string {
    if lastActive == 0 then "" else Digits(lastActive)
  }

  function SetShow(nodes: seq<XmlObject>, content: string, lastActive: nat): seq<XmlObject> {
    var seconds := Seconds(lastActive);
    SweepShow(nodes, content, seconds, false)
    + IfThen(content != "" && Where(nodes, IsShow, true) == [], NEW_SHOW.(content := content))
    + IfThen(seconds != "" && Where(nodes, IsLastActive, true) == [], NEW_LAST.SetAttribute("seconds", seconds))
  }

  function GetShow(nodes: seq<XmlObject>): string {
    var node := FindNode(nodes, "show", false);
    if node.IsValid() then node.content else ""
  }

  /** A show node is never an idle time. */
  lemma ShowIsNotLast(n: XmlObject)
    requires IsShow(n)
    ensures !IsLastActive(n)
  {
    var name := n.FullName();
    assert name[|name| - 1] == n.tagName[3];
  }

  predicate IsOther(n: XmlObject) {
    !IsShow(n) && !IsLastActive(n)
  }

  function WithSeconds(nodes: seq<XmlObject>, seconds: string): (r: seq<XmlObject>)
    ensures |r| == |nodes| && forall i :: 0 <= i < |r| ==> r[i] == nodes[i].SetAttribute("seconds", seconds)
  {
    seq(|nodes|, i requires 0 <= i < |nodes| => nodes[i].SetAttribute("seconds", seconds))
  }

  lemma WithSecondsCons(x: XmlObject, rest: seq<XmlObject>, seconds: string)
    ensures WithSeconds([x] + rest, seconds) == [x.SetAttribute("seconds", seconds)] + WithSeconds(rest, seconds)
  {
  }

  lemma {:induction false} SweepShowOthers(nodes: seq<XmlObject>, content: string, seconds: string, have: bool)
    ensures Where(SweepShow(nodes, content, seconds, have), IsOther, true) == Where(nodes, IsOther, true)
  {
    if nodes != [] {
      SweepShowOthers(nodes[1..], content, seconds, have || (IsShow(nodes[0]) && content != ""));
      var rest := SweepShow(nodes[1..], content, seconds, have || (IsShow(nodes[0]) && content != ""));
      WhereCons(nodes[0], rest, IsOther);
      WhereCons(nodes[0].(content := content), rest, IsOther);
      WhereCons(nodes[0].SetAttribute("seconds", seconds), rest, IsOther);
    }
  }

  lemma {:induction false} SweepShowShows(nodes: seq<XmlObject>, content: string, seconds: string, have: bool)
    ensures var shows := Where(nodes, IsShow, true);
      Where(SweepShow(nodes, content, seconds, have), IsShow, true)
      == if have || content == "" || shows == [] then [] else [shows[0].(content := content)]
  {
    if nodes != [] {
      var have' := have || (IsShow(nodes[0]) && content != "");
      SweepShowShows(nodes[1..], content, seconds, have');
      var rest := SweepShow(nodes[1..], content, seconds, have');
      WhereCons(nodes[0], rest, IsShow);
      WhereCons(nodes[0].(content := content), rest, IsShow);
      WhereCons(nodes[0].SetAttribute("seconds", seconds), rest, IsShow);
    }
  }

  lemma {:induction false} SweepShowLast(nodes: seq<XmlObject>, content: string, seconds: string, have: bool)
    ensures var last := Where(nodes, IsLastActive, true);
      Where(SweepShow(nodes, content, seconds, have), IsLastActive, true)
      == if seconds == "" then [] else WithSeconds(last, seconds)
  {
    if nodes != [] {
      var have' := have || (IsShow(nodes[0]) && content != "");
      SweepShowLast(nodes[1..], content, seconds, have');
      var rest := SweepShow(nodes[1..], content, seconds, have');
      if IsShow(nodes[0]) {
        ShowIsNotLast(nodes[0]);
        WhereCons(nodes[0].(content := content), rest, IsLastActive);
      } else if IsLastActive(nodes[0]) {
        WhereCons(nodes[0].SetAttribute("seconds", seconds), rest, IsLastActive);
        WithSecondsCons(nodes[0], Where(nodes[1..], IsLastActive, true), seconds);
      } else {
        WhereCons(nodes[0], rest, IsLastActive);
      }
    }
  }

  lemma {:induction false} GetShowOfShows(nodes: seq<XmlObject>)
    ensures GetShow(nodes) == GetShow(Where(nodes, IsShow, true))
  {
    if nodes != [] {
      GetShowOfShows(nodes[1..]);
      var rest := Where(nodes[1..], IsShow, true);
      assert ([nodes[0]] + rest)[1..] == rest;
      assert [] + rest == rest;
    }
  }

  lemma NewNodesAre(content: string, seconds: string)
    ensures var show, last := NEW_SHOW.(content := content), NEW_LAST.SetAttribute("seconds", seconds);
      IsShow(show) && !IsLastActive(show) && !IsShow(last) && IsLastActive(last)
  {
    ShowIsNotLast(NEW_SHOW.(content := content));
  }

  function IfThen(condition: bool, n: XmlObject): seq<XmlObject> {
    if condition then [n] else []
  }

  lemma AppendTwo(nodes: seq<XmlObject>, a: seq<XmlObject>, b: seq<XmlObject>, kind: XmlObject -> bool)
    ensures Where(nodes + a + b, kind, true) == Where(nodes, kind, true) + Where(a, kind, true) + Where(b, kind, true)
  {
    WhereConcat(nodes + a, b, kind, true);
    WhereConcat(nodes, a, kind, true);
  }

  lemma WhereOne(condition: bool, n: XmlObject, kind: XmlObject -> bool)
    ensures Where(IfThen(condition, n), kind, true) == IfThen(condition && kind(n), n)
  {
    WhereCons(n, [], kind);
    assert [n] + [] == [n];
  }

  /** After setting, a non-empty show is in exactly one node, made from the first one there was, and is
      what is read back; an empty one leaves none. A positive idle time is in every idle time node, or
      in a new one; zero leaves none. All other nodes keep their content and order. */
  lemma SetThenGetShow(nodes: seq<XmlObject>, content: string, lastActive: nat)
    ensures var r, seconds := SetShow(nodes, content, lastActive), Seconds(lastActive);
      var shows, last := Where(nodes, IsShow, true), Where(nodes, IsLastActive, true);
      && Where(r, IsOther, true) == Where(nodes, IsOther, true)
      && GetShow(r) == content
      && Where(r, IsShow, true)
         == (if content == "" then [] else [(if shows == [] then NEW_SHOW else shows[0]).(content := content)])
      && Where(r, IsLastActive, true)
         == (if lastActive == 0 then []
             else if last == [] then [NEW_LAST.SetAttribute("seconds", seconds)]
             else WithSeconds(last, seconds))
  {
    var seconds := Seconds(lastActive);
    var shows, last := Where(nodes, IsShow, true), Where(nodes, IsLastActive, true);
    var swept := SweepShow(nodes, content, seconds, false);
    SweepShowOthers(nodes, content, seconds, false);
    SweepShowShows(nodes, content, seconds, false);
    SweepShowLast(nodes, content, seconds, false);
    AddedNodes(swept, content != "" && shows == [], content, seconds != "" && last == [], seconds);
    var r := SetShow(nodes, content, lastActive);
    GetShowOfShows(r);
  }

  lemma AddedNodes(swept: seq<XmlObject>, newShow: bool, content: string, newLast: bool, seconds: string)
    ensures var show, last := NEW_SHOW.(content := content), NEW_LAST.SetAttribute("seconds", seconds);
      var r := swept + IfThen(newShow, show) + IfThen(newLast, last);
      && Where(r, IsOther, true) == Where(swept, IsOther, true)
      && Where(r, IsShow, true) == Where(swept, IsShow, true) + IfThen(newShow, show)
      && Where(r, IsLastActive, true) == Where(swept, IsLastActive, true) + IfThen(newLast, last)
  {
    var show, last := NEW_SHOW.(content := content), NEW_LAST.SetAttribute("seconds", seconds);
    NewNodesAre(content, seconds);
    AddedKind(swept, newShow, show, newLast, last, IsOther);
    AddedKind(swept, newShow, show, newLast, last, IsShow);
    AddedKind(swept, newShow, show, newLast, last, IsLastActive);
  }

  lemma AddedKind(swept: seq<XmlObject>, a: bool, x: XmlObject, b: bool, y: XmlObject, kind: XmlObject -> bool)
    ensures Where(swept + IfThen(a, x) + IfThen(b, y), kind, true)
         == Where(swept, kind, true) + IfThen(a && kind(x), x) + IfThen(b && kind(y), y)
  {
    AppendTwo(swept, IfThen(a, x), IfThen(b, y), kind);
    WhereOne(a, x, kind);
    WhereOne(b, y, kind);
  }

  // ---------- Shows and idle times, node by node ----------

  /** What decimal digits are worth. */
  function Worth(digits: string): int {
    if digits == "" then 0
    else Worth(digits[..|digits| - 1]) * 10 + (digits[|digits| - 1] as int - '0' as int)
  }

  lemma {:induction false} DigitsWorth(n: nat)
    ensures Worth(Digits(n)) == n && forall i :: 0 <= i < |Digits(n)| ==> '0' <= Digits(n)[i] <= '9'
  {
    if n >= 10 {
      DigitsWorth(n / 10);
      assert Digits(n)[..|Digits(n)| - 1] == Digits(n / 10);
    } else {
      assert Digits(n)[..0] == "";
    }
  }

  /** An idle time node: the query of XEP-0012. */
  predicate IsIdle(n: XmlObject) {
    n.FullName() == "jabber:iq:last:query"
  }

  lemma GetShowIs(nodes: seq<XmlObject>, i: nat)
    requires i <= |nodes| && forall k :: 0 <= k < i ==> nodes[k].tagName != "show"
    requires i < |nodes| ==> nodes[i].tagName == "show"
    ensures GetShow(nodes) == if i < |nodes| then nodes[i].content else ""
  {
    if i > 0 {
      assert forall k :: 0 <= k < i - 1 ==> nodes[1..][k] == nodes[k + 1];
      GetShowIs(nodes[1..], i - 1);
    }
  }

  lemma ShowNodes(nodes: seq<XmlObject>, content: string, lastActive: nat)
    ensures var r, shows := SetShow(nodes, content, lastActive), Where(nodes, IsShow, true);
      && Where(r, IsShow, true)
         == (if content == "" then [] else [(if shows == [] then NEW_SHOW else shows[0]).(content := content)])
  {
    SetThenGetShow(nodes, content, lastActive);
  }

  lemma IdleNodes(nodes: seq<XmlObject>, content: string, lastActive: nat)
    ensures var w := Where(SetShow(nodes, content, lastActive), IsLastActive, true);
      && (w == [] <==> lastActive == 0)
      && forall n :: n in w ==> "seconds" in n.attributes && n.attributes["seconds"] == Digits(lastActive)
  {
    SetThenGetShow(nodes, content, lastActive);
  }

  lemma ShowsLeft(nodes: seq<XmlObject>, content: string, lastActive: nat)
    ensures var r := SetShow(nodes, content, lastActive);
      && (forall n :: n in r && n.tagName == "show" ==> n.content == content)
      && (content != "" <==> exists n :: n in r && n.tagName == "show")
      && ((forall n :: n in nodes ==> n.tagName != "show") ==>
            forall n :: n in r && n.tagName == "show" ==> n.namespace == "jabber:client")
  {
    var r := SetShow(nodes, content, lastActive);
    ShowNodes(nodes, content, lastActive);
    WhereNone(r, IsShow);
    WhereNone(nodes, IsShow);
    WhereAll(r, IsShow);
  }

  lemma IdleLeft(nodes: seq<XmlObject>, content: string, lastActive: nat)
    ensures var r := SetShow(nodes, content, lastActive);
      && (forall n :: n in r && IsIdle(n) ==>
            "seconds" in n.attributes && Worth(n.attributes["seconds"]) == lastActive)
      && (lastActive > 0 <==> exists n :: n in r && IsIdle(n))
  {
    var r := SetShow(nodes, content, lastActive);
    IdleNodes(nodes, content, lastActive);
    DigitsWorth(lastActive);
    WhereNone(r, IsLastActive);
    WhereAll(r, IsLastActive);
  }

  /** What set_show leaves, node by node: every show node has the text, and there is one exactly if there
      is a text; every idle time node has the seconds, and there is one exactly if they are not zero; all
      other nodes are those there were. */
  lemma SetShowLeaves(nodes: seq<XmlObject>, content: string, lastActive: nat)
    ensures var r := SetShow(nodes, content, lastActive);
      && (forall n :: n in r && n.tagName == "show" ==> n.content == content)
      && (content != "" <==> exists n :: n in r && n.tagName == "show")
      && (forall n :: n in r && IsIdle(n) ==>
            "seconds" in n.attributes && Worth(n.attributes["seconds"]) == lastActive)
      && (lastActive > 0 <==> exists n :: n in r && IsIdle(n))
      && (forall n: XmlObject :: n.tagName != "show" && !IsIdle(n) ==> (n in r <==> n in nodes))
  {
    var r := SetShow(nodes, content, lastActive);
    ShowsLeft(nodes, content, lastActive);
    IdleLeft(nodes, content, lastActive);
    SetThenGetShow(nodes, content, lastActive);
    forall n: XmlObject ensures n.tagName != "show" && !IsIdle(n) ==> (n in r <==> n in nodes) {
      WhereIn(r, IsOther, n);
      WhereIn(nodes, IsOther, n);
    }
  }

  // ---------- Delays ----------

  const NEW_DELAY := New("delay", "urn:xmpp:delay", true, true)

  function WithDelay(n: XmlObject, from: string, stamp: string, reason: string): XmlObject {
    n.SetAttribute("from", from).SetAttribute("stamp", stamp).(content := reason)
  }

  function SetDelay(nodes: seq<XmlObject>, from: string, stamp: string, reason: string): seq<XmlObject> {
    if stamp == "" then Where(nodes, IsDelay, false)
    else if nodes == [] then [WithDelay(NEW_DELAY, from, stamp, reason)]
    else if IsDelay(nodes[0]) then [WithDelay(nodes[0], from, stamp, reason)] + nodes[1..]
    else [nodes[0]] + SetDelay(nodes[1..], from, stamp, reason)
  }

  /** What the delay getters read: origin, stamp and reason of the first delay. */
  function GetDelay(nodes: seq<XmlObject>): (string, string, string) {
    var n := FindNode(nodes, DELAY, true);
    (n.Attribute("from"), n.Attribute("stamp"), n.content)
  }

  lemma {:induction false} NoneFound(nodes: seq<XmlObject>)
    requires Where(nodes, IsDelay, true) == []
    ensures FindNode(nodes, DELAY, true) == EMPTY
  {
    if nodes != [] {
      NoneFound(nodes[1..]);
    }
  }

  lemma {:induction false} WhereNot(nodes: seq<XmlObject>, kind: XmlObject -> bool)
    ensures Where(Where(nodes, kind, false), kind, true) == []
    ensures Where(Where(nodes, kind, false), kind, false) == Where(nodes, kind, false)
  {
    if nodes != [] {
      WhereNot(nodes[1..], kind);
      var rest := Where(nodes[1..], kind, false);
      WhereCons(nodes[0], rest, kind);
      assert [] + rest == rest;
    }
  }

  lemma NewDelayIs()
    ensures IsDelay(NEW_DELAY)
  {
  }

  lemma EditedIsDelay(n: XmlObject, from: string, stamp: string, reason: string)
    ensures var r := WithDelay(n, from, stamp, reason);
      IsDelay(r) == IsDelay(n) && (r.Attribute("from"), r.Attribute("stamp"), r.content) == (from, stamp, reason)
  {
  }

  /** The delays and the other nodes after a stamp was set. */
  lemma {:induction false} SetDelayParts(nodes: seq<XmlObject>, from: string, stamp: string, reason: string)
    requires stamp != ""
    ensures var r := SetDelay(nodes, from, stamp, reason);
      && Where(r, IsDelay, false) == Where(nodes, IsDelay, false)
      && Where(r, IsDelay, true)
         == (var delays := Where(nodes, IsDelay, true);
             if delays == [] then [WithDelay(NEW_DELAY, from, stamp, reason)]
             else [WithDelay(delays[0], from, stamp, reason)] + delays[1..])
  {
    if nodes == [] {
      NewDelayIs();
      EditedIsDelay(NEW_DELAY, from, stamp, reason);
      WhereCons(WithDelay(NEW_DELAY, from, stamp, reason), [], IsDelay);
    } else if IsDelay(nodes[0]) {
      EditedIsDelay(nodes[0], from, stamp, reason);
      WhereCons(WithDelay(nodes[0], from, stamp, reason), nodes[1..], IsDelay);
    } else {
      SetDelayParts(nodes[1..], from, stamp, reason);
      WhereCons(nodes[0], SetDelay(nodes[1..], from, stamp, reason), IsDelay);
      assert [] + Where(nodes[1..], IsDelay, true) == Where(nodes[1..], IsDelay, true);
    }
  }

  lemma {:induction false} GetSetDelay(nodes: seq<XmlObject>, from: string, stamp: string, reason: string)
    requires stamp != ""
    ensures GetDelay(SetDelay(nodes, from, stamp, reason)) == (from, stamp, reason)
  {
    if nodes == [] {
      NewDelayIs();
      EditedIsDelay(NEW_DELAY, from, stamp, reason);
    } else if IsDelay(nodes[0]) {
      EditedIsDelay(nodes[0], from, stamp, reason);
    } else {
      GetSetDelay(nodes[1..], from, stamp, reason);
    }
  }

  /** The getters read what was set. All nodes that are not delays stay as they are. An empty stamp
      removes every delay, and another one touches only the first, or adds one at the end. */
  lemma SetThenGetDelay(nodes: seq<XmlObject>, from: string, stamp: string, reason: string)
    ensures var r := SetDelay(nodes, from, stamp, reason);
      var delays := Where(nodes, IsDelay, true);
      && Where(r, IsDelay, false) == Where(nodes, IsDelay, false)
      && GetDelay(r) == (if stamp == "" then ("", "", "") else (from, stamp, reason))
      && Where(r, IsDelay, true)
         == (if stamp == "" then []
             else if delays == [] then [WithDelay(NEW_DELAY, from, stamp, reason)]
             else [WithDelay(delays[0], from, stamp, reason)] + delays[1..])
  {
    if stamp == "" {
      WhereNot(nodes, IsDelay);
      NoneFound(Where(nodes, IsDelay, false));
    } else {
      SetDelayParts(nodes, from, stamp, reason);
      GetSetDelay(nodes, from, stamp, reason);
    }
  }

  /** A delay: the element of XEP-0203. */
  predicate IsDelayed(n: XmlObject) {
    n.FullName() == "urn:xmpp:delay:delay"
  }

  lemma {:induction false} GetDelayIs(nodes: seq<XmlObject>, i: nat)
    requires i <= |nodes| && forall k :: 0 <= k < i ==> !IsDelayed(nodes[k])
    requires i < |nodes| ==> IsDelayed(nodes[i])
    ensures GetDelay(nodes)
         == if i == |nodes| then ("", "", "")
            else (LookUp(nodes[i].attributes, "from"), LookUp(nodes[i].attributes, "stamp"), nodes[i].content)
  {
    if i > 0 {
      assert forall k :: 0 <= k < i - 1 ==> nodes[1..][k] == nodes[k + 1];
      GetDelayIs(nodes[1..], i - 1);
    }
  }

  /** What set_delay leaves, node by node: with a stamp the first delay has origin, stamp and reason; an
      empty stamp leaves no delay; all other nodes are those there were. */
  lemma SetDelayLeaves(nodes: seq<XmlObject>, from: string, stamp: string, reason: string)
    ensures var r := SetDelay(nodes, from, stamp, reason);
      && (stamp != "" <==> exists n :: n in r && IsDelayed(n))
      && (forall n: XmlObject :: !IsDelayed(n) ==> (n in r <==> n in nodes))
      && (forall i :: 0 <= i < |r| && IsDelayed(r[i]) && (forall k :: 0 <= k < i ==> !IsDelayed(r[k])) ==>
            r[i].content == reason && LookUp(r[i].attributes, "from") == from
            && LookUp(r[i].attributes, "stamp") == stamp)
  {
    var r := SetDelay(nodes, from, stamp, reason);
    SetThenGetDelay(nodes, from, stamp, reason);
    WhereNone(r, IsDelay);
    forall n: XmlObject ensures !IsDelayed(n) ==> (n in r <==> n in nodes) {
      WhereIn(r, IsDelay, n);
      WhereIn(nodes, IsDelay, n);
    }
    forall i | 0 <= i < |r| && IsDelayed(r[i]) && (forall k :: 0 <= k < i ==> !IsDelayed(r[k]))
      ensures r[i].content == reason && LookUp(r[i].attributes, "from") == from
      ensures LookUp(r[i].attributes, "stamp") == stamp
    {
      GetDelayIs(r, i);
      assert r[i] in r;
    }
  }
}
