/** Correcting the last message sent to somebody (section 3 of XEP-0308), src/uxmpp/mod/MessageModule.cpp. */
module Corrections {
  import opened Sequences
  import opened Strings
  import Jids
  import opened Xml
  import opened Stanzas
  import opened StanzaObject

  type Jid = Jids.Jid

  const REQUEST := "urn:xmpp:receipts:request"
  const REPLACE := "urn:xmpp:message-correct:0:replace"
  const NEW_REQUEST := New("request", "urn:xmpp:receipts", true, true)
  const NEW_REPLACE := New("replace", "urn:xmpp:message-correct:0", true, true)

  /** A stanza handed to the session, and whether it is a correction. */
  datatype Sent = Sent(stanza: XmlObject, correction: bool)

  datatype State = State(table: map<string, XmlObject>, supported: bool, session: bool, log: seq<Sent>)

  function Init(): State {
    State(map[], true, false, [])
  }

  function Recipient(stanza: XmlObject): Jid {
    Jids.Parse(stanza.Attribute("to"))
  }

  function Key(stanza: XmlObject): string {
    Jids.Print(Recipient(stanza))
  }

  // ---------- Edits ----------

  predicate IsRequest(n: XmlObject) {
    n.FullName() == REQUEST
  }

  predicate IsReplace(n: XmlObject) {
    n.FullName() == REPLACE
  }

  /** A receipt request is added if there is none, or all are removed. */
  function WithReceipt(nodes: seq<XmlObject>, want: bool): seq<XmlObject> {
    if !want then Where(nodes, IsRequest, false)
    else if FindNode(nodes, REQUEST, true).IsValid() then nodes
    else nodes + [NEW_REQUEST]
  }

  /** The language of the first body. */
  function BodyLang(nodes: seq<XmlObject>): string {
    var node := FindNode(nodes, "body", false);
    if node.IsValid() then node.Attribute(LANG) else ""
  }

  function SetReplace(nodes: seq<XmlObject>, id: string): seq<XmlObject> {
    if nodes == [] then [NEW_REPLACE.SetAttribute("id", id)]
    else if IsReplace(nodes[0]) then [nodes[0].SetAttribute("id", id)] + nodes[1..]
    else [nodes[0]] + SetReplace(nodes[1..], id)
  }

  /** What the last stanza becomes: a new body in the same language, the old id to be replaced, and a
      new id. */
  function Corrected(last: XmlObject, body: string, newId: string): XmlObject {
    var nodes := SetBody(last.nodes, body, BodyLang(last.nodes), last.Attribute(LANG));
    last.(nodes := SetReplace(nodes, last.Attribute("id")), attributes := last.attributes["id" := newId])
  }

  /** What a stanza says it replaces. */
  function ReplaceId(stanza: XmlObject): string {
    FindNode(stanza.nodes, REPLACE, true).Attribute("id")
  }

  // ---------- Calls ----------

  function Send(s: State, msg: XmlObject, want: bool): State {
    if !s.session then s
    else
      var ms := msg.(nodes := WithReceipt(msg.nodes, want));
      s.(table := if s.supported then Store(s.table, ms) else s.table, log := s.log + [Sent(ms, false)])
  }

  /** A stanza to a full JID takes the place of one to the bare JID. */
  function Store(table: map<string, XmlObject>, ms: XmlObject): map<string, XmlObject> {
    var to := Recipient(ms);
    (if to.IsBare() then table else table - {Jids.Print(to.Bare())})[Jids.Print(to) := ms]
  }

  predicate CanCorrect(s: State, to: Jid) {
    s.session && s.supported && Jids.Print(to) in s.table
  }

  function Correct(s: State, to: Jid, body: string, newId: string): State {
    if !CanCorrect(s, to) then s
    else
      var ms := Corrected(s.table[Jids.Print(to)], body, newId);
      s.(table := s.table[Jids.Print(to) := ms], log := s.log + [Sent(ms, true)])
  }

  predicate Forgets(to: Jid, key: string) {
    if to.IsBare() then Jids.Print(to) <= key else key == Jids.Print(to)
  }

  function Reset(s: State, to: Jid): State {
    s.(table := map k | k in s.table && !Forgets(to, k) :: s.table[k])
  }

  function Support(s: State, supported: bool): State {
    s.(table := if supported then s.table else map[], supported := supported)
  }

  datatype Action =
    | DoSend(msg: XmlObject, want: bool)
    | DoCorrect(to: Jid, body: string, newId: string)
    | DoReset(to: Jid)
    | DoSupport(supported: bool)
    | DoSession(session: bool)

  function Step(s: State, a: Action): State {
    match a
    case DoSend(msg, want) => Send(s, msg, want)
    case DoCorrect(to, body, newId) => Correct(s, to, body, newId)
    case DoReset(to) => Reset(s, to)
    case DoSupport(supported) => Support(s, supported)
    case DoSession(session) => s.(session := session)
  }

  function After(actions: seq<Action>): State {
    if actions == [] then Init() else var n := |actions| - 1; Step(After(actions[..n]), actions[n])
  }

  // ---------- What a correction is ----------

  lemma BodyIsNotReplace(n: XmlObject)
    requires IsReplace(n)
    ensures !IsBody(n)
  {
    var name := n.FullName();
    assert name[|name| - 1] == 'e';
    assert n.tagName != "" ==> name[|name| - 1] == n.tagName[|n.tagName| - 1];
  }

  lemma NewReplaceIs(id: string)
    ensures IsReplace(NEW_REPLACE.SetAttribute("id", id))
  {
  }

  lemma ReplacedIs(n: XmlObject, id: string)
    ensures var r := n.SetAttribute("id", id);
      IsReplace(r) == IsReplace(n) && IsBody(r) == IsBody(n) && r.Attribute("id") == id
  {
  }

  lemma {:induction false} ReplaceFound(nodes: seq<XmlObject>, id: string)
    ensures FindNode(SetReplace(nodes, id), REPLACE, true).Attribute("id") == id
  {
    if nodes == [] {
      NewReplaceIs(id);
      ReplacedIs(NEW_REPLACE, id);
    } else if IsReplace(nodes[0]) {
      ReplacedIs(nodes[0], id);
    } else {
      ReplaceFound(nodes[1..], id);
    }
  }

  lemma {:induction false} ReplaceKeepsBodies(nodes: seq<XmlObject>, id: string)
    ensures Where(SetReplace(nodes, id), IsBody, true) == Where(nodes, IsBody, true)
  {
    if nodes == [] {
      NewReplaceIs(id);
      BodyIsNotReplace(NEW_REPLACE.SetAttribute("id", id));
      WhereCons(NEW_REPLACE.SetAttribute("id", id), [], IsBody);
    } else if IsReplace(nodes[0]) {
      ReplacedIs(nodes[0], id);
      BodyIsNotReplace(nodes[0]);
      WhereCons(nodes[0].SetAttribute("id", id), nodes[1..], IsBody);
    } else {
      ReplaceKeepsBodies(nodes[1..], id);
      WhereCons(nodes[0], SetReplace(nodes[1..], id), IsBody);
    }
  }

  /** A correction goes to the same recipient, says it replaces the stanza it was made from, has the
      new id, and carries the new text as its only body, in the language of the old one. */
  lemma CorrectionReplaces(last: XmlObject, body: string, newId: string)
    ensures var r := Corrected(last, body, newId);
      && Key(r) == Key(last)
      && ReplaceId(r) == last.Attribute("id") && r.Attribute("id") == newId
      && GetBody(r.nodes, BodyLang(last.nodes), last.Attribute(LANG)) == body
      && |Where(r.nodes, IsBody, true)| == (if body == "" then 0 else 1)
  {
    var lang, own := BodyLang(last.nodes), last.Attribute(LANG);
    var nodes := SetBody(last.nodes, body, lang, own);
    SetThenGetBody(last.nodes, body, lang, own);
    ReplaceFound(nodes, last.Attribute("id"));
    ReplaceKeepsBodies(nodes, last.Attribute("id"));
    GetBodyOfBodies(nodes, lang, own);
    GetBodyOfBodies(SetReplace(nodes, last.Attribute("id")), lang, own);
  }

  // ---------- Node by node ----------

  /** A request for a receipt (section 4 of XEP-0184). */
  predicate AsksReceipt(n: XmlObject) {
    n.FullName() == "urn:xmpp:receipts:request"
  }

  lemma RequestIsValid(n: XmlObject)
    requires AsksReceipt(n)
    ensures n.IsValid()
  {
    var name := n.FullName();
    assert name[|name| - 1] == 't';
  }

  lemma {:induction false} RequestFound(nodes: seq<XmlObject>)
    ensures FindNode(nodes, REQUEST, true).IsValid() <==> exists i :: 0 <= i < |nodes| && AsksReceipt(nodes[i])
  {
    if nodes != [] {
      if AsksReceipt(nodes[0]) {
        RequestIsValid(nodes[0]);
      } else {
        RequestFound(nodes[1..]);
        assert forall i :: 0 < i < |nodes| ==> nodes[i] == nodes[1..][i - 1];
      }
    }
  }

  /** With a receipt wanted, the message asks for one, once if it did not ask already; without, it does
      not ask. Everything else stays. */
  lemma ReceiptRules(nodes: seq<XmlObject>, want: bool)
    ensures var r := WithReceipt(nodes, want);
      && (want <==> exists i :: 0 <= i < |r| && AsksReceipt(r[i]))
      && (forall n: XmlObject :: !AsksReceipt(n) ==> (n in r <==> n in nodes))
      && (want && (exists i :: 0 <= i < |nodes| && AsksReceipt(nodes[i])) ==> r == nodes)
      && (want && (forall i :: 0 <= i < |nodes| ==> !AsksReceipt(nodes[i])) ==> |r| == |nodes| + 1 && nodes <= r)
      && (!want ==> r == Where(nodes, AsksReceipt, false))
  {
    var r := WithReceipt(nodes, want);
    RequestFound(nodes);
    SameWhere(nodes);
    if want {
      if r != nodes {
        assert AsksReceipt(r[|nodes|]);
      }
    } else {
      forall n: XmlObject ensures !AsksReceipt(n) ==> (n in r <==> n in nodes) {
        WhereIn(nodes, AsksReceipt, n);
      }
      forall i | 0 <= i < |r| ensures !AsksReceipt(r[i]) {
        WhereIn(nodes, AsksReceipt, r[i]);
      }
    }
  }

  lemma {:induction false} SameWhere(nodes: seq<XmlObject>)
    ensures Where(nodes, IsRequest, false) == Where(nodes, AsksReceipt, false)
  {
    if nodes != [] {
      SameWhere(nodes[1..]);
    }
  }

  /** What a stanza says it replaces (section 3 of XEP-0308). */
  predicate SaysReplaces(n: XmlObject) {
    n.FullName() == "urn:xmpp:message-correct:0:replace"
  }

  lemma {:induction false} ReplaceSet(nodes: seq<XmlObject>, id: string) returns (i: nat)
    ensures var r := SetReplace(nodes, id);
      && i < |r| && SaysReplaces(r[i]) && "id" in r[i].attributes && r[i].attributes["id"] == id
      && (forall k :: 0 <= k < i ==> !SaysReplaces(r[k]))
  {
    i := 0;
    if nodes == [] {
      NewReplaceIs(id);
    } else if IsReplace(nodes[0]) {
      ReplacedIs(nodes[0], id);
    } else {
      i := ReplaceSet(nodes[1..], id);
      i := i + 1;
    }
  }

  lemma {:induction false} ReplaceKeeps(nodes: seq<XmlObject>, id: string, n: XmlObject)
    requires !SaysReplaces(n)
    ensures n in SetReplace(nodes, id) <==> n in nodes
  {
    if nodes == [] {
      NewReplaceIs(id);
    } else {
      assert nodes == [nodes[0]] + nodes[1..];
      if IsReplace(nodes[0]) {
        ReplacedIs(nodes[0], id);
      } else {
        ReplaceKeeps(nodes[1..], id, n);
      }
    }
  }

  /** The language of the first body. */
  predicate FirstBodyLang(nodes: seq<XmlObject>, lang: string) {
    if forall k :: 0 <= k < |nodes| ==> nodes[k].tagName != "body" then lang == ""
    else exists i :: 0 <= i < |nodes| && nodes[i].tagName == "body" && lang == LookUp(nodes[i].attributes, "xml:lang")
           && forall k :: 0 <= k < i ==> nodes[k].tagName != "body"
  }

  lemma {:induction false} BodyLangIs(nodes: seq<XmlObject>)
    ensures FirstBodyLang(nodes, BodyLang(nodes))
  {
    if nodes != [] && nodes[0].tagName != "body" {
      BodyLangIs(nodes[1..]);
      var lang := BodyLang(nodes);
      assert BodyLang(nodes[1..]) == lang;
      assert forall k :: 0 < k < |nodes| ==> nodes[k] == nodes[1..][k - 1];
      if !(forall k :: 0 <= k < |nodes| ==> nodes[k].tagName != "body") {
        var i :| 0 <= i < |nodes[1..]| && nodes[1..][i].tagName == "body"
                 && lang == LookUp(nodes[1..][i].attributes, "xml:lang")
                 && forall k :: 0 <= k < i ==> nodes[1..][k].tagName != "body";
        assert nodes[i + 1].tagName == "body";
      }
    }
  }

  /** What a correction is made of, told by names: the same stanza with the new id, a replace node with the
      old one, and with a text exactly one body, in the language of the first body there was. */
  lemma CorrectionIs(last: XmlObject, body: string, newId: string) returns (i: nat, lang: string)
    ensures var r := Corrected(last, body, newId);
      && r == last.(nodes := r.nodes, attributes := last.attributes["id" := newId])
      && i < |r.nodes| && SaysReplaces(r.nodes[i]) && (forall k :: 0 <= k < i ==> !SaysReplaces(r.nodes[k]))
      && LookUp(r.nodes[i].attributes, "id") == LookUp(last.attributes, "id")
      && FirstBodyLang(last.nodes, lang)
      && GetBody(r.nodes, lang, LookUp(last.attributes, "xml:lang")) == body
      && (forall n :: n in r.nodes && n.tagName == "body" ==> n.content == body && body != "")
      && (forall n: XmlObject :: n.tagName != "body" && !SaysReplaces(n) ==> (n in r.nodes <==> n in last.nodes))
  {
    lang := BodyLang(last.nodes);
    var own, id := LookUp(last.attributes, "xml:lang"), LookUp(last.attributes, "id");
    var nodes := SetBody(last.nodes, body, lang, own);
    BodyLangIs(last.nodes);
    i := ReplaceSet(nodes, id);
    CorrectionReplaces(last, body, newId);
    SetThenGetBody(last.nodes, body, lang, own);
    ReplaceKeepsBodies(nodes, id);
    var r := Corrected(last, body, newId);
    forall n: XmlObject
      ensures n in r.nodes && n.tagName == "body" ==> n.content == body && body != ""
      ensures n.tagName != "body" && !SaysReplaces(n) ==> (n in r.nodes <==> n in last.nodes)
    {
      WhereIn(r.nodes, IsBody, n);
      WhereIn(nodes, IsBody, n);
      WhereIn(last.nodes, IsBody, n);
      if !SaysReplaces(n) {
        ReplaceKeeps(nodes, id, n);
      }
    }
  }

  /** When a message goes out and when a correction is refused. */
  lemma WhenSent(s: State, msg: XmlObject, want: bool, to: Jid, body: string, newId: string)
    ensures var r, key := Send(s, msg, want), Jids.Print(Jids.Parse(LookUp(msg.attributes, "to")));
      && (!s.session ==> r == s)
      && (s.session ==> |r.log| == |s.log| + 1 && s.log <= r.log && !r.log[|s.log|].correction)
      && (s.session ==> r.log[|s.log|].stanza == msg.(nodes := WithReceipt(msg.nodes, want)))
      && (s.session && !s.supported ==> r.table == s.table)
      && (s.session && s.supported ==> key in r.table && r.table[key] == r.log[|s.log|].stanza)
    ensures var r, key := Correct(s, to, body, newId), Jids.Print(to);
      if s.session && s.supported && key in s.table then
        |r.log| == |s.log| + 1 && s.log <= r.log && r.log[|s.log|].correction
        && r.table == s.table[key := r.log[|s.log|].stanza]
        && r.log[|s.log|].stanza == Corrected(s.table[key], body, newId)
      else r == s
  {
  }

  /** Corrections are supported from the start: within a session the first message can be corrected. */
  lemma FirstIsCorrectable(msg: XmlObject, want: bool)
    ensures CanCorrect(After([DoSession(true)] + [DoSend(msg, want)]), Recipient(msg))
  {
    var a := [DoSession(true)] + [DoSend(msg, want)];
    assert a[..1] == [DoSession(true)] && [DoSession(true)][..0] == [];
    assert After([DoSession(true)]) == Init().(session := true);
    assert After(a) == Send(Init().(session := true), msg, want);
    assert Recipient(msg.(nodes := WithReceipt(msg.nodes, want))) == Recipient(msg);
  }

  /** A message to a resource makes what was sent to the bare JID uncorrectable, and only that. */
  lemma BareDropped(s: State, msg: XmlObject, want: bool)
    requires s.session && s.supported
    requires var to := Jids.Parse(LookUp(msg.attributes, "to")); |to.local| <= 1023 && |to.domain| <= 1023
    ensures var r, to := Send(s, msg, want), Jids.Parse(LookUp(msg.attributes, "to"));
      var bare := to.local + if to.domain == "" then "" else "@" + to.domain;
      && (to.resource != "" ==> bare !in r.table)
      && (forall k :: k in s.table && k != Jids.Print(to) && (k != bare || to.resource == "") ==>
            k in r.table && r.table[k] == s.table[k])
  {
    var r, to := Send(s, msg, want), Recipient(msg);
    var bare := to.local + if to.domain == "" then "" else "@" + to.domain;
    assert to == Jids.Parse(LookUp(msg.attributes, "to"));
    Jids.PartsKept(to.local, to.domain, to.resource);
    assert Jids.Print(to.Bare()) == bare by {
      Jids.PrintForm(to.Bare());
    }
    SentIsCorrectable(s, msg, want);
    assert to.IsBare() <==> to.resource == "";
  }

  // ---------- The table and the history ----------

  /** The last stanza sent to a JID, going by the log alone. */
  function LastTo(log: seq<Sent>, key: string): Option<XmlObject> {
    if log == [] then None
    else
      var n := |log| - 1;
      if Key(log[n].stanza) == key then Some(log[n].stanza) else LastTo(log[..n], key)
  }

  lemma LastToSnoc(log: seq<Sent>, e: Sent, key: string)
    ensures LastTo(log + [e], key) == if Key(e.stanza) == key then Some(e.stanza) else LastTo(log, key)
  {
    assert (log + [e])[..|log|] == log;
  }

  ghost predicate TableOk(s: State) {
    && (!s.supported ==> s.table == map[])
    && forall k :: k in s.table ==> LastTo(s.log, k) == Some(s.table[k]) && Key(s.table[k]) == k
  }

  /** Every correction says that it replaces the stanza sent last to the same JID. */
  ghost predicate Chained(log: seq<Sent>) {
    forall i :: 0 <= i < |log| && log[i].correction ==> Supersedes(log, i)
  }

  predicate Supersedes(log: seq<Sent>, i: nat)
    requires i < |log|
  {
    var before := LastTo(log[..i], Key(log[i].stanza));
    before.Some? && ReplaceId(log[i].stanza) == before.value.Attribute("id")
  }

  lemma ChainedSnoc(log: seq<Sent>, e: Sent)
    requires Chained(log)
    requires e.correction ==> var before := LastTo(log, Key(e.stanza));
                              before.Some? && ReplaceId(e.stanza) == before.value.Attribute("id")
    ensures Chained(log + [e])
  {
    var r := log + [e];
    assert r[..|log|] == log;
    forall i | 0 <= i < |r| && r[i].correction ensures Supersedes(r, i) {
      if i < |log| {
        assert r[..i] == log[..i] && Supersedes(log, i);
      }
    }
  }

  lemma StoreOk(table: map<string, XmlObject>, log: seq<Sent>, e: Sent, r: map<string, XmlObject>)
    requires forall k :: k in table ==> LastTo(log, k) == Some(table[k]) && Key(table[k]) == k
    requires forall k :: k in r && k != Key(e.stanza) ==> k in table && r[k] == table[k]
    requires Key(e.stanza) in r ==> r[Key(e.stanza)] == e.stanza
    ensures forall k :: k in r ==> LastTo(log + [e], k) == Some(r[k]) && Key(r[k]) == k
  {
    forall k | k in r ensures LastTo(log + [e], k) == Some(r[k]) && Key(r[k]) == k {
      LastToSnoc(log, e, k);
    }
  }

  lemma SendKeeps(s: State, msg: XmlObject, want: bool)
    requires TableOk(s) && Chained(s.log)
    ensures TableOk(Send(s, msg, want)) && Chained(Send(s, msg, want).log)
  {
    if s.session {
      var e := Sent(msg.(nodes := WithReceipt(msg.nodes, want)), false);
      ChainedSnoc(s.log, e);
      StoreOk(s.table, s.log, e, Send(s, msg, want).table);
    }
  }

  lemma CorrectKeeps(s: State, to: Jid, body: string, newId: string)
    requires TableOk(s) && Chained(s.log)
    ensures TableOk(Correct(s, to, body, newId)) && Chained(Correct(s, to, body, newId).log)
  {
    if CanCorrect(s, to) {
      var last := s.table[Jids.Print(to)];
      var e := Sent(Corrected(last, body, newId), true);
      CorrectionReplaces(last, body, newId);
      ChainedSnoc(s.log, e);
      StoreOk(s.table, s.log, e, Correct(s, to, body, newId).table);
    }
  }

  lemma {:induction false} AlwaysOk(actions: seq<Action>)
    ensures TableOk(After(actions)) && Chained(After(actions).log)
    decreases |actions|
  {
    if actions != [] {
      var n := |actions| - 1;
      AlwaysOk(actions[..n]);
      var s := After(actions[..n]);
      match actions[n]
      case DoSend(msg, want) => SendKeeps(s, msg, want);
      case DoCorrect(to, body, newId) => CorrectKeeps(s, to, body, newId);
      case DoReset(to) =>
      case DoSupport(supported) =>
      case DoSession(session) =>
    }
  }

  /** Over any run each entry is the last stanza sent to that JID, by a send or a correction. */
  lemma TableIsLastSent(actions: seq<Action>, key: string)
    ensures var s := After(actions); key in s.table ==> LastTo(s.log, key) == Some(s.table[key])
  {
    AlwaysOk(actions);
  }

  /** Over any run the ids form an unbroken chain: the replace id of each correction is the id of the
      stanza sent just before it to the same JID. */
  lemma IdsFormChain(actions: seq<Action>, i: nat)
    requires i < |After(actions).log| && After(actions).log[i].correction
    ensures var log := After(actions).log;
      var before := LastTo(log[..i], Key(log[i].stanza));
      before.Some? && ReplaceId(log[i].stanza) == before.value.Attribute("id")
  {
    AlwaysOk(actions);
    assert Supersedes(After(actions).log, i);
  }

  // ---------- Full and bare JIDs ----------

  lemma BareIsShorter(j: Jid)
    requires !j.IsBare()
    ensures |Jids.Print(j.Bare())| < |Jids.Print(j)|
  {
  }

  /** After a message, exactly its own JID's entry is new, and one to a full JID makes what was sent to
      its bare JID uncorrectable. */
  lemma SentIsCorrectable(s: State, msg: XmlObject, want: bool)
    requires s.session && s.supported
    ensures var r, to := Send(s, msg, want), Recipient(msg);
      && CanCorrect(r, to) && r.log[|r.log| - 1].stanza == r.table[Jids.Print(to)]
      && (!to.IsBare() ==> !CanCorrect(r, to.Bare()))
      && (forall k :: k != Jids.Print(to) && (to.IsBare() || k != Jids.Print(to.Bare())) ==>
            (k in r.table <==> k in s.table) && (k in s.table ==> r.table[k] == s.table[k]))
  {
    if !Recipient(msg).IsBare() {
      BareIsShorter(Recipient(msg));
    }
  }

  lemma SameCut(x: string, u: string, y: string, v: string)
    requires '@' !in x && '@' !in y && x + "@" + u == y + "@" + v
    ensures x == y && u == v
  {
    var s := x + "@" + u;
    assert s[0..|x|] == x && s[|x|] == '@' && s[|x| + 1..] == u;
    assert s[0..|y|] == y && s[|y|] == '@' && s[|y| + 1..] == v;
    FindIs(s, '@', 0, |x|);
    FindIs(s, '@', 0, |y|);
  }

  lemma PrefixOf(prefix: string, body: string, rest: string, c: char)
    requires prefix <= body + rest && (rest != "" ==> rest[0] == c)
    ensures c in prefix || prefix <= body
  {
    if |prefix| > |body| {
      assert prefix[|body|] == c;
    } else {
      assert prefix == (body + rest)[..|prefix|] == body[..|prefix|];
    }
  }

  /** A printed JID starts with a string without '@' exactly if its local part does. */
  lemma PrintedLocal(p: string, j: Jid)
    requires '@' !in p
    ensures p <= Jids.Print(j) <==> p <= j.local
  {
    var rest := if Jids.Tail(j) == "" then "" else "@" + Jids.Tail(j);
    Jids.PrintForm(j);
    if p <= Jids.Print(j) {
      PrefixOf(p, j.local, rest, '@');
    }
    if p <= j.local {
      assert p == (j.local + rest)[..|p|];
    }
  }

  /** It starts with one that has an '@' exactly if the local part is all that precedes it, and what
      follows is the start of domain and resource. */
  lemma PrintedPrefix(local: string, more: string, j: Jid)
    requires '@' !in local && '@' !in j.local
    ensures local + "@" + more <= Jids.Print(j) <==> local == j.local && Jids.Tail(j) != "" && more <= Jids.Tail(j)
  {
    var a, b, tail := local + "@" + more, Jids.Print(j), Jids.Tail(j);
    Jids.PrintForm(j);
    assert a[|local|] == '@';
    if a <= b && tail != "" {
      var rest := b[|a|..];
      assert b == local + "@" + (more + rest);
      SameCut(local, more + rest, j.local, tail);
    }
    if local == j.local && tail != "" && more <= tail {
      assert b == local + "@" + tail;
      assert a == b[..|a|];
    }
  }

  /** A printed JID starts with p, seen at the first '@' of p. */
  predicate Starts(p: string, j: Jid) {
    var at := Find(p, '@', 0);
    if at == |p| then p <= j.local
    else p[..at] == j.local && Jids.Tail(j) != "" && p[at + 1..] <= Jids.Tail(j)
  }

  lemma StartsIs(p: string, j: Jid)
    requires '@' !in j.local
    ensures p <= Jids.Print(j) <==> Starts(p, j)
  {
    var at := Find(p, '@', 0);
    assert p[0..at] == p[..at];
    if at == |p| {
      assert p[..at] == p;
      PrintedLocal(p, j);
    } else {
      assert p == p[..at] + "@" + p[at + 1..];
      PrintedPrefix(p[..at], p[at + 1..], j);
    }
  }

  /** Over any run the entries are under printed JIDs whose local part has no '@'. */
  lemma KeysAreParsed(actions: seq<Action>, key: string)
    requires key in After(actions).table
    ensures var j := Recipient(After(actions).table[key]); key == Jids.Print(j) && '@' !in j.local
  {
    AlwaysOk(actions);
    Jids.ParsedParts(After(actions).table[key].Attribute("to"));
  }

  /** A reset of a bare JID is meant to forget what was sent to that JID and its resources. It goes by
      the printed prefix, whatever JID it is given. What was sent to is some j as here (KeysAreParsed). */
  lemma ResetForgets(s: State, to: Jid, j: Jid)
    requires to.IsBare() && '@' !in j.local
    ensures var r := Reset(s, to);
      (Jids.Print(j) in r.table <==> Jids.Print(j) in s.table && !Starts(Jids.Print(to), j))
      && (Jids.Print(j) in r.table ==> r.table[Jids.Print(j)] == s.table[Jids.Print(j)])
  {
    StartsIs(Jids.Print(to), j);
  }

  /** A reset of a full JID forgets that one alone, although others may start like it. */
  lemma ResetOfFull(s: State, to: Jid)
    requires !to.IsBare()
    ensures Reset(s, to).table == s.table - {Jids.Print(to)}
  {
  }

  /** The JIDs that a reset of a bare one forgets. */
  predicate Covers(to: Jid, j: Jid) {
    if to.domain == "" then to.local <= j.local else to.local == j.local && to.domain <= j.domain
  }

  /** For JIDs as the parser makes them these are exactly those with the same local part whose domain
      starts with its domain, or, if it has no domain, all whose local part starts with its local part. */
  lemma ParsedForgets(to: Jid, j: Jid)
    requires to.IsBare() && '@' !in to.local && '/' !in to.domain && '@' !in j.local
    ensures Starts(Jids.Print(to), j) <==> Covers(to, j)
  {
    var p := Jids.Print(to);
    StartsIs(p, j);
    Jids.PrintForm(to);
    if to.domain == "" {
      PrintedLocal(to.local, j);
    } else {
      PrintedPrefix(to.local, to.domain, j);
      DomainPrefix(to.domain, j);
    }
  }

  /** So a reset forgets somebody else: with a@x.y also a@x.yz. */
  lemma ForgetsAnother(s: State)
    ensures var to, other := Jids.Parse("a@x.y"), Jids.Parse("a@x.yz");
      && to == Jids.Jid("a", "x.y", "") && other == Jids.Jid("a", "x.yz", "")
      && to.IsBare() && other.Bare() != to && Jids.Print(other) !in Reset(s, to).table
  {
    var to, other := Jids.Jid("a", "x.y", ""), Jids.Jid("a", "x.yz", "");
    Jids.ParseInvertsPrint(to);
    Jids.ParseInvertsPrint(other);
    assert Jids.Print(to) == "a@x.y" && Jids.Print(other) == "a@x.yz";
    ResetForgets(s, to, other);
    ParsedForgets(to, other);
  }

  lemma DomainPrefix(domain: string, j: Jid)
    requires domain != "" && '/' !in domain
    ensures Jids.Tail(j) != "" && domain <= Jids.Tail(j) <==> domain <= j.domain
  {
    if domain <= Jids.Tail(j) {
      PrefixOf(domain, j.domain, if |j.resource| > 0 then "/" + j.resource else "", '/');
    }
    if domain <= j.domain {
      assert domain == Jids.Tail(j)[..|domain|];
    }
  }

  // ---------- The object ----------

  /** One round of the loop that removes receipt requests. */
  lemma RequestStep(done: seq<XmlObject>, n: XmlObject, ahead: seq<XmlObject>)
    ensures done + Where([n] + ahead, IsRequest, false)
         == if IsRequest(n) then done + Where(ahead, IsRequest, false) else done + [n] + Where(ahead, IsRequest, false)
  {
    WhereCons(n, ahead, IsRequest);
    Assoc(done, [n], Where(ahead, IsRequest, false));
    assert [] + Where(ahead, IsRequest, false) == Where(ahead, IsRequest, false);
  }

  /** One round of the loop that looks for a replace node. */
  lemma ReplaceStep(done: seq<XmlObject>, n: XmlObject, ahead: seq<XmlObject>, id: string)
    ensures done + SetReplace([n] + ahead, id)
         == if IsReplace(n) then done + [n.SetAttribute("id", id)] + ahead else done + [n] + SetReplace(ahead, id)
  {
  }

  class MessageModule {
    var table: map<string, XmlObject>
    var supported: bool
    var session: bool
    ghost var log: seq<Sent>

    ghost function Abs(): State
      reads this
    {
      State(table, supported, session, log)
    }

    constructor ()
      ensures Abs() == Init()
    {
      table, supported, session, log := map[], true, false, [];
    }

    /** Erasing every receipt request. */
    static method RemoveRequests(ms: Stanza)
      modifies ms`nodes
      ensures ms.nodes == Where(old(ms.nodes), IsRequest, false)
    {
      var i := 0;
      ghost var before, done, here := ms.nodes, [], ms.nodes;
      while i < |ms.nodes|
        invariant ms.nodes == done + here && i == |done|
        invariant done + Where(here, IsRequest, false) == Where(before, IsRequest, false)
        decreases |here|
      {
        ghost var ahead := ms.Deref(i, done, here);
        var n := ms.nodes[i];
        RequestStep(done, n, ahead);
        here := ahead;
        if IsRequest(n) {
          ms.Erase(i, done, n, ahead);
        } else {
          AtIterator(done, n, ahead, n);
          done := done + [n];
          i := i + 1;
        }
      }
    }

    /** send_message */
    method SendMessage(msg: XmlObject, wantReceipt: bool)
      modifies this`table, this`log
      ensures Abs() == Send(old(Abs()), msg, wantReceipt)
    {
      if !session {
        return;
      }
      var ms := new Stanza(msg);
      if !wantReceipt {
        RemoveRequests(ms);
      } else if !FindNode(ms.nodes, REQUEST, true).IsValid() {
        ms.nodes := ms.nodes + [NEW_REQUEST];
      }
      assert ms.Value() == msg.(nodes := WithReceipt(msg.nodes, wantReceipt));
      KeepLast(ms.Value());
      log := log + [Sent(ms.Value(), false)];
    }

    /** The stanza is remembered if corrections are supported. */
    method KeepLast(ms: XmlObject)
      modifies this`table
      ensures table == if supported then Store(old(table), ms) else old(table)
    {
      if supported {
        var to := Recipient(ms);
        if !to.IsBare() {
          table := table - {Jids.Print(to.Bare())};
        }
        table := table[Jids.Print(to) := ms];
      }
    }

    /** The replace node of a stanza is set or added. */
    static method PutReplace(ms: Stanza, id: string)
      modifies ms`nodes
      ensures ms.nodes == SetReplace(old(ms.nodes), id)
    {
      var i := 0;
      ghost var before, done, here := ms.nodes, [], ms.nodes;
      while i < |ms.nodes|
        invariant ms.nodes == done + here && i == |done|
        invariant done + SetReplace(here, id) == SetReplace(before, id)
        decreases |here|
      {
        ghost var ahead := ms.Deref(i, done, here);
        var n := ms.nodes[i];
        ReplaceStep(done, n, ahead, id);
        if IsReplace(n) {
          ms.Put(i, n.SetAttribute("id", id), done, n, ahead);
          return;
        }
        AtIterator(done, n, ahead, n);
        done, here := done + [n], ahead;
        i := i + 1;
      }
      ms.nodes := ms.nodes + [NEW_REPLACE.SetAttribute("id", id)];
    }

    /** correct_message, with the id that is made for the correction */
    method CorrectMessage(to: Jid, body: string, newId: string) returns (ok: bool)
      modifies this`table, this`log
      ensures Abs() == Correct(old(Abs()), to, body, newId) && ok == CanCorrect(old(Abs()), to)
    {
      var key := Jids.Print(to);
      if !session || !supported || key !in table {
        return false;
      }
      var last := new Stanza(table[key]);
      last.SetMessageBody(body, BodyLang(last.nodes));
      PutReplace(last, LookUp(last.attributes, "id"));
      last.attributes := last.attributes["id" := newId];
      table := table[key := last.Value()];
      log := log + [Sent(last.Value(), true)];
      return true;
    }

    /** reset_correction */
    method ResetCorrection(to: Jid)
      modifies this`table
      ensures Abs() == Reset(old(Abs()), to)
    {
      var key := Jids.Print(to);
      if !to.IsBare() {
        table := table - {key};
      } else {
        EraseAll(key);
      }
    }

    /** The loop that erases while iterating. */
    method EraseAll(key: string)
      modifies this`table
      ensures table == map k | k in old(table) && !(key <= k) :: old(table)[k]
    {
      var left := table.Keys;
      while left != {}
        invariant left <= table.Keys <= old(table.Keys)
        invariant forall k :: k in table ==> table[k] == old(table)[k]
        invariant forall k :: k in old(table) && k !in left ==> (k in table <==> !(key <= k))
        decreases |left|
      {
        var k :| k in left;
        left := left - {k};
        if key <= k {
          table := table - {k};
        }
      }
    }

    /** support_correction */
    method SupportCorrection(supported: bool)
      modifies this`table, this`supported
      ensures Abs() == Support(old(Abs()), supported)
    {
      if !supported {
        table := map[];
      }
      this.supported := supported;
    }
  }
}
