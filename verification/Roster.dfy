/** Roster pushes (section 2.1.6 of RFC 6121), src/uxmpp/mod/RosterModule.cpp. */
module Rosters {
  import opened Jids
  import opened Xml

  function JidOf(item: XmlObject): Jid {
    Parse(item.Attribute("jid"))
  }

  predicate Removes(item: XmlObject) {
    item.Attribute("subscription") == "remove"
  }

  /** What a push does to the item list: only the first item with the same JID is touched, and an item
      with a new JID is appended as it is, even if it says it is removed. */
  function Push(items: seq<XmlObject>, item: XmlObject): seq<XmlObject> {
    if items == [] then [item]
    else if JidOf(items[0]) == JidOf(item) then
      if Removes(item) then items[1..] else [item] + items[1..]
    else [items[0]] + Push(items[1..], item)
  }

  class RosterModule {
    var items: seq<XmlObject>

    constructor ()
      ensures items == []
    {
      items := [];
    }

    method HandleRosterPush(item: XmlObject)
      modifies this
      ensures items == Push(old(items), item)
    {
      var rosterUpdated := false;
      var i := 0;
      while i < |items|
        invariant items == old(items) && i <= |items| && NoneBefore(items, i, JidOf(item))
      {
        if JidOf(items[i]) == JidOf(item) {
          rosterUpdated := true;
          PushAt(items, item, i);
          if Removes(item) {
            items := items[..i] + items[i + 1..];
          } else {
            items := items[i := item];
          }
          break;
        }
        i := i + 1;
      }
      if !rosterUpdated {
        PushAt(items, item, i);
        items := items + [item];
      }
    }
  }

  predicate NoneBefore(items: seq<XmlObject>, i: nat, j: Jid)
    requires i <= |items|
  {
    forall k :: 0 <= k < i ==> JidOf(items[k]) != j
  }

  lemma UnderHead<T>(s: seq<T>, i: nat, x: T)
    requires 0 < i <= |s|
    ensures i < |s| ==> [s[0]] + (s[1..][..i - 1] + s[1..][i..]) == s[..i] + s[i + 1..]
    ensures i < |s| ==> [s[0]] + s[1..][i - 1 := x] == s[i := x]
    ensures [s[0]] + (s[1..] + [x]) == s + [x]
  {
  }

  /** The first item with the JID is erased, or replaced where it is; with none the item is appended,
      even one that says it is removed. */
  lemma {:induction false} PushAt(items: seq<XmlObject>, item: XmlObject, i: nat)
    requires i <= |items| && NoneBefore(items, i, JidOf(item)) && (i < |items| ==> JidOf(items[i]) == JidOf(item))
    ensures Push(items, item) == if i == |items| then items + [item]
                                 else if Removes(item) then items[..i] + items[i + 1..]
                                 else items[i := item]
  {
    if i > 0 {
      assert NoneBefore(items[1..], i - 1, JidOf(item));
      PushAt(items[1..], item, i - 1);
      UnderHead(items, i, item);
    }
  }

  /** The JID that an item is about. */
  function About(item: XmlObject): Jid {
    Parse(LookUp(item.attributes, "jid"))
  }

  /** The push told by the attributes: item number i is the first with the JID of the pushed one, or there
      is none and i is past the last. If the pushed one says "remove" it is taken out, else replaced. */
  lemma PushMeans(items: seq<XmlObject>, item: XmlObject, i: nat)
    requires i <= |items| && forall k :: 0 <= k < i ==> About(items[k]) != About(item)
    requires i < |items| ==> About(items[i]) == About(item)
    ensures Push(items, item)
         == if i == |items| then items + [item]
            else if LookUp(item.attributes, "subscription") == "remove" then items[..i] + items[i + 1..]
            else items[..i] + [item] + items[i + 1..]
  {
    assert forall o: XmlObject :: JidOf(o) == About(o);
    PushAt(items, item, i);
  }

  // ---------- The map from JID to item ----------

  /** The item that a JID is looked up as: the first one. */
  function View(items: seq<XmlObject>): map<Jid, XmlObject> {
    if items == [] then map[] else View(items[1..])[JidOf(items[0]) := items[0]]
  }

  /** The push on a map. */
  function PushMap(m: map<Jid, XmlObject>, item: XmlObject): map<Jid, XmlObject> {
    if JidOf(item) in m && Removes(item) then m - {JidOf(item)} else m[JidOf(item) := item]
  }

  function Count(items: seq<XmlObject>, j: Jid): nat {
    if items == [] then 0 else (if JidOf(items[0]) == j then 1 else 0) + Count(items[1..], j)
  }

  lemma {:induction false} InView(items: seq<XmlObject>, j: Jid)
    ensures j in View(items) <==> Count(items, j) > 0
  {
    if items != [] {
      InView(items[1..], j);
    }
  }

  lemma {:induction false} PushCounts(items: seq<XmlObject>, item: XmlObject, j: Jid)
    ensures var n := Count(items, j);
      Count(Push(items, item), j)
      == if j != JidOf(item) then n else if n == 0 then 1 else if Removes(item) then n - 1 else n
  {
    if items != [] {
      PushCounts(items[1..], item, j);
    }
  }

  predicate Distinct(items: seq<XmlObject>) {
    forall i, k :: 0 <= i < k < |items| ==> JidOf(items[i]) != JidOf(items[k])
  }

  lemma {:induction false} NoneCounted(items: seq<XmlObject>, j: Jid)
    ensures Count(items, j) == 0 <==> forall i :: 0 <= i < |items| ==> JidOf(items[i]) != j
  {
    if items != [] {
      NoneCounted(items[1..], j);
      assert forall i :: 0 < i < |items| ==> items[i] == items[1..][i - 1];
    }
  }

  lemma {:induction false} DistinctCount(items: seq<XmlObject>, j: Jid)
    requires Distinct(items)
    ensures Count(items, j) <= 1
  {
    if items != [] {
      assert forall i :: 0 <= i < |items| - 1 ==> items[1..][i] == items[i + 1];
      DistinctCount(items[1..], j);
      NoneCounted(items[1..], j);
    }
  }

  lemma {:induction false} CountsDistinct(items: seq<XmlObject>)
    requires forall j :: Count(items, j) <= 1
    ensures Distinct(items)
  {
    if items != [] {
      var rest := items[1..];
      forall j ensures Count(rest, j) <= 1 {
        assert Count(items, j) <= 1;
      }
      CountsDistinct(rest);
      assert Count(items, JidOf(items[0])) <= 1;
      NoneCounted(rest, JidOf(items[0]));
      assert forall i :: 0 < i < |items| ==> items[i] == rest[i - 1];
    }
  }

  /** Distinct JIDs stay distinct. */
  lemma PushKeepsDistinct(items: seq<XmlObject>, item: XmlObject)
    requires Distinct(items)
    ensures Distinct(Push(items, item))
  {
    forall j ensures Count(Push(items, item), j) <= 1 {
      PushCounts(items, item, j);
      DistinctCount(items, j);
    }
    CountsDistinct(Push(items, item));
  }

  /** The list does what the map does exactly if no duplicate is left behind by a removal. */
  lemma {:induction false} PushRefines(items: seq<XmlObject>, item: XmlObject)
    ensures View(Push(items, item)) == PushMap(View(items), item)
       <==> !(Removes(item) && Count(items, JidOf(item)) >= 2)
  {
    var j := JidOf(item);
    InView(items, j);
    PushCounts(items, item, j);
    InView(Push(items, item), j);
    if !(Removes(item) && Count(items, j) >= 2) {
      PushView(items, item);
    }
  }

  lemma MapTail(m: map<Jid, XmlObject>, j: Jid, o: XmlObject, item: XmlObject)
    requires JidOf(item) != j
    ensures PushMap(m, item)[j := o] == PushMap(m[j := o], item)
  {
  }

  lemma {:induction false} PushView(items: seq<XmlObject>, item: XmlObject)
    requires !(Removes(item) && Count(items, JidOf(item)) >= 2)
    ensures View(Push(items, item)) == PushMap(View(items), item)
  {
    if items != [] {
      var j := JidOf(item);
      InView(items[1..], j);
      if JidOf(items[0]) != j {
        PushView(items[1..], item);
        MapTail(View(items[1..]), JidOf(items[0]), items[0], item);
        assert Push(items, item)[1..] == Push(items[1..], item);
      } else if Removes(item) {
        assert View(items) - {j} == View(items[1..]);
      } else {
        assert ([item] + items[1..])[1..] == items[1..];
      }
    }
  }

  // ---------- Any sequence of pushes ----------

  function PushAll(items: seq<XmlObject>, pushes: seq<XmlObject>): seq<XmlObject>
    decreases |pushes|
  {
    if pushes == [] then items else PushAll(Push(items, pushes[0]), pushes[1..])
  }

  function PushAllMap(m: map<Jid, XmlObject>, pushes: seq<XmlObject>): map<Jid, XmlObject>
    decreases |pushes|
  {
    if pushes == [] then m else PushAllMap(PushMap(m, pushes[0]), pushes[1..])
  }

  /** From a roster with distinct JIDs any sequence of pushes keeps them distinct and does to the list
      what it does to the map. */
  lemma {:induction false} PushesRefine(items: seq<XmlObject>, pushes: seq<XmlObject>)
    requires Distinct(items)
    ensures Distinct(PushAll(items, pushes))
    ensures View(PushAll(items, pushes)) == PushAllMap(View(items), pushes)
    decreases |pushes|
  {
    if pushes != [] {
      PushKeepsDistinct(items, pushes[0]);
      DistinctCount(items, JidOf(pushes[0]));
      PushRefines(items, pushes[0]);
      PushesRefine(Push(items, pushes[0]), pushes[1..]);
    }
  }

  /** The items of all other JIDs. */
  function Without(items: seq<XmlObject>, js: set<Jid>): seq<XmlObject> {
    if items == [] then [] else (if JidOf(items[0]) in js then [] else [items[0]]) + Without(items[1..], js)
  }

  lemma {:induction false} PushKeepsOthers(items: seq<XmlObject>, item: XmlObject, js: set<Jid>)
    requires JidOf(item) in js
    ensures Without(Push(items, item), js) == Without(items, js)
  {
    if items != [] {
      PushKeepsOthers(items[1..], item, js);
      assert Push(items, item) == items[1..] || Push(items, item)[1..] == items[1..]
          || Push(items, item)[1..] == Push(items[1..], item);
    }
  }

  /** Items of JIDs that no push names keep their content and order. */
  lemma {:induction false} PushesKeepOthers(items: seq<XmlObject>, pushes: seq<XmlObject>, js: set<Jid>)
    requires forall i :: 0 <= i < |pushes| ==> JidOf(pushes[i]) in js
    ensures Without(PushAll(items, pushes), js) == Without(items, js)
    decreases |pushes|
  {
    if pushes != [] {
      PushKeepsOthers(items, pushes[0], js);
      PushesKeepOthers(Push(items, pushes[0]), pushes[1..], js);
    }
  }
}
