/** Jabber identifiers (section 3.1 of RFC 7622), src/uxmpp/Jid.cpp. */
module Jids {
  import opened Strings

  datatype Jid = Jid(local: string, domain: string, resource: string) {
    function Bare(): Jid {
      New(local, domain, "")
    }

    predicate IsBare() {
      |resource| == 0
    }
  }

  const MAX_PART := 1023

  /** A part setter. A part that is too long keeps what follows its first 1023 characters, because
      the two-argument string constructor of the original takes a start position. */
  function Stored(part: string): string {
    if |part| > MAX_PART then part[MAX_PART..] else part
  }

  function New(local: string, domain: string, resource: string): Jid {
    Jid(Stored(local), Stored(domain), Stored(resource))
  }

  /** The parsing constructor, branch by branch. */
  function Parse(jid: string): Jid {
    if |jid| == 0 then Jid("", "", "")
    else
      var at := Find(jid, '@', 0);
      if at == |jid| then Jid(Stored(jid), "", "")
      else
        var local := if at == 0 then "" else Stored(jid[..at]);
        var pos := at + 1;
        if pos >= |jid| - 1 then Jid(local, "", "")
        else
          var slash := Find(jid, '/', pos);
          if slash == |jid| then Jid(local, Stored(jid[pos..]), "")
          else if slash == pos then
            Jid(local, "", if slash < |jid| - 1 then Stored(jid[slash + 1..]) else "")
          else Jid(local, Stored(jid[pos..slash]), Stored(jid[slash + 1..]))
  }

  function Print(j: Jid): string {
    j.local
    + (if |j.domain| > 0 then "@" + j.domain else "")
    + (if |j.resource| > 0 then (if |j.domain| == 0 then "@" else "") + "/" + j.resource else "")
  }

  /** The identifiers that survive printing and parsing. */
  predicate Printable(j: Jid) {
    && |j.local| <= MAX_PART && |j.domain| <= MAX_PART && |j.resource| <= MAX_PART
    && '@' !in j.local && '/' !in j.domain
    && !(|j.domain| == 1 && j.resource == "")
  }

  /** What follows the '@' of a printed identifier. */
  function Tail(j: Jid): string {
    j.domain + (if |j.resource| > 0 then "/" + j.resource else "")
  }

  lemma PrintForm(j: Jid)
    ensures Print(j) == j.local + (if Tail(j) == "" then "" else "@" + Tail(j))
  {
  }

  /** The domain and resource the parser finds after the '@'. */
  function TailParts(tail: string): (string, string) {
    var slash := Find(tail, '/', 0);
    if |tail| <= 1 then ("", "")
    else if slash == |tail| then (tail, "")
    else (tail[..slash], tail[slash + 1..])
  }

  /** Cutting a string in three at a known place. */
  lemma Cut(local: string, tail: string, k: nat)
    requires k <= |tail|
    ensures var s, pos := local + "@" + tail, |local| + 1;
      && |s| == pos + |tail| && s[|local|] == '@' && s[..|local|] == local && s[0..|local|] == local
      && s[pos..] == tail && s[pos..pos + k] == tail[..k] && (k < |tail| ==> s[pos + k + 1..] == tail[k + 1..])
  {
  }

  /** Each part up to 1023 characters is kept as it is, and of a longer one only what comes after the first
      1023 characters; the bare JID of one with such parts has the same local part and domain. */
  lemma PartsKept(local: string, domain: string, resource: string)
    ensures var j := New(local, domain, resource);
      && (|local| <= 1023 ==> j.local == local) && (|local| > 1023 ==> j.local == local[1023..])
      && (|domain| <= 1023 ==> j.domain == domain) && (|domain| > 1023 ==> j.domain == domain[1023..])
      && (|resource| <= 1023 ==> j.resource == resource) && (|resource| > 1023 ==> j.resource == resource[1023..])
    ensures |local| <= 1023 && |domain| <= 1023 ==>
              Jid(local, domain, resource).Bare() == Jid(local, domain, "") && Jid(local, domain, "").IsBare()
    ensures Jid(local, domain, resource).IsBare() <==> resource == ""
  {
  }

  /** Parsing around the first '@'. */
  lemma ParseAt(local: string, tail: string)
    requires '@' !in local
    ensures Parse(local + "@" + tail) == New(local, TailParts(tail).0, TailParts(tail).1)
  {
    Cut(local, tail, Find(tail, '/', 0));
    FindIs(local + "@" + tail, '@', 0, |local|);
    FindAfter(local + "@", tail, '/');
  }

  lemma ParseWithoutAt(s: string)
    requires '@' !in s
    ensures Parse(s) == Jid(Stored(s), "", "")
  {
    FindIs(s, '@', 0, |s|);
  }

  /** The tail survives exactly when the domain has no '/' and is not a lone character. */
  lemma TailRoundTrip(j: Jid)
    requires Tail(j) != ""
    ensures TailParts(Tail(j)) == (j.domain, j.resource)
       <==> '/' !in j.domain && !(|j.domain| == 1 && j.resource == "")
  {
    var tail, d := Tail(j), |j.domain|;
    assert tail[..d] == j.domain;
    if '/' !in j.domain {
      assert tail[0..d] == j.domain;
      FindIs(tail, '/', 0, d);
      if j.resource != "" {
        assert tail[d + 1..] == j.resource;
      } else {
        assert tail == j.domain;
      }
    } else {
      var k :| 0 <= k < d && j.domain[k] == '/';
      assert tail[k] == '/' && |TailParts(tail).0| < d;
    }
  }

  lemma StoredHas(part: string, c: char)
    requires c !in part
    ensures c !in Stored(part)
  {
  }

  /** What the parser makes never has an '@' in the local part or a '/' in the domain. */
  lemma ParsedParts(jid: string)
    ensures '@' !in Parse(jid).local && '/' !in Parse(jid).domain
  {
    var at := Find(jid, '@', 0);
    assert jid[0..at] == jid[..at];
    assert at == |jid| ==> jid[..at] == jid;
    StoredHas(jid[..at], '@');
    if at + 1 <= |jid| {
      var slash := Find(jid, '/', at + 1);
      assert slash == |jid| ==> jid[at + 1..] == jid[at + 1..slash];
      StoredHas(jid[at + 1..slash], '/');
    }
  }

  /** Parsing inverts printing exactly on the printable identifiers. */
  lemma ParseInvertsPrint(j: Jid)
    ensures Parse(Print(j)) == j <==> Printable(j)
  {
    PrintForm(j);
    if '@' in j.local {
      var at := Find(j.local, '@', 0);
      var tail := j.local[at + 1..] + (if Tail(j) == "" then "" else "@" + Tail(j));
      assert Print(j) == j.local[0..at] + "@" + tail;
      ParseAt(j.local[0..at], tail);
    } else if Tail(j) == "" {
      assert Print(j) == j.local;
      ParseWithoutAt(j.local);
    } else {
      assert Print(j) == j.local + "@" + Tail(j);
      ParseAt(j.local, Tail(j));
      TailRoundTrip(j);
    }
  }
}
