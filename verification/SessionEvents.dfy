/** What a received object does to a session, told by the object's own fields: its name, its part, its
    attributes and children. Whatever the listeners and modules do. */
module SessionEvents {
  import opened Strings
  import opened Xml
  import opened Sessions
  import opened SessionSafety

  // ---------- Names ----------

  /** The name an object goes by: its namespace, or without one its own xmlns, and its tag. */
  predicate Called(o: XmlObject, name: string) {
    var ns := if o.namespace != "" then o.namespace else o.defaultNs;
    name == if ns != "" then ns + ":" + o.tagName else o.tagName
  }

  /** For tags without a ':', as every parsed object has: that tag in that namespace. */
  lemma CalledIs(o: XmlObject, ns: string, tagName: string)
    requires ':' !in o.tagName && ':' !in tagName && ns != ""
    ensures Called(o, ns + ":" + tagName) <==>
              o.tagName == tagName && (o.namespace == ns || (o.namespace == "" && o.defaultNs == ns))
  {
    FullNameIs(o, ns, tagName);
    LastLetters(o);
  }

  predicate Internal(o: XmlObject) {
    o.namespace == "http://ultramarin.se/uxmpp#internal-error"
  }

  predicate IsError(o: XmlObject) {
    !Internal(o) && Called(o, "http://etherx.jabber.org/streams:error")
  }

  predicate IsEnd(o: XmlObject) {
    !Internal(o) && Called(o, "http://etherx.jabber.org/streams:stream") && o.part == End
  }

  predicate IsStart(o: XmlObject) {
    !Internal(o) && Called(o, "http://etherx.jabber.org/streams:stream") && o.part != End
  }

  predicate IsFeatures(o: XmlObject) {
    !Internal(o) && Called(o, "http://etherx.jabber.org/streams:features")
  }

  predicate IsTimeout(o: XmlObject, id: string) {
    !Internal(o) && Called(o, "http://ultramarin.se/uxmpp#internal-timer:timeout") && LookUp(o.attributes, "id") == id
  }

  predicate IsIq(o: XmlObject) {
    !Internal(o) && Called(o, "jabber:client:iq")
  }

  /** Number i is the first child with that tag. */
  predicate FirstChild(nodes: seq<XmlObject>, tagName: string, i: int) {
    0 <= i < |nodes| && nodes[i].tagName == tagName && forall k :: 0 <= k < i ==> nodes[k].tagName != tagName
  }

  /** The first "jid" in the first "bind" says so. */
  predicate Says(o: XmlObject, i: int, k: int, jid: string) {
    FirstChild(o.nodes, "bind", i) && FirstChild(o.nodes[i].nodes, "jid", k) && o.nodes[i].nodes[k].content == jid
  }

  lemma {:induction false} ChildIs(nodes: seq<XmlObject>, tagName: string)
    ensures Child(nodes, tagName).None? <==> forall k :: 0 <= k < |nodes| ==> nodes[k].tagName != tagName
    ensures forall i :: FirstChild(nodes, tagName, i) ==> Child(nodes, tagName) == Some(nodes[i])
    ensures Child(nodes, tagName).Some? ==> exists i :: FirstChild(nodes, tagName, i)
  {
    if nodes != [] && nodes[0].tagName != tagName {
      ChildIs(nodes[1..], tagName);
      forall i | FirstChild(nodes, tagName, i) ensures Child(nodes, tagName) == Some(nodes[i]) {
        assert FirstChild(nodes[1..], tagName, i - 1) by {
          assert forall k :: 0 <= k < i - 1 ==> nodes[1..][k] == nodes[k + 1];
        }
      }
      if Child(nodes, tagName).Some? {
        var i :| FirstChild(nodes[1..], tagName, i);
        assert forall k :: 0 < k < |nodes| ==> nodes[k] == nodes[1..][k - 1];
        assert FirstChild(nodes, tagName, i + 1);
      }
    } else if nodes != [] {
      assert FirstChild(nodes, tagName, 0);
    }
  }

  lemma BoundJidIs(o: XmlObject)
    ensures forall i, k, j :: Says(o, i, k, j) ==> BoundJid(o) == Some(j)
    ensures BoundJid(o).Some? ==> exists i, k :: Says(o, i, k, BoundJid(o).value)
  {
    ChildIs(o.nodes, "bind");
    forall i | FirstChild(o.nodes, "bind", i) {
      ChildIs(o.nodes[i].nodes, "jid");
    }
    if BoundJid(o).Some? {
      var i :| FirstChild(o.nodes, "bind", i);
      var k :| FirstChild(o.nodes[i].nodes, "jid", k);
      assert Says(o, i, k, BoundJid(o).value);
    }
  }

  /** The tests find what the object is. */
  lemma ClassifyIs(o: XmlObject)
    ensures var e := Classify(o);
      && (e == InternalError(o.tagName) <==> Internal(o)) && (e.InternalError? <==> Internal(o))
      && (e == StreamError(o.nodes) <==> IsError(o)) && (e.StreamError? <==> IsError(o))
      && (e == StreamEnd <==> IsEnd(o))
      && (e == Features(o.nodes) <==> IsFeatures(o)) && (e.Features? <==> IsFeatures(o))
    ensures var e := Classify(o);
      && (forall id :: e == Timeout(id) <==> IsTimeout(o, id))
      && (e == StreamStart(LookUp(o.attributes, "id"), LookUp(o.attributes, "from")) <==> IsStart(o))
      && (e.StreamStart? <==> IsStart(o)) && (e.Iq? <==> IsIq(o))
      && (e.Iq? ==> e.jid == BoundJid(o))
      && (e.Iq? ==> (e.request <==> LookUp(o.attributes, "type") == "get" || LookUp(o.attributes, "type") == "set"))
  {
    LastLetters(o);
  }

  /** No object has two of the names. */
  lemma LastLetters(o: XmlObject)
    ensures o.FullName() == if o.namespace != "" then o.namespace + ":" + o.tagName
                            else if o.defaultNs != "" then o.defaultNs + ":" + o.tagName else o.tagName
    ensures Called(o, o.FullName()) && forall name :: Called(o, name) ==> name == o.FullName()
    ensures "http://etherx.jabber.org/streams:error" != "http://etherx.jabber.org/streams:stream"
    ensures "http://etherx.jabber.org/streams:features" != "http://etherx.jabber.org/streams:stream"
  {
    assert |"http://etherx.jabber.org/streams:error"| == 38 && |"http://etherx.jabber.org/streams:stream"| == 39;
    assert |"http://etherx.jabber.org/streams:features"| == 41;
  }

  // ---------- What stopping and listeners leave ----------

  /** A stop, and whatever listeners call, may move the state to closing, once, and may clear the
      features by a reset. Errors, ids and the jid are none of their business. */
  predicate Leaves(s: State, r: State) {
    && r.error == s.error && r.sessId == s.sessId && r.sessFrom == s.sessFrom && r.jid == s.jid
    && (r.features == s.features || r.features == [])
    && (if Rank(s.state) == 1 && r.state == Closing then r.trace == s.trace + [Closing]
        else r.state == s.state && r.trace == s.trace)
  }

  lemma LeavesTwice(s: State, m: State, r: State)
    requires Leaves(s, m) && Leaves(m, r)
    ensures Leaves(s, r)
  {
  }

  lemma {:induction false} StopLeaves(s: State, fast: bool, react: Reactions)
    ensures var r := Stop(s, fast, react); Leaves(s, r) && (Rank(s.state) == 1 ==> r.state == Closing)
    decreases Rank(s.state), 2, 0
  {
    if Rank(s.state) == 1 {
      ChangeLeaves(s, Closing, react);
    }
  }

  lemma {:induction false} ChangeLeaves(s: State, next: SessionState, react: Reactions)
    requires Allowed(s.state, next)
    ensures Leaves(Enter(s, next), ChangeState(s, next, react).0)
    decreases Rank(next), 5, 0
  {
    NotifyLeaves(Enter(s, next), react);
  }

  lemma {:induction false} NotifyLeaves(s: State, react: Reactions)
    ensures Leaves(s, Notify(s, react))
    decreases Rank(s.state), 4, 0
  {
    PerformLeaves(s.(notified := s.notified + 1), react(s.notified), react);
  }

  lemma {:induction false} PerformLeaves(s: State, calls: seq<Call>, react: Reactions)
    ensures Leaves(s, Perform(s, calls, react))
    decreases Rank(s.state), 3, |calls|
  {
    if calls != [] {
      if calls[0].CallStop? {
        StopLeaves(s, calls[0].fast, react);
      }
      PerformLeaves(Do(s, calls[0], react), calls[1..], react);
      LeavesTwice(s, Do(s, calls[0], react), Perform(s, calls, react));
    }
  }

  // ---------- What an event changes first ----------

  /** The state after the event's own effect, before a stop, a change of state or the listeners. */
  function Noted(s: State, e: Event): State {
    match e
    case InternalError(name) => s.(error := AppError(name))
    case StreamError(nodes) => s.(error := Received(nodes))
    case Features(nodes) => s.(features := nodes)
    case Timeout(id) => if id == "close" then s.(error := AppError("timeout")) else s
    case StreamStart(id, from) => s.(sessId := id, sessFrom := from)
    case Iq(_, jid) => if s.state == Negotiating && jid.Some? then s.(jid := jid.value) else s
    case _ => s
  }

  /** The state it asks for, if any. */
  function Wanted(s: State, e: Event): Option<SessionState> {
    match e
    case InternalError(_) => if Rank(s.state) == 1 then Some(Closing) else None
    case StreamError(_) => if Rank(s.state) == 1 then Some(Closing) else None
    case StreamEnd => if Rank(s.state) == 1 then Some(Closing) else None
    case Timeout(id) => if id == "close" && Rank(s.state) == 1 then Some(Closing) else None
    case StreamStart(_, _) => if s.state == Connecting || s.state == Negotiating then Some(Negotiating) else None
    case Iq(_, _) => if s.state == Negotiating && Noted(s, e).jid != "" then Some(Bound) else None
    case _ => None
  }

  /** Whether the session itself is done with it. */
  predicate Consumed(s: State, e: Event) {
    match e
    case Features(_) => false
    case Timeout(id) => id == "close" || id == "stop_session"
    case Iq(_, _) => s.state == Negotiating && Noted(s, e).jid != ""
    case Other => false
    case _ => true
  }

  /** After the state it asks for. */
  function Moved(s: State, e: Event): State {
    match Wanted(s, e)
    case Some(next) => Noted(s, e).(state := next, trace := s.trace + [next])
    case None => Noted(s, e)
  }

  lemma StopMoves(s: State, e: Event, react: Reactions)
    requires e.InternalError? || e.StreamError? || e == Timeout("close")
    ensures Leaves(Moved(s, e), Stop(Noted(s, e), false, react))
  {
    StopLeaves(Noted(s, e), false, react);
  }

  lemma EndMoves(s: State, react: Reactions)
    ensures Leaves(Moved(s, StreamEnd), PeerEnded(s, react))
  {
    if Rank(s.state) == 1 {
      ChangeLeaves(s, Closing, react);
    }
  }

  lemma ChangeMoves(s: State, e: Event, next: SessionState, react: Reactions)
    requires Wanted(s, e) == if Allowed(s.state, next) then Some(next) else None
    requires e.StreamStart? || e.Iq?
    ensures Leaves(Moved(s, e), ChangeState(Noted(s, e), next, react).0)
  {
    if Allowed(s.state, next) {
      ChangeLeaves(Noted(s, e), next, react);
    }
  }

  lemma ProcessMoves(s: State, e: Event, react: Reactions)
    ensures var (r, done) := Process(s, e, react); Leaves(Moved(s, e), r) && done == Consumed(s, e)
  {
    match e
    case InternalError(_) => StopMoves(s, e, react);
    case StreamError(_) => StopMoves(s, e, react);
    case StreamEnd => EndMoves(s, react);
    case Features(_) => NotifyLeaves(Noted(s, e), react);
    case Timeout(id) =>
      if id == "close" {
        StopMoves(s, e, react);
      }
    case StreamStart(_, _) => ChangeMoves(s, e, Negotiating, react);
    case Iq(_, _) =>
      if s.state == Negotiating && Noted(s, e).jid != "" {
        ChangeMoves(s, e, Bound, react);
      }
    case Other =>
  }

  lemma ReceiveMoves(s: State, e: Event, handled: bool, react: Reactions)
    ensures Leaves(Moved(s, e), Receive(s, e, handled, react))
  {
    ProcessMoves(s, e, react);
    var (s1, done) := Process(s, e, react);
    if !done {
      NotifyLeaves(s1, react);
      LeavesTwice(Moved(s, e), s1, Notify(s1, react));
      LeavesTwice(Moved(s, e), Notify(s1, react), Receive(s, e, handled, react));
    }
  }

  /** Of the states other than closing exactly the wanted one is entered. */
  lemma NewStates(s: State, e: Event, r: State, state: SessionState)
    requires Leaves(Moved(s, e), r) && state != Closing
    ensures s.trace <= r.trace && (state in r.trace[|s.trace|..] <==> Wanted(s, e) == Some(state))
  {
    var base := match Wanted(s, e) case Some(next) => [next] case None => [];
    assert Moved(s, e).trace == s.trace + base;
    if r.trace == s.trace + base {
      assert r.trace[|s.trace|..] == base;
    } else {
      assert r.trace == s.trace + (base + [Closing]);
      assert r.trace[|s.trace|..] == base + [Closing];
    }
  }

  // ---------- The theorems: whatever listeners and modules do ----------

  /** The error of the session is set by three kinds of objects, and by them always: internal errors, by
      their tag; stream errors, which are kept whole; and the timer named "close". */
  lemma ErrorsNoted(s: State, o: XmlObject, handled: bool, react: Reactions)
    ensures var r := Receive(s, Classify(o), handled, react);
      && r.error == (if Internal(o) then AppError(o.tagName)
                     else if IsError(o) then Received(o.nodes)
                     else if IsTimeout(o, "close") then AppError("timeout") else s.error)
      && (s.error != Received(o.nodes) ==> (r.error == Received(o.nodes) <==> IsError(o)))
  {
    ReceiveMoves(s, Classify(o), handled, react);
    ErrorNoted(s, Classify(o));
    ClassifyIs(o);
  }

  lemma ErrorNoted(s: State, e: Event)
    ensures Moved(s, e).error == match e
                                 case InternalError(name) => AppError(name)
                                 case StreamError(nodes) => Received(nodes)
                                 case Timeout(id) => if id == "close" then AppError("timeout") else s.error
                                 case _ => s.error
  {
  }

  /** Negotiation starts exactly if a stream starts while the session is connecting or negotiating, and
      then, and only then, the stream's id and origin are kept. */
  lemma Negotiates(s: State, o: XmlObject, handled: bool, react: Reactions)
    ensures var r := Receive(s, Classify(o), handled, react);
      && s.trace <= r.trace
      && (Negotiating in r.trace[|s.trace|..] <==> IsStart(o) && (s.state == Connecting || s.state == Negotiating))
      && (if IsStart(o) then r.sessId == LookUp(o.attributes, "id") && r.sessFrom == LookUp(o.attributes, "from")
          else r.sessId == s.sessId && r.sessFrom == s.sessFrom)
  {
    var e := Classify(o);
    ReceiveMoves(s, e, handled, react);
    NewStates(s, e, Receive(s, e, handled, react), Negotiating);
    StreamNoted(s, e);
    StreamWanted(s, e);
    ClassifyIs(o);
  }

  lemma StreamNoted(s: State, e: Event)
    ensures Moved(s, e).sessId == if e.StreamStart? then e.id else s.sessId
    ensures Moved(s, e).sessFrom == if e.StreamStart? then e.from else s.sessFrom
  {
    var n := Noted(s, e);
    assert n.sessId == (if e.StreamStart? then e.id else s.sessId) && Moved(s, e).sessId == n.sessId;
  }

  lemma StreamWanted(s: State, e: Event)
    ensures Wanted(s, e) == Some(Negotiating) <==> e.StreamStart? && (s.state == Connecting || s.state == Negotiating)
  {
  }

  /** The session is bound exactly if an IQ comes while it is negotiating and there is a jid by then: the
      first "jid" in the first "bind" of the IQ, if there is one, and nothing else ever sets it. */
  lemma Binds(s: State, o: XmlObject, handled: bool, react: Reactions)
    ensures var r := Receive(s, Classify(o), handled, react);
      && s.trace <= r.trace
      && (Bound in r.trace[|s.trace|..] <==> IsIq(o) && s.state == Negotiating && r.jid != "")
      && (forall i, k, j :: Says(o, i, k, j) && IsIq(o) && s.state == Negotiating ==> r.jid == j)
      && (r.jid != s.jid ==> IsIq(o) && s.state == Negotiating && exists i, k :: Says(o, i, k, r.jid))
  {
    var e := Classify(o);
    ReceiveMoves(s, e, handled, react);
    NewStates(s, e, Receive(s, e, handled, react), Bound);
    JidNoted(s, e);
    BoundJidIs(o);
    ClassifyIs(o);
  }

  lemma JidNoted(s: State, e: Event)
    ensures Moved(s, e).jid == if e.Iq? && s.state == Negotiating && e.jid.Some? then e.jid.value else s.jid
    ensures Wanted(s, e) == Some(Bound) <==> e.Iq? && s.state == Negotiating && Moved(s, e).jid != ""
  {
  }

  /** Features are stored, whole, from objects of that name only; all else that happens to them is that
      a listener resets the stream. */
  lemma FeaturesStored(s: State, o: XmlObject, handled: bool, react: Reactions)
    ensures var r := Receive(s, Classify(o), handled, react);
      && (r.features == (if IsFeatures(o) then o.nodes else s.features) || r.features == [])
      && (o.nodes != [] && s.features != o.nodes && r.features == o.nodes ==> IsFeatures(o))
  {
    ReceiveMoves(s, Classify(o), handled, react);
    FeaturesNoted(s, Classify(o));
    ClassifyIs(o);
  }

  lemma FeaturesNoted(s: State, e: Event)
    ensures Moved(s, e).features == if e.Features? then e.nodes else s.features
  {
  }

  // ---------- With well-behaved listeners ----------

  ghost predicate NoResets(react: Reactions) {
    forall k: nat :: CallReset !in react(k)
  }

  ghost predicate NoStops(react: Reactions) {
    forall k: nat :: forall fast :: CallStop(fast) !in react(k)
  }

  lemma {:induction false} PerformKeepsFeatures(s: State, calls: seq<Call>, react: Reactions)
    requires NoResets(react) && CallReset !in calls
    ensures Perform(s, calls, react).features == s.features
    decreases Rank(s.state), 3, |calls|
  {
    if calls != [] {
      if calls[0].CallStop? {
        StopKeepsFeatures(s, calls[0].fast, react);
      }
      PerformKeepsFeatures(Do(s, calls[0], react), calls[1..], react);
    }
  }

  lemma {:induction false} StopKeepsFeatures(s: State, fast: bool, react: Reactions)
    requires NoResets(react)
    ensures Stop(s, fast, react).features == s.features
    decreases Rank(s.state), 2, 0
  {
    if Rank(s.state) == 1 {
      ChangeKeepsFeatures(s, Closing, react);
    }
  }

  lemma {:induction false} ChangeKeepsFeatures(s: State, next: SessionState, react: Reactions)
    requires NoResets(react)
    ensures ChangeState(s, next, react).0.features == s.features
    decreases if Allowed(s.state, next) then Rank(next) else 0, if Allowed(s.state, next) then 5 else 0, 0
  {
    if Allowed(s.state, next) {
      NotifyKeepsFeatures(Enter(s, next), react);
    }
  }

  lemma {:induction false} NotifyKeepsFeatures(s: State, react: Reactions)
    requires NoResets(react)
    ensures Notify(s, react).features == s.features
    decreases Rank(s.state), 4, 0
  {
    PerformKeepsFeatures(s.(notified := s.notified + 1), react(s.notified), react);
  }

  lemma ProcessFeatures(s: State, e: Event, react: Reactions)
    requires NoResets(react)
    ensures Process(s, e, react).0.features == if e.Features? then e.nodes else s.features
  {
    match e
    case InternalError(_) => StopKeepsFeatures(Noted(s, e), false, react);
    case StreamError(_) => StopKeepsFeatures(Noted(s, e), false, react);
    case StreamEnd => ChangeKeepsFeatures(s, Closing, react);
    case Features(_) => NotifyKeepsFeatures(Noted(s, e), react);
    case Timeout(_) => StopKeepsFeatures(s.(error := AppError("timeout")), false, react);
    case StreamStart(_, _) => ChangeKeepsFeatures(Noted(s, e), Negotiating, react);
    case Iq(_, _) => ChangeKeepsFeatures(Noted(s, e), Bound, react);
    case Other =>
  }

  /** If no listener resets the stream, the features afterwards are those of a features object, or the
      ones there were. */
  lemma FeaturesAre(s: State, o: XmlObject, handled: bool, react: Reactions)
    requires NoResets(react)
    ensures Receive(s, Classify(o), handled, react).features == if IsFeatures(o) then o.nodes else s.features
  {
    ProcessFeatures(s, Classify(o), react);
    NotifyKeepsFeatures(Process(s, Classify(o), react).0, react);
    ClassifyIs(o);
  }

  lemma {:induction false} PerformKeepsState(s: State, calls: seq<Call>, react: Reactions)
    requires forall fast :: CallStop(fast) !in calls
    ensures var r := Perform(s, calls, react);
      r.state == s.state && r.trace == s.trace && r.streaming == s.streaming
    decreases |calls|
  {
    if calls != [] {
      assert calls[0] in calls;
      PerformKeepsState(Do(s, calls[0], react), calls[1..], react);
    }
  }

  lemma NotifyKeepsState(s: State, react: Reactions)
    requires NoStops(react)
    ensures var r := Notify(s, react); r.state == s.state && r.trace == s.trace && r.streaming == s.streaming
  {
    PerformKeepsState(s.(notified := s.notified + 1), react(s.notified), react);
  }

  lemma ChangeIs(s: State, next: SessionState, react: Reactions)
    requires NoStops(react) && Allowed(s.state, next)
    ensures var r := ChangeState(s, next, react).0;
      r.state == next && r.trace == s.trace + [next] && r.streaming == s.streaming
  {
    NotifyKeepsState(Enter(s, next), react);
  }

  lemma StopIs(s: State, react: Reactions)
    requires NoStops(react)
    ensures var r := Stop(s, false, react);
      && r.state == (if Rank(s.state) == 1 then Closing else s.state) && r.streaming == s.streaming
      && r.trace == (if Rank(s.state) == 1 then s.trace + [Closing] else s.trace)
  {
    if Rank(s.state) == 1 {
      ChangeIs(s, Closing, react);
    }
  }

  /** Whether the stream is over with the event. */
  predicate EndsStream(e: Event) {
    e == StreamEnd || e == Timeout("stop_session")
  }

  lemma ProcessStates(s: State, e: Event, react: Reactions)
    requires NoStops(react) && s.state != Closed
    ensures var r, m := Process(s, e, react).0, Moved(s, e);
      r.state == m.state && r.trace == m.trace && r.streaming == (s.streaming && !EndsStream(e))
  {
    match e
    case InternalError(_) => StopIs(Noted(s, e), react);
    case StreamError(_) => StopIs(Noted(s, e), react);
    case StreamEnd => EndStates(s, react);
    case Features(_) => NotifyKeepsState(Noted(s, e), react);
    case Timeout(id) => TimeoutStates(s, id, react);
    case StreamStart(_, _) => StartStates(s, e, react);
    case Iq(_, _) => IqStates(s, e, react);
    case Other =>
  }

  lemma EndStates(s: State, react: Reactions)
    requires NoStops(react) && s.state != Closed
    ensures var r, m := PeerEnded(s, react), Moved(s, StreamEnd);
      r.state == m.state && r.trace == m.trace && !r.streaming
  {
    if s.state != Closing {
      ChangeIs(s, Closing, react);
    }
  }

  lemma TimeoutStates(s: State, id: string, react: Reactions)
    requires NoStops(react) && s.state != Closed
    ensures var r, m := Process(s, Timeout(id), react).0, Moved(s, Timeout(id));
      r.state == m.state && r.trace == m.trace && r.streaming == (s.streaming && id != "stop_session")
  {
    if id == "close" {
      StopIs(s.(error := AppError("timeout")), react);
    }
  }

  lemma StartStates(s: State, e: Event, react: Reactions)
    requires NoStops(react) && e.StreamStart?
    ensures var r, m := Process(s, e, react).0, Moved(s, e);
      r.state == m.state && r.trace == m.trace && r.streaming == s.streaming
  {
    if Allowed(s.state, Negotiating) {
      ChangeIs(Noted(s, e), Negotiating, react);
    }
  }

  lemma IqStates(s: State, e: Event, react: Reactions)
    requires NoStops(react) && e.Iq?
    ensures var r, m := Process(s, e, react).0, Moved(s, e);
      r.state == m.state && r.trace == m.trace && r.streaming == s.streaming
  {
    if s.state == Negotiating && Noted(s, e).jid != "" {
      ChangeIs(Noted(s, e), Bound, react);
    }
  }

  lemma ReceiveStates(s: State, e: Event, handled: bool, react: Reactions)
    requires NoStops(react) && s.state != Closed
    ensures var r := Receive(s, e, handled, react);
      r.state == Moved(s, e).state && r.streaming == (s.streaming && !EndsStream(e))
  {
    ProcessStates(s, e, react);
    NotifyKeepsState(Process(s, e, react).0, react);
  }

  lemma ClosingMeans(s: State, e: Event)
    ensures Moved(s, e).state == Closing <==>
              || s.state == Closing
              || (s.state != Closed
                  && (e.InternalError? || e.StreamError? || e == StreamEnd || e == Timeout("close")))
  {
  }

  /** If no listener stops the session, it closes exactly on an error, the timer named "close" or the
      stream's end, and the stream is over exactly at its end and on the timer named "stop_session". */
  lemma ClosesOn(s: State, o: XmlObject, handled: bool, react: Reactions)
    requires NoStops(react) && s.state != Closed
    ensures var r := Receive(s, Classify(o), handled, react);
      && (r.state == Closing <==>
            s.state == Closing || Internal(o) || IsError(o) || IsEnd(o) || IsTimeout(o, "close"))
      && (r.streaming <==> s.streaming && !IsEnd(o) && !IsTimeout(o, "stop_session"))
  {
    ReceiveStates(s, Classify(o), handled, react);
    ClosingMeans(s, Classify(o));
    ClassifyIs(o);
  }

  /** An error closes the session whatever listeners do, and the stream's end ends it. */
  lemma AlwaysCloses(s: State, o: XmlObject, handled: bool, react: Reactions)
    requires s.state != Closed
    ensures var r := Receive(s, Classify(o), handled, react);
      && (Internal(o) || IsError(o) || IsEnd(o) || IsTimeout(o, "close") ==> r.state == Closing)
      && (IsEnd(o) || IsTimeout(o, "stop_session") ==> !r.streaming)
  {
    ReceiveMoves(s, Classify(o), handled, react);
    ClosingMeans(s, Classify(o));
    StreamOver(s, Classify(o), handled, react);
    ClassifyIs(o);
  }

  lemma StreamOver(s: State, e: Event, handled: bool, react: Reactions)
    requires s.state != Closed
    ensures EndsStream(e) ==> !Receive(s, e, handled, react).streaming
  {
  }

  // ---------- What listeners call ----------

  /** All calls are made, one after the other. */
  lemma {:induction false} CallsInOrder(s: State, a: seq<Call>, b: seq<Call>, react: Reactions)
    ensures Perform(s, a + b, react) == Perform(Perform(s, a, react), b, react)
    decreases |a|
  {
    if a == [] {
      assert a + b == b;
    } else {
      assert (a + b)[1..] == a[1..] + b;
      CallsInOrder(Do(s, a[0], react), a[1..], b, react);
    }
  }

  /** What a listener sends is written while the stream runs, and one that stops or resets does that. */
  lemma CallsDone(s: State, react: Reactions)
    ensures Perform(s, [CallSend], react) == if s.streaming then s.(sent := s.sent + [Stanza]) else s
    ensures forall fast :: Perform(s, [CallStop(fast)], react) == Stop(s, fast, react)
    ensures Perform(s, [CallReset], react) == Reset(s)
  {
    forall c: Call ensures Perform(s, [c], react) == Do(s, c, react) {
      assert [c][1..] == [];
    }
  }

  // ---------- What an object is answered with ----------

  const NONE: Reactions := _ => []

  lemma NobodyCalls(s: State)
    ensures Notify(s, NONE) == s.(notified := s.notified + 1)
  {
    var s1 := s.(notified := s.notified + 1);
    assert Notify(s, NONE) == Perform(s1, NONE(s.notified), NONE) == Perform(s1, [], NONE);
  }

  lemma NothingSent(s: State, e: Event)
    requires !Consumed(s, e)
    ensures var (s1, done) := Process(s, e, NONE);
      && !done && s1.sent == s.sent && s1.streaming == s.streaming && s1.state == s.state
      && s1.features == (if e.Features? then e.nodes else s.features)
      && s1.notified == s.notified + if e.Features? then 1 else 0
  {
    ProcessMoves(s, e, NONE);
    if e.Features? {
      NobodyCalls(Noted(s, e));
    }
  }

  lemma EventAnswers(s: State, e: Event, handled: bool)
    requires s.streaming && !Consumed(s, e)
    ensures var r := Receive(s, e, handled, NONE);
      && r.sent == s.sent + (if e.Iq? && e.request && !handled then [Stanza] else [])
                   + (if s.state == Negotiating && Child(r.features, "bind").Some? && !handled then [Stanza] else [])
      && r.features == (if e.Features? then e.nodes else s.features) && r.state == s.state
      && r.notified == s.notified + if e.Features? then 2 else 1
  {
    NothingSent(s, e);
    NobodyCalls(Process(s, e, NONE).0);
  }

  /** An object that the session is not done with, and nobody else handles: an IQ that asks for something
      is answered; and while negotiating, if the server offers to bind, that is asked for. Nothing else
      is written. An object that was handled elsewhere is not answered. The modules are asked once, and
      the listeners are told of features first. */
  lemma Answers(s: State, o: XmlObject, handled: bool)
    requires s.streaming && !Consumed(s, Classify(o))
    ensures var r := Receive(s, Classify(o), handled, NONE);
      var asks := IsIq(o) && (LookUp(o.attributes, "type") == "get" || LookUp(o.attributes, "type") == "set");
      var offers := exists i :: 0 <= i < |r.features| && r.features[i].tagName == "bind";
      && r.sent == s.sent + (if asks && !handled then [Stanza] else [])
                   + (if s.state == Negotiating && offers && !handled then [Stanza] else [])
      && r.features == (if IsFeatures(o) then o.nodes else s.features) && r.state == s.state
      && r.notified == s.notified + if IsFeatures(o) then 2 else 1
  {
    EventAnswers(s, Classify(o), handled);
    ChildIs(Receive(s, Classify(o), handled, NONE).features, "bind");
    ClassifyIs(o);
  }

  /** What the session is done with itself. */
  lemma ConsumedMeans(s: State, o: XmlObject)
    ensures Consumed(s, Classify(o)) <==>
              || Internal(o) || IsError(o) || IsEnd(o) || IsStart(o)
              || IsTimeout(o, "close") || IsTimeout(o, "stop_session")
              || (IsIq(o) && s.state == Negotiating
                  && ((exists i, k, j :: Says(o, i, k, j) && j != "")
                      || (s.jid != "" && forall i, k, j :: !Says(o, i, k, j))))
  {
    ClassifyIs(o);
    BoundJidIs(o);
    JidNoted(s, Classify(o));
  }
}
