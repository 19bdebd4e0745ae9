/** The session state machine of src/uxmpp/Session.cpp: stopping and changing state call each other
    and the session's listeners, which may call back into the session. */
module Sessions {
  import opened Strings
  import opened Xml

  datatype SessionState = Closed | Connecting | Negotiating | Bound | Closing

  /** valid_session_state_matrix */
  predicate Allowed(from: SessionState, to: SessionState) {
    match from
    case Closed => to == Closed || to == Connecting
    case Connecting => to == Closed || to == Negotiating || to == Closing
    case Negotiating => to == Closed || to == Negotiating || to == Bound || to == Closing
    case Bound => to == Closed || to == Closing
    case Closing => to == Closed
  }

  datatype Error = NoError | AppError(name: string) | Received(nodes: seq<XmlObject>)

  /** What is written to the stream: its own start or end tag, or a stanza. */
  datatype Tag = StreamTag(part: Part) | Stanza

  /** sent, fastStop and trace record what was written in this run, whether a fast stop ended its
      stream, and the states entered. */
  datatype State = State(
    state: SessionState,
    jid: string,
    sessId: string,
    sessFrom: string,
    features: seq<XmlObject>,
    error: Error,
    part: Part,
    streaming: bool,
    stopTimer: bool,
    notified: nat,
    inRun: bool,
    sent: seq<Tag>,
    fastStop: bool,
    trace: seq<SessionState>)

  function Init(): State {
    State(Closed, "", "", "", [], NoError, Start, false, false, 0, false, [], false, [Closed])
  }

  /** A call that a listener or a module makes. */
  datatype Call = CallStop(fast: bool) | CallSend | CallReset

  /** All that the listeners call during the notification of a given number. Every behaviour of the
      listeners in a run is some such function. */
  type Reactions = nat -> seq<Call>

  // ---------- Writing ----------

  function Write(s: State, tag: Tag): State {
    if s.streaming then s.(sent := s.sent + [tag]) else s
  }

  /** The stream is reset, which clears all its timers, and starts again. */
  function Reset(s: State): State {
    Write(s.(features := [], part := Start, stopTimer := false), StreamTag(Start))
  }

  /** The end of stop, once the state is closing. */
  function CloseStream(s: State, fast: bool): State {
    if !s.streaming then s
    else
      var s1 := Write(s.(part := End, stopTimer := s.stopTimer || !fast), StreamTag(End));
      if fast then s1.(streaming := false, fastStop := true) else s1
  }

  // ---------- Stopping and changing state ----------

  /** Where a stop still has something to do. */
  function Rank(state: SessionState): nat {
    if state == Closed || state == Closing then 0 else 1
  }

  /** Calls from outside move the state at most once, to closing. */
  predicate Moved(from: SessionState, to: SessionState) {
    to == from || (Rank(from) == 1 && to == Closing)
  }

  function Stop(s: State, fast: bool, react: Reactions): (r: State)
    ensures Moved(s.state, r.state)
    decreases Rank(s.state), 2, 0
  {
    if !fast && (s.state == Closed || s.state == Closing) then s
    else if s.state != Closing then
      var (s1, ok) := ChangeState(s, Closing, react);
      if ok then CloseStream(s1, fast) else s1
    else CloseStream(s, fast)
  }

  function Enter(s: State, next: SessionState): State {
    s.(state := next, trace := s.trace + [next], stopTimer := s.stopTimer && next != Closed)
  }

  function ChangeState(s: State, next: SessionState, react: Reactions): (r: (State, bool))
    ensures r.1 == Allowed(s.state, next)
    ensures if r.1 then Moved(next, r.0.state) else r.0 == s
    decreases if Allowed(s.state, next) then Rank(next) else 0, if Allowed(s.state, next) then 5 else 0, 0
  {
    if !Allowed(s.state, next) then (s, false)
    else
      var s1 := Enter(s, next);
      var s2 := if next == Closing then Stop(s1, false, react) else s1;
      (Notify(s2, react), true)
  }

  /** All listeners are called. */
  function Notify(s: State, react: Reactions): (r: State)
    ensures Moved(s.state, r.state)
    decreases Rank(s.state), 4, 0
  {
    Perform(s.(notified := s.notified + 1), react(s.notified), react)
  }

  function Perform(s: State, calls: seq<Call>, react: Reactions): (r: State)
    ensures Moved(s.state, r.state)
    decreases Rank(s.state), 3, |calls|
  {
    if calls == [] then s else Perform(Do(s, calls[0], react), calls[1..], react)
  }

  function Do(s: State, call: Call, react: Reactions): (r: State)
    ensures Moved(s.state, r.state)
    decreases Rank(s.state), 2, 1
  {
    match call
    case CallStop(fast) => Stop(s, fast, react)
    case CallSend => Write(s, Stanza)
    case CallReset => Reset(s)
  }

  // ---------- Received objects ----------

  datatype Event =
    | InternalError(name: string)
    | StreamError(nodes: seq<XmlObject>)
    | StreamEnd
    | Features(nodes: seq<XmlObject>)
    | Timeout(id: string)
    | StreamStart(id: string, from: string)
    | Iq(request: bool, jid: Option<string>)
    | Other

  function Child(nodes: seq<XmlObject>, name: string): Option<XmlObject> {
    if nodes == [] then None else if nodes[0].tagName == name then Some(nodes[0]) else Child(nodes[1..], name)
  }

  /** The content of the child "jid" of the child "bind". */
  function BoundJid(o: XmlObject): Option<string> {
    var bind := Child(o.nodes, "bind");
    if bind.None? then None
    else
      var node := Child(bind.value.nodes, "jid");
      if node.None? then None else Some(node.value.content)
  }

  /** The tests of process_xml_object in their order. */
  function Classify(o: XmlObject): Event {
    var name := o.FullName();
    if o.namespace == "http://ultramarin.se/uxmpp#internal-error" then InternalError(o.tagName)
    else if name == "http://etherx.jabber.org/streams:error" then StreamError(o.nodes)
    else if name == "http://etherx.jabber.org/streams:stream" && o.part == End then StreamEnd
    else if name == "http://etherx.jabber.org/streams:features" then Features(o.nodes)
    else if name == "http://ultramarin.se/uxmpp#internal-timer:timeout" then Timeout(o.Attribute("id"))
    else if name == "http://etherx.jabber.org/streams:stream" then
      StreamStart(o.Attribute("id"), o.Attribute("from"))
    else if name == "jabber:client:iq" then
      Iq(o.Attribute("type") == "get" || o.Attribute("type") == "set", BoundJid(o))
    else Other
  }

  /** The stream's end tag was received. */
  function PeerEnded(s: State, react: Reactions): State {
    if s.state == Closing then s.(streaming := false)
    else
      var (s1, ok) := ChangeState(s, Closing, react);
      if ok && s1.streaming then Write(s1.(part := End), StreamTag(End)).(streaming := false) else s1
  }

  /** process_xml_object: the new state, and whether the object was handled */
  function Process(s: State, e: Event, react: Reactions): (State, bool) {
    match e
    case InternalError(name) => (Stop(s.(error := AppError(name)), false, react), true)
    case StreamError(nodes) => (Stop(s.(error := Received(nodes)), false, react), true)
    case StreamEnd => (PeerEnded(s, react), true)
    case Features(nodes) => (Notify(s.(features := nodes), react), false)
    case Timeout(id) =>
      if id == "close" then (Stop(s.(error := AppError("timeout")), false, react), true)
      else if id == "stop_session" then (s.(streaming := false), true)
      else (s, false)
    case StreamStart(id, from) => (ChangeState(s.(sessId := id, sessFrom := from), Negotiating, react).0, true)
    case Iq(_, jid) =>
      if s.state != Negotiating then (s, false)
      else
        var s1 := if jid.Some? then s.(jid := jid.value) else s;
        if s1.jid != "" then (ChangeState(s1, Bound, react).0, true) else (s1, false)
    case Other => (s, false)
  }

  /** An object that no module handled: an error reply, and a request to bind. */
  function Unhandled(s: State, e: Event): State {
    var s1 := if e.Iq? && e.request then Write(s, Stanza) else s;
    if s.state == Negotiating && Child(s.features, "bind").Some? then Write(s1, Stanza) else s1
  }

  /** on_rx_xml_obj: the session itself is the first module */
  function Receive(s: State, e: Event, handled: bool, react: Reactions): State {
    var (s1, done) := Process(s, e, react);
    if done then s1
    else
      var s2 := Notify(s1, react);
      if handled then s2 else Unhandled(s2, e)
  }

  // ---------- A run of the session ----------

  /** run up to the resolver; false if the state does not allow it */
  function Begin(s: State, react: Reactions): (State, bool) {
    var (s1, ok) := ChangeState(s.(sent := [], fastStop := false), Connecting, react);
    if !ok then (s, false)
    else (s1.(inRun := true, sessId := "", sessFrom := "", jid := "", error := NoError, part := Start), true)
  }

  /** XmlStream::run: the stream is running and its first object is written */
  function Connected(s: State): State {
    Write(s.(streaming := true), StreamTag(s.part))
  }

  /** run after the last stream */
  function Finish(s: State, react: Reactions): State {
    ChangeState(s, Closed, react).0.(inRun := false, sessId := "", sessFrom := "", jid := "")
  }

  /** What comes of one resolved address: no connection, a connection on which the stream refuses to
      run, or a stream that runs. */
  datatype Attempt = Fails | Refused | Runs

  /** The loop over the resolved addresses: until one connects and its stream runs. */
  function Attempted(s: State, attempts: seq<Attempt>): State
    decreases |attempts|
  {
    if attempts == [] then s
    else if attempts[0] == Runs then Connected(s.(error := NoError))
    else Attempted(s.(error := AppError("connect-failed")), attempts[1..])
  }

  /** What happens while the stream runs: an object arrives, which some module may handle, or someone
      calls stop. */
  datatype Input = Object(obj: XmlObject, handled: bool) | StopCall(fast: bool)

  function Take(s: State, input: Input, react: Reactions): State {
    match input
    case Object(o, handled) => Receive(s, Classify(o), handled, react)
    case StopCall(fast) => Stop(s, fast, react)
  }

  /** All of it, one after the other, until the stream is stopped, at the latest after the last input. */
  function Attended(s: State, inputs: seq<Input>, react: Reactions): State
    decreases |inputs|
  {
    if !s.streaming then s
    else if inputs == [] then s.(streaming := false)
    else Attended(Take(s, inputs[0], react), inputs[1..], react)
  }

  /** run as a whole */
  function Whole(s: State, attempts: seq<Attempt>, inputs: seq<Input>, react: Reactions): State {
    var s1 := Begin(s, react).0;
    var s2 := Attempted(if attempts == [] then s1.(error := AppError("resolve-error")) else s1, attempts);
    Finish(Attended(s2, inputs, react), react)
  }

  datatype Action =
    | DoBegin
    | DoConnectFailed(name: string)
    | DoConnected
    | DoReceive(e: Event, handled: bool)
    | DoStreamStopped
    | DoStop(fast: bool)
    | DoSend
    | DoReset
    | DoFinish

  /** One thread runs the session; the stream is run at most once in a run. */
  predicate Enabled(s: State, a: Action) {
    match a
    case DoBegin => !s.inRun
    case DoConnectFailed(_) => s.inRun && !s.streaming && s.sent == []
    case DoConnected => s.inRun && !s.streaming && s.sent == []
    case DoReceive(_, _) => s.inRun && s.sent != []
    case DoFinish => s.inRun && !s.streaming
    case _ => true
  }

  function Step(s: State, a: Action, react: Reactions): State {
    match a
    case DoBegin => Begin(s, react).0
    case DoConnectFailed(name) => s.(error := AppError(name))
    case DoConnected => Connected(s.(error := NoError))
    case DoReceive(e, handled) => Receive(s, e, handled, react)
    case DoStreamStopped => s.(streaming := false)
    case DoStop(fast) => Stop(s, fast, react)
    case DoSend => Write(s, Stanza)
    case DoReset => Reset(s)
    case DoFinish => Finish(s, react)
  }

  ghost predicate Legal(actions: seq<Action>, react: Reactions) {
    if actions == [] then true
    else
      var n := |actions| - 1;
      Legal(actions[..n], react) && Enabled(After(actions[..n], react), actions[n])
  }

  /** The state after a run of steps from a new session. */
  function After(actions: seq<Action>, react: Reactions): State {
    if actions == [] then Init()
    else
      var n := |actions| - 1;
      Step(After(actions[..n], react), actions[n], react)
  }
}
