/** The session's methods on its fields. Each leaves the state that the state machine gives. */
module SessionObject {
  import opened Strings
  import opened Xml
  import opened Sessions
  import opened SessionSafety

  class Session {
    const react: Reactions
    var state: SessionState
    var jid: string
    var sessId: string
    var sessFrom: string
    var features: seq<XmlObject>
    var streamError: Error
    var part: Part
    var streaming: bool
    var stopTimer: bool
    var notified: nat
    ghost var inRun: bool
    ghost var sent: seq<Tag>
    ghost var fastStop: bool
    ghost var trace: seq<SessionState>

    ghost function Abs(): State
      reads this
    {
      State(state, jid, sessId, sessFrom, features, streamError, part, streaming, stopTimer, notified, inRun, sent,
            fastStop, trace)
    }

    constructor (react: Reactions)
      ensures Abs() == Init() && this.react == react && Inv(Abs())
    {
      this.react := react;
      state, jid, sessId, sessFrom, features, streamError := Closed, "", "", "", [], NoError;
      part, streaming, stopTimer, notified, inRun := Start, false, false, 0, false;
      sent, fastStop, trace := [], false, [Closed];
    }

    // ---------- Writing ----------

    /** XmlStream::write */
    method WriteTag(tag: Tag)
      modifies this`sent
      ensures Abs() == Write(old(Abs()), tag)
    {
      if streaming {
        sent := sent + [tag];
      }
    }

    method ResetStream()
      modifies this`features, this`part, this`stopTimer, this`sent
      ensures Abs() == Reset(old(Abs()))
    {
      stopTimer := false;
      features := [];
      part := Start;
      WriteTag(StreamTag(part));
    }

    // ---------- Stopping and changing state ----------

    method StopSession(fast: bool)
      modifies this
      ensures Abs() == Stop(old(Abs()), fast, react)
      decreases Rank(state), 2, 0
    {
      if !fast && (state == Closed || state == Closing) {
        return;
      }
      if state != Closing {
        var ok := SetState(Closing);
        if !ok {
          return;
        }
      }
      if streaming {
        part := End;
        if !fast {
          stopTimer := true;
        }
        WriteTag(StreamTag(part));
        if fast {
          streaming, fastStop := false, true;
        }
      }
    }

    /** change_state */
    method SetState(newState: SessionState) returns (ok: bool)
      modifies this
      ensures (Abs(), ok) == ChangeState(old(Abs()), newState, react)
      decreases if Allowed(state, newState) then Rank(newState) else 0, if Allowed(state, newState) then 5 else 0, 0
    {
      if !Allowed(state, newState) {
        return false;
      }
      state := newState;
      trace := trace + [newState];
      match newState {
        case Closed => stopTimer := false;
        case Closing => StopSession(false);
        case _ =>
      }
      CallListeners();
      return true;
    }

    /** Every listener is told; what they call is up to them. */
    method CallListeners()
      modifies this
      ensures Abs() == Notify(old(Abs()), react)
      decreases Rank(state), 4, 0
    {
      var calls := react(notified);
      notified := notified + 1;
      ghost var from := Abs();
      while calls != []
        invariant Moved(from.state, state)
        invariant Perform(Abs(), calls, react) == Perform(from, react(from.notified - 1), react)
        decreases |calls|
      {
        match calls[0] {
          case CallStop(fast) => StopSession(fast);
          case CallSend => WriteTag(Stanza);
          case CallReset => ResetStream();
        }
        calls := calls[1..];
      }
    }

    // ---------- Received objects ----------

    method OnStreamEnd()
      modifies this
      ensures Abs() == PeerEnded(old(Abs()), react)
    {
      if state == Closing {
        if streaming {
          streaming := false;
        }
      } else {
        var ok := SetState(Closing);
        if ok && streaming {
          part := End;
          WriteTag(StreamTag(part));
          streaming := false;
        }
      }
    }

    method OnTimeout(id: string) returns (handled: bool)
      modifies this
      ensures (Abs(), handled) == Process(old(Abs()), Timeout(id), react)
    {
      if id == "close" {
        streamError := AppError("timeout");
        StopSession(false);
        return true;
      }
      if id == "stop_session" {
        if streaming {
          streaming := false;
        }
        return true;
      }
      return false;
    }

    method OnIq(request: bool, node: Option<string>) returns (handled: bool)
      modifies this
      ensures (Abs(), handled) == Process(old(Abs()), Iq(request, node), react)
    {
      if state != Negotiating {
        return false;
      }
      if node.Some? {
        jid := node.value;
      }
      if jid != "" {
        var _ := SetState(Bound);
        return true;
      }
      return false;
    }

    method ProcessXmlObject(xmlObj: XmlObject) returns (handled: bool)
      modifies this
      ensures (Abs(), handled) == Process(old(Abs()), Classify(xmlObj), react)
    {
      handled := ProcessEvent(Classify(xmlObj));
    }

    method ProcessEvent(e: Event) returns (handled: bool)
      modifies this
      ensures (Abs(), handled) == Process(old(Abs()), e, react)
    {
      match e
      case InternalError(name) =>
        streamError := AppError(name);
        StopSession(false);
        return true;
      case StreamError(nodes) =>
        streamError := Received(nodes);
        StopSession(false);
        return true;
      case StreamEnd =>
        OnStreamEnd();
        return true;
      case Features(nodes) =>
        features := nodes;
        CallListeners();
        return false;
      case Timeout(id) =>
        handled := OnTimeout(id);
      case StreamStart(id, from) =>
        sessId, sessFrom := id, from;
        var _ := SetState(Negotiating);
        return true;
      case Iq(request, node) =>
        handled := OnIq(request, node);
      case Other =>
        return false;
    }

    /** Whether the loop over the features finds one to bind. */
    method WantsBind() returns (found: bool)
      ensures found <==> Child(features, "bind").Some?
    {
      var left := features;
      while left != []
        invariant Child(left, "bind") == Child(features, "bind")
        decreases |left|
      {
        if left[0].tagName == "bind" {
          return true;
        }
        left := left[1..];
      }
      return false;
    }

    /** on_rx_xml_obj; the result of the modules after the session itself is given */
    method OnRxXmlObj(xmlObj: XmlObject, handledElsewhere: bool)
      modifies this
      ensures Abs() == Receive(old(Abs()), Classify(xmlObj), handledElsewhere, react)
    {
      var handled := ProcessXmlObject(xmlObj);
      if handled {
        return;
      }
      CallListeners();
      if handledElsewhere {
        return;
      }
      var e := Classify(xmlObj);
      if e.Iq? && e.request {
        WriteTag(Stanza);
      }
      if state == Negotiating {
        var bind := WantsBind();
        if bind {
          WriteTag(Stanza);
        }
      }
    }

    // ---------- A run ----------

    method BeginRun() returns (ok: bool)
      requires Inv(Abs()) && !inRun
      modifies this
      ensures (Abs(), ok) == Begin(old(Abs()), react) && Inv(Abs()) && ok && inRun && sent == [] && !streaming
    {
      BeginInv(Abs(), react);
      sent, fastStop := [], false;
      ok := SetState(Connecting);
      inRun, sessId, sessFrom, jid, streamError, part := true, "", "", "", NoError, Start;
    }

    method FinishRun()
      requires Inv(Abs()) && inRun && !streaming
      modifies this
      ensures Abs() == Finish(old(Abs()), react) && Inv(Abs()) && !inRun
    {
      FinishInv(Abs(), react);
      var _ := SetState(Closed);
      inRun, sessId, sessFrom, jid := false, "", "", "";
    }

    /** An object arrives, or someone calls stop. */
    method TakeInput(input: Input)
      modifies this
      ensures Abs() == Take(old(Abs()), input, react)
    {
      match input
      case Object(xmlObj, handled) => OnRxXmlObj(xmlObj, handled);
      case StopCall(fast) => StopSession(fast);
    }

    /** What happens until the stream is stopped. */
    method StreamLoop(inputs: seq<Input>)
      modifies this
      ensures Abs() == Attended(old(Abs()), inputs, react) && !streaming
    {
      var left := inputs;
      ghost var from := Abs();
      while streaming
        invariant Attended(Abs(), left, react) == Attended(from, inputs, react)
        decreases |left|, streaming
      {
        if left == [] {
          streaming := false;
        } else {
          TakeInput(left[0]);
          left := left[1..];
        }
      }
    }

    /** A connection succeeded: the stream runs and its first object is written. */
    method OpenStream()
      requires Inv(Abs()) && inRun && sent == []
      modifies this`streamError, this`streaming, this`sent
      ensures Abs() == Connected(old(Abs()).(error := NoError)) && Inv(Abs()) && streaming
    {
      ConnectedInv(Abs().(error := NoError));
      streamError, streaming := NoError, true;
      WriteTag(StreamTag(part));
    }

    /** The loop over the resolved addresses: until one connects and its stream runs. */
    method TryAddresses(attempts: seq<Attempt>)
      requires Inv(Abs()) && inRun && sent == [] && !streaming
      modifies this`streamError, this`streaming, this`sent
      ensures Abs() == Attempted(old(Abs()), attempts) && Inv(Abs()) && inRun
      ensures streaming == (Runs in attempts)
      ensures streamError == if streaming then NoError
                             else if attempts == [] then old(streamError) else AppError("connect-failed")
    {
      var left := attempts;
      ghost var from := Abs();
      while left != []
        invariant Inv(Abs()) && sent == [] && !streaming && Attempted(Abs(), left) == Attempted(from, attempts)
        invariant Runs in left <==> Runs in attempts
        invariant streamError == if left == attempts then old(streamError) else AppError("connect-failed")
        decreases |left|
      {
        streamError := NoError;
        if left[0] == Runs {
          OpenStream();
          return;
        }
        streamError := AppError("connect-failed");
        left := left[1..];
      }
    }

    /** run, given what comes of the addresses and what happens on the stream */
    method RunSession(attempts: seq<Attempt>, inputs: seq<Input>)
      requires Inv(Abs()) && !inRun
      modifies this
      ensures Abs() == Whole(old(Abs()), attempts, inputs, react)
      ensures Inv(Abs()) && !inRun && state == Closed
    {
      var ok := BeginRun();
      if attempts == [] {
        streamError := AppError("resolve-error");
      }
      TryAddresses(attempts);
      AttendedInv(Abs(), inputs, react);
      StreamLoop(inputs);
      FinishRun();
    }
  }
}
