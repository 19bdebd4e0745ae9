/** What every step of a session keeps, whatever its listeners do, and the theorems about all runs. */
module SessionSafety {
  import opened Strings
  import opened Xml
  import opened Sessions

  // ---------- End tags ----------

  /** How many end tags of the stream were written. */
  function Ends(sent: seq<Tag>): nat {
    if sent == [] then 0
    else
      var n := |sent| - 1;
      Ends(sent[..n]) + if sent[n] == StreamTag(End) then 1 else 0
  }

  lemma EndsSnoc(sent: seq<Tag>, tag: Tag)
    ensures Ends(sent + [tag]) == Ends(sent) + if tag == StreamTag(End) then 1 else 0
    ensures EndedLast(sent + [tag]) == (tag == StreamTag(End) || (tag != StreamTag(Start) && EndedLast(sent)))
  {
    assert (sent + [tag])[..|sent|] == sent;
  }

  /** Whether the stream was not started anew since its last end tag. */
  predicate EndedLast(sent: seq<Tag>) {
    if sent == [] then false
    else
      var n := |sent| - 1;
      sent[n] == StreamTag(End) || (sent[n] != StreamTag(Start) && EndedLast(sent[..n]))
  }

  /** Before closing nothing was said; without a fast stop at most one end tag was written; a fast
      stop writes one more at most, and ends the stream. While the stream runs its timer is armed exactly
      if the end tag is the last of the stream's own tags. */
  predicate EndOk(s: State) {
    && (Rank(s.state) == 1 ==> Ends(s.sent) == 0 && !s.fastStop)
    && (if s.fastStop then Ends(s.sent) <= 2 && !s.streaming else Ends(s.sent) <= 1)
    && (s.streaming ==> (s.stopTimer <==> EndedLast(s.sent)))
    && (s.state == Closed ==> !s.stopTimer)
  }

  /** A closing session whose stream still runs has not written its end tag yet. */
  predicate Unsaid(s: State) {
    s.streaming ==> Ends(s.sent) == 0
  }

  // ---------- States entered ----------

  ghost predicate Follows(trace: seq<SessionState>) {
    forall i :: 0 < i < |trace| ==> Allowed(trace[i - 1], trace[i])
  }

  ghost predicate TraceOk(s: State) {
    s.trace != [] && s.trace[0] == Closed && s.trace[|s.trace| - 1] == s.state && Follows(s.trace)
  }

  lemma EnterFollows(s: State, next: SessionState)
    requires TraceOk(s) && Allowed(s.state, next)
    ensures TraceOk(Enter(s, next))
  {
  }

  // ---------- Calls from outside ----------

  /** What stop, a change of state and listeners leave alone. */
  predicate Keeps(s: State, r: State) {
    && r.jid == s.jid && r.inRun == s.inRun && (r.streaming ==> s.streaming)
    && (r.sent == [] ==> s.sent == [] && r.fastStop == s.fastStop && (r.part == s.part || r.part == Start))
    && (r.sent == [] ==> r.stopTimer ==> s.stopTimer)
    && (!s.streaming ==> r.sent == s.sent)
    && (s.streaming && !r.streaming ==> Ends(r.sent) > 0)
    && Ends(s.sent) <= Ends(r.sent)
  }

  ghost predicate Fine(s: State) {
    EndOk(s) && TraceOk(s)
  }

  lemma SendKeeps(s: State)
    requires Fine(s)
    ensures Fine(Write(s, Stanza)) && Keeps(s, Write(s, Stanza)) && (Unsaid(s) ==> Unsaid(Write(s, Stanza)))
  {
    EndsSnoc(s.sent, Stanza);
  }

  lemma ResetKeeps(s: State)
    requires Fine(s)
    ensures Fine(Reset(s)) && Keeps(s, Reset(s)) && (Unsaid(s) ==> Unsaid(Reset(s)))
    ensures Reset(s).features == [] && (s.streaming ==> Reset(s).sent == s.sent + [StreamTag(Start)])
  {
    EndsSnoc(s.sent, StreamTag(Start));
  }

  lemma CloseKeeps(s: State, fast: bool)
    requires Fine(s) && s.state == Closing && (fast || Unsaid(s))
    ensures var r := CloseStream(s, fast);
      Fine(r) && Keeps(s, r) && (fast ==> Unsaid(r))
  {
    EndsSnoc(s.sent, StreamTag(End));
  }

  lemma {:induction false} StopKeeps(s: State, fast: bool, react: Reactions)
    requires Fine(s)
    ensures var r := Stop(s, fast, react);
      Fine(r) && Keeps(s, r) && (s.state == Closing && Unsaid(s) ==> Unsaid(r))
    decreases Rank(s.state), 2, 0
  {
    if Rank(s.state) == 1 {
      ChangeKeeps(s, Closing, react);
      CloseKeeps(ChangeState(s, Closing, react).0, fast);
    } else if fast && s.state == Closing {
      CloseKeeps(s, fast);
    }
  }

  lemma {:induction false} ChangeKeeps(s: State, next: SessionState, react: Reactions)
    requires TraceOk(s) && EndOk(s)
    requires Allowed(s.state, next) && Rank(next) == 1 ==> Ends(s.sent) == 0 && !s.fastStop
    requires next == Closed ==> !s.streaming
    ensures var (r, ok) := ChangeState(s, next, react);
      Fine(r) && Keeps(s, r) && (ok && next == Closing ==> Unsaid(r))
    decreases if Allowed(s.state, next) then Rank(next) else 0, if Allowed(s.state, next) then 5 else 0, 0
  {
    if Allowed(s.state, next) {
      EnterFollows(s, next);
      NotifyKeeps(Enter(s, next), react);
    }
  }

  lemma {:induction false} NotifyKeeps(s: State, react: Reactions)
    requires Fine(s)
    ensures var r := Notify(s, react);
      Fine(r) && Keeps(s, r) && (s.state == Closing && Unsaid(s) ==> Unsaid(r))
    decreases Rank(s.state), 4, 0
  {
    PerformKeeps(s.(notified := s.notified + 1), react(s.notified), react);
  }

  lemma {:induction false} DoKeeps(s: State, call: Call, react: Reactions)
    requires Fine(s)
    ensures var r := Do(s, call, react);
      Fine(r) && Keeps(s, r) && (s.state == Closing && Unsaid(s) ==> Unsaid(r))
    decreases Rank(s.state), 2, 1
  {
    match call
    case CallStop(fast) => StopKeeps(s, fast, react);
    case CallSend => SendKeeps(s);
    case CallReset => ResetKeeps(s);
  }

  lemma KeepsTwice(s: State, m: State, r: State)
    requires Keeps(s, m) && Keeps(m, r)
    ensures Keeps(s, r)
  {
  }

  lemma {:induction false} PerformKeeps(s: State, calls: seq<Call>, react: Reactions)
    requires Fine(s)
    ensures var r := Perform(s, calls, react);
      Fine(r) && Keeps(s, r) && (s.state == Closing && Unsaid(s) ==> Unsaid(r))
    decreases Rank(s.state), 3, |calls|
  {
    if calls != [] {
      DoKeeps(s, calls[0], react);
      PerformKeeps(Do(s, calls[0], react), calls[1..], react);
      KeepsTwice(s, Do(s, calls[0], react), Perform(s, calls, react));
    }
  }

  // ---------- Steps ----------

  /** Outside a run the session is closed; a jid is there exactly once it is bound, and then stays
      until the run is over. */
  ghost predicate Inv(s: State) {
    && Fine(s)
    && (s.inRun <==> s.state != Closed)
    && (!s.inRun ==> s.jid == "" && !s.streaming)
    && (s.state == Connecting || s.state == Negotiating ==> s.jid == "")
    && (s.state == Bound ==> s.jid != "")
    && (s.inRun && s.sent == [] ==> s.part == Start && !s.fastStop && !s.stopTimer)
  }

  lemma StopInv(s: State, fast: bool, react: Reactions)
    requires Inv(s)
    ensures Inv(Stop(s, fast, react)) && Stop(s, fast, react).inRun == s.inRun
  {
    StopKeeps(s, fast, react);
  }

  lemma NotifyInv(s: State, react: Reactions)
    requires Inv(s)
    ensures Inv(Notify(s, react)) && Notify(s, react).inRun == s.inRun
  {
    NotifyKeeps(s, react);
  }

  lemma SendInv(s: State)
    requires Inv(s)
    ensures Inv(Write(s, Stanza))
  {
    SendKeeps(s);
  }

  lemma LastEnd(s: State)
    requires Inv(s) && s.state == Closing && Unsaid(s) && s.streaming
    ensures var r := Write(s.(part := End), StreamTag(End)).(streaming := false); Inv(r) && r.inRun == s.inRun
  {
    EndsSnoc(s.sent, StreamTag(End));
  }

  lemma PeerEndedInv(s: State, react: Reactions)
    requires Inv(s)
    ensures Inv(PeerEnded(s, react)) && PeerEnded(s, react).inRun == s.inRun
  {
    if s.state != Closing {
      ChangeKeeps(s, Closing, react);
      var (s1, ok) := ChangeState(s, Closing, react);
      if ok && s1.streaming {
        LastEnd(s1);
      }
    }
  }

  lemma StreamStartInv(s: State, react: Reactions)
    requires Inv(s) && s.inRun
    ensures Inv(ChangeState(s, Negotiating, react).0) && ChangeState(s, Negotiating, react).0.inRun
  {
    ChangeKeeps(s, Negotiating, react);
  }

  lemma BindInv(s: State, react: Reactions)
    requires Inv(s.(jid := "")) && s.state == Negotiating && s.jid != ""
    ensures Inv(ChangeState(s, Bound, react).0) && ChangeState(s, Bound, react).0.inRun
  {
    ChangeKeeps(s, Bound, react);
  }

  lemma ErrorInv(s: State, error: Error, react: Reactions)
    requires Inv(s) && s.inRun
    ensures var r := Stop(s.(error := error), false, react); Inv(r) && r.inRun
  {
    StopInv(s.(error := error), false, react);
  }

  lemma IqInv(s: State, request: bool, jid: Option<string>, react: Reactions)
    requires Inv(s) && s.inRun
    ensures var r := Process(s, Iq(request, jid), react).0; Inv(r) && r.inRun
  {
    if s.state == Negotiating && jid.Some? && jid.value != "" {
      BindInv(s.(jid := jid.value), react);
    }
  }

  lemma ProcessInv(s: State, e: Event, react: Reactions)
    requires Inv(s) && s.inRun
    ensures Inv(Process(s, e, react).0) && Process(s, e, react).0.inRun
  {
    match e
    case InternalError(name) => ErrorInv(s, AppError(name), react);
    case StreamError(nodes) => ErrorInv(s, Received(nodes), react);
    case StreamEnd => PeerEndedInv(s, react);
    case Features(nodes) => NotifyInv(s.(features := nodes), react);
    case Timeout(id) => ErrorInv(s, AppError("timeout"), react);
    case StreamStart(id, from) => StreamStartInv(s.(sessId := id, sessFrom := from), react);
    case Iq(request, jid) => IqInv(s, request, jid, react);
    case Other =>
  }

  lemma ReceiveInv(s: State, e: Event, handled: bool, react: Reactions)
    requires Inv(s) && s.inRun
    ensures Inv(Receive(s, e, handled, react)) && Receive(s, e, handled, react).inRun
  {
    ProcessInv(s, e, react);
    var s1 := Process(s, e, react).0;
    NotifyInv(s1, react);
    var s2 := Notify(s1, react);
    SendInv(s2);
    SendInv(Write(s2, Stanza));
  }

  lemma BeginInv(s: State, react: Reactions)
    requires Inv(s) && !s.inRun
    ensures var (r, ok) := Begin(s, react); Inv(r) && ok && r.inRun && r.sent == [] && !r.streaming
  {
    ChangeKeeps(s.(sent := [], fastStop := false), Connecting, react);
  }

  lemma FinishInv(s: State, react: Reactions)
    requires Inv(s) && !s.streaming
    ensures Inv(Finish(s, react))
  {
    ChangeKeeps(s, Closed, react);
  }

  lemma ConnectedInv(s: State)
    requires Inv(s) && s.inRun && s.sent == []
    ensures Inv(Connected(s))
  {
    EndsSnoc(s.sent, StreamTag(s.part));
  }

  lemma StepInv(s: State, a: Action, react: Reactions)
    requires Inv(s) && Enabled(s, a)
    ensures Inv(Step(s, a, react))
  {
    match a
    case DoBegin => BeginInv(s, react);
    case DoConnectFailed(_) =>
    case DoConnected => ConnectedInv(s.(error := NoError));
    case DoReceive(e, handled) => ReceiveInv(s, e, handled, react);
    case DoStreamStopped =>
    case DoStop(fast) => StopInv(s, fast, react);
    case DoSend => SendInv(s);
    case DoReset => ResetKeeps(s);
    case DoFinish => FinishInv(s, react);
  }

  lemma {:induction false} AlwaysInv(actions: seq<Action>, react: Reactions)
    requires Legal(actions, react)
    ensures Inv(After(actions, react))
    decreases |actions|
  {
    if actions != [] {
      var n := |actions| - 1;
      AlwaysInv(actions[..n], react);
      StepInv(After(actions[..n], react), actions[n], react);
    }
  }

  /** Only an IQ received while negotiating leads to bound. */
  lemma ProcessBound(s: State, e: Event, react: Reactions)
    requires Inv(s) && s.inRun && s.state != Bound
    ensures var r := Process(s, e, react).0;
      r.state == Bound ==> s.state == Negotiating && e.Iq? && e.jid == Some(r.jid) && r.jid != ""
  {
    if e.Iq? && s.state == Negotiating && e.jid.Some? && e.jid.value != "" {
      ChangeKeeps(s.(jid := e.jid.value), Bound, react);
    }
  }

  lemma ReceiveKeepsJid(s: State, e: Event, handled: bool, react: Reactions)
    requires Inv(s) && s.inRun
    ensures var s1, r := Process(s, e, react).0, Receive(s, e, handled, react);
      r.jid == s1.jid && Moved(s1.state, r.state)
  {
    ProcessInv(s, e, react);
    NotifyKeeps(Process(s, e, react).0, react);
  }

  // ---------- Without fast stops ----------

  predicate SlowCalls(calls: seq<Call>) {
    CallStop(true) !in calls
  }

  ghost predicate Slow(react: Reactions) {
    forall k: nat :: SlowCalls(react(k))
  }

  lemma {:induction false} StopSlow(s: State, react: Reactions)
    requires Slow(react)
    ensures Stop(s, false, react).fastStop == s.fastStop
    decreases Rank(s.state), 2, 0
  {
    if Rank(s.state) == 1 {
      ChangeSlow(s, Closing, react);
    }
  }

  lemma {:induction false} ChangeSlow(s: State, next: SessionState, react: Reactions)
    requires Slow(react)
    ensures ChangeState(s, next, react).0.fastStop == s.fastStop
    decreases if Allowed(s.state, next) then Rank(next) else 0, if Allowed(s.state, next) then 5 else 0, 0
  {
    if Allowed(s.state, next) {
      NotifySlow(Enter(s, next), react);
    }
  }

  lemma {:induction false} NotifySlow(s: State, react: Reactions)
    requires Slow(react)
    ensures Notify(s, react).fastStop == s.fastStop
    decreases Rank(s.state), 4, 0
  {
    assert SlowCalls(react(s.notified));
    PerformSlow(s.(notified := s.notified + 1), react(s.notified), react);
  }

  lemma {:induction false} PerformSlow(s: State, calls: seq<Call>, react: Reactions)
    requires Slow(react) && SlowCalls(calls)
    ensures Perform(s, calls, react).fastStop == s.fastStop
    decreases Rank(s.state), 3, |calls|
  {
    if calls != [] {
      if calls[0].CallStop? {
        StopSlow(s, react);
      }
      PerformSlow(Do(s, calls[0], react), calls[1..], react);
    }
  }

  lemma ProcessSlow(s: State, e: Event, react: Reactions)
    requires Slow(react)
    ensures Process(s, e, react).0.fastStop == s.fastStop
  {
    match e
    case InternalError(name) => StopSlow(s.(error := AppError(name)), react);
    case StreamError(nodes) => StopSlow(s.(error := Received(nodes)), react);
    case StreamEnd => ChangeSlow(s, Closing, react);
    case Features(nodes) => NotifySlow(s.(features := nodes), react);
    case Timeout(_) => StopSlow(s.(error := AppError("timeout")), react);
    case StreamStart(id, from) => ChangeSlow(s.(sessId := id, sessFrom := from), Negotiating, react);
    case Iq(_, jid) =>
      ChangeSlow(s, Bound, react);
      if jid.Some? {
        ChangeSlow(s.(jid := jid.value), Bound, react);
      }
    case Other =>
  }

  lemma StepSlow(s: State, a: Action, react: Reactions)
    requires Slow(react) && a != DoStop(true) && !s.fastStop
    ensures !Step(s, a, react).fastStop
  {
    match a
    case DoBegin => ChangeSlow(s.(sent := [], fastStop := false), Connecting, react);
    case DoReceive(e, handled) =>
      ProcessSlow(s, e, react);
      NotifySlow(Process(s, e, react).0, react);
    case DoStop(_) => StopSlow(s, react);
    case DoFinish => ChangeSlow(s, Closed, react);
    case _ =>
  }

  // ---------- The matrix and the start of a run ----------

  /** The twelve changes of state that there are. */
  lemma MatrixIs(from: SessionState, to: SessionState)
    ensures Allowed(from, to) <==> (from, to) in {
              (Closed, Closed), (Closed, Connecting),
              (Connecting, Closed), (Connecting, Negotiating), (Connecting, Closing),
              (Negotiating, Closed), (Negotiating, Negotiating), (Negotiating, Bound), (Negotiating, Closing),
              (Bound, Closed), (Bound, Closing),
              (Closing, Closed)}
  {
  }

  /** A run starts without anything of an earlier one, whatever happened before and whatever the listeners
      do, and the first thing that is written is the stream's start tag. */
  lemma StartsAfresh(actions: seq<Action>, react: Reactions)
    requires Legal(actions, react) && !After(actions, react).inRun
    ensures var s := After(actions + [DoBegin], react);
      && Legal(actions + [DoBegin], react) && s.inRun && !s.streaming
      && s.jid == "" && s.sessId == "" && s.sessFrom == "" && s.error == NoError && s.sent == []
      && s.part == Start && !s.stopTimer && (s.state == Connecting || s.state == Closing)
    ensures var c := After(actions + [DoBegin] + [DoConnected], react);
      Legal(actions + [DoBegin] + [DoConnected], react) && c.streaming && c.sent == [StreamTag(Start)]
  {
    AlwaysInv(actions, react);
    AfterSnoc(actions, DoBegin, react);
    AlwaysInv(actions + [DoBegin], react);
    BeginInv(After(actions, react), react);
    AfterSnoc(actions + [DoBegin], DoConnected, react);
  }

  /** And the end of a run leaves nothing of it: the session can be run again. */
  lemma EndsClean(actions: seq<Action>, react: Reactions)
    requires Legal(actions, react) && After(actions, react).inRun && !After(actions, react).streaming
    ensures var s := After(actions + [DoFinish], react);
      && Legal(actions + [DoFinish], react) && s.state == Closed && !s.inRun && !s.streaming && !s.stopTimer
      && s.jid == "" && s.sessId == "" && s.sessFrom == ""
  {
    AfterSnoc(actions, DoFinish, react);
    AlwaysInv(actions, react);
    AlwaysInv(actions + [DoFinish], react);
  }

  // ---------- Every run ----------

  lemma BoundAndClosing(trace: seq<SessionState>)
    requires trace != [] && trace[0] == Closed && Follows(trace)
    ensures forall i :: 0 <= i < |trace| && trace[i] == Bound ==> i > 0 && trace[i - 1] == Negotiating
    ensures forall i :: 0 < i < |trace| && trace[i - 1] == Closing ==> trace[i] == Closed
  {
  }

  /** Over any run, whatever the listeners do, successive states follow the matrix, and so a session
      is bound only straight after negotiating, and after closing comes only closed. */
  lemma StatesFollowMatrix(actions: seq<Action>, react: Reactions)
    requires Legal(actions, react)
    ensures var s := After(actions, react);
      && s.trace != [] && s.trace[|s.trace| - 1] == s.state
      && (forall i :: 0 < i < |s.trace| ==> Allowed(s.trace[i - 1], s.trace[i]))
      && (forall i :: 0 <= i < |s.trace| && s.trace[i] == Bound ==> i > 0 && s.trace[i - 1] == Negotiating)
      && (forall i :: 0 < i < |s.trace| && s.trace[i - 1] == Closing ==> s.trace[i] == Closed)
  {
    AlwaysInv(actions, react);
    BoundAndClosing(After(actions, react).trace);
  }

  /** The end tag is written at most once per run, whichever side closes first and whatever the
      listeners call; a fast stop may write a second one, and then the stream is over. */
  lemma EndTagOnce(actions: seq<Action>, react: Reactions)
    requires Legal(actions, react)
    ensures var s := After(actions, react);
      && (if s.fastStop then Ends(s.sent) <= 2 && !s.streaming else Ends(s.sent) <= 1)
      && (Ends(s.sent) > 0 ==> s.state == Closing || s.state == Closed)
  {
    AlwaysInv(actions, react);
  }

  /** Whoever closes first, a running stream gets its end tag, unless the session was closing before
      the stream was connected and so never said it: then only a fast stop says it. The peer's end tag
      and a fast stop end the stream. */
  lemma EndTagWritten(s: State, fast: bool, react: Reactions)
    requires Inv(s) && s.streaming
    ensures var r := Stop(s, fast, react);
      r.state == Closing && (fast ==> !r.streaming)
      && (Ends(r.sent) > 0 <==> s.state != Closing || fast || Ends(s.sent) > 0)
    ensures var r := PeerEnded(s, react);
      r.state == Closing && !r.streaming && (Ends(r.sent) > 0 <==> s.state != Closing || Ends(s.sent) > 0)
  {
    EndsSnoc(s.sent, StreamTag(End));
    if s.state != Closing {
      ChangeKeeps(s, Closing, react);
      EndsSnoc(ChangeState(s, Closing, react).0.sent, StreamTag(End));
    }
  }

  // ---------- Who never says it ----------

  /** A closing session whose stream still runs has written its end tag. */
  predicate Said(s: State) {
    s.streaming && s.state == Closing ==> Ends(s.sent) > 0
  }

  lemma StopSays(s: State, fast: bool, react: Reactions)
    requires Fine(s) && Said(s)
    ensures Said(Stop(s, fast, react))
  {
    if Rank(s.state) == 1 {
      ChangeKeeps(s, Closing, react);
      EndsSnoc(ChangeState(s, Closing, react).0.sent, StreamTag(End));
    }
  }

  lemma {:induction false} PerformSays(s: State, calls: seq<Call>, react: Reactions)
    requires Fine(s) && Said(s)
    ensures Said(Perform(s, calls, react))
    decreases |calls|
  {
    if calls != [] {
      match calls[0] {
        case CallStop(fast) => StopSays(s, fast, react);
        case CallSend => EndsSnoc(s.sent, Stanza);
        case CallReset => EndsSnoc(s.sent, StreamTag(Start));
      }
      DoKeeps(s, calls[0], react);
      PerformSays(Do(s, calls[0], react), calls[1..], react);
    }
  }

  lemma NotifySays(s: State, react: Reactions)
    requires Fine(s) && Said(s)
    ensures Said(Notify(s, react))
  {
    PerformSays(s.(notified := s.notified + 1), react(s.notified), react);
  }

  lemma ChangeSays(s: State, next: SessionState, react: Reactions)
    requires TraceOk(s) && EndOk(s) && Said(s) && next != Closing
    requires Allowed(s.state, next) && Rank(next) == 1 ==> Ends(s.sent) == 0 && !s.fastStop
    requires next == Closed ==> !s.streaming
    ensures Said(ChangeState(s, next, react).0)
  {
    if Allowed(s.state, next) {
      EnterFollows(s, next);
      NotifySays(Enter(s, next), react);
    }
  }

  lemma ProcessSays(s: State, e: Event, react: Reactions)
    requires Inv(s) && s.inRun && Said(s)
    ensures Said(Process(s, e, react).0)
  {
    match e
    case InternalError(name) => StopSays(s.(error := AppError(name)), false, react);
    case StreamError(nodes) => StopSays(s.(error := Received(nodes)), false, react);
    case StreamEnd =>
    case Features(nodes) => NotifySays(s.(features := nodes), react);
    case Timeout(_) => StopSays(s.(error := AppError("timeout")), false, react);
    case StreamStart(id, from) => ChangeSays(s.(sessId := id, sessFrom := from), Negotiating, react);
    case Iq(_, jid) => ChangeSays(if jid.Some? then s.(jid := jid.value) else s, Bound, react);
    case Other =>
  }

  lemma WriteSays(s: State)
    requires Said(s)
    ensures Said(Write(s, Stanza))
  {
    EndsSnoc(s.sent, Stanza);
  }

  lemma ReceiveSays(s: State, e: Event, handled: bool, react: Reactions)
    requires Inv(s) && s.inRun && Said(s)
    ensures Said(Receive(s, e, handled, react))
  {
    ProcessSays(s, e, react);
    ProcessInv(s, e, react);
    var s2 := Notify(Process(s, e, react).0, react);
    NotifySays(Process(s, e, react).0, react);
    WriteSays(s2);
    WriteSays(Write(s2, Stanza));
  }

  lemma StepSays(s: State, a: Action, react: Reactions)
    requires Inv(s) && Enabled(s, a) && Said(s) && (a == DoConnected ==> s.state != Closing)
    ensures Said(Step(s, a, react))
  {
    match a
    case DoBegin => ChangeSays(s.(sent := [], fastStop := false), Connecting, react);
    case DoReceive(e, handled) => ReceiveSays(s, e, handled, react);
    case DoStop(fast) => StopSays(s, fast, react);
    case DoSend => WriteSays(s);
    case DoReset => EndsSnoc(s.sent, StreamTag(Start));
    case DoFinish => ChangeSays(s, Closed, react);
    case _ =>
  }

  lemma ProcessUnsaid(s: State, e: Event, react: Reactions)
    requires Inv(s) && s.inRun && s.state == Closing && Unsaid(s)
    ensures var r := Process(s, e, react).0; r.state == Closing && Unsaid(r)
  {
    match e
    case Features(nodes) => NotifyKeeps(s.(features := nodes), react);
    case _ =>
  }

  lemma ReceiveUnsaid(s: State, e: Event, handled: bool, react: Reactions)
    requires Inv(s) && s.inRun && s.state == Closing && Unsaid(s)
    ensures var r := Receive(s, e, handled, react); r.state == Closing && Unsaid(r)
  {
    ProcessUnsaid(s, e, react);
    ProcessInv(s, e, react);
    var s1 := Process(s, e, react).0;
    NotifyKeeps(s1, react);
    var s2 := Notify(s1, react);
    EndsSnoc(s2.sent, Stanza);
    EndsSnoc(Write(s2, Stanza).sent, Stanza);
  }

  /** What is closing and has said nothing stays so while its stream runs. */
  lemma StepUnsaid(s: State, a: Action, react: Reactions)
    requires Inv(s) && Enabled(s, a) && s.streaming && s.state == Closing && Unsaid(s)
    ensures var r := Step(s, a, react); r.streaming ==> r.state == Closing && Unsaid(r)
  {
    match a
    case DoReceive(e, handled) => ReceiveUnsaid(s, e, handled, react);
    case DoStop(fast) => StopKeeps(s, fast, react);
    case DoSend => SendKeeps(s);
    case DoReset => ResetKeeps(s);
    case _ =>
  }

  /** Whether the session was closing already when its stream was connected, in the last run. */
  predicate ClosingFirst(actions: seq<Action>, react: Reactions) {
    if actions == [] then false
    else
      var n := |actions| - 1;
      match actions[n]
      case DoConnected => After(actions[..n], react).state == Closing
      case DoBegin => false
      case _ => ClosingFirst(actions[..n], react)
  }

  lemma ProcessStream(s: State, e: Event, react: Reactions)
    requires Inv(s) && s.inRun
    ensures Process(s, e, react).0.streaming ==> s.streaming
  {
    match e
    case InternalError(name) => StopKeeps(s.(error := AppError(name)), false, react);
    case StreamError(nodes) => StopKeeps(s.(error := Received(nodes)), false, react);
    case StreamEnd =>
    case Features(nodes) => NotifyKeeps(s.(features := nodes), react);
    case Timeout(_) => StopKeeps(s.(error := AppError("timeout")), false, react);
    case StreamStart(id, from) => ChangeKeeps(s.(sessId := id, sessFrom := from), Negotiating, react);
    case Iq(_, jid) => ChangeKeeps(if jid.Some? then s.(jid := jid.value) else s, Bound, react);
    case Other =>
  }

  /** Only connecting makes a stream run. */
  lemma StreamKept(s: State, a: Action, react: Reactions)
    requires Inv(s) && Enabled(s, a) && a != DoConnected && a != DoBegin
    ensures Step(s, a, react).streaming ==> s.streaming
  {
    match a
    case DoReceive(e, handled) =>
      ProcessStream(s, e, react);
      ProcessInv(s, e, react);
      NotifyKeeps(Process(s, e, react).0, react);
    case DoStop(fast) => StopKeeps(s, fast, react);
    case DoFinish => ChangeKeeps(s, Closed, react);
    case _ =>
  }

  lemma ConnectedSays(s: State, react: Reactions)
    requires Inv(s) && Enabled(s, DoConnected)
    ensures var r := Step(s, DoConnected, react); r.state == s.state && Ends(r.sent) == 0
  {
    EndsSnoc(s.sent, StreamTag(s.part));
  }

  /** Over any run: while the stream of a closing session runs, the session has not said its end tag
      exactly if it was closing before the stream was connected. */
  lemma {:induction false} NeverSaid(actions: seq<Action>, react: Reactions)
    requires Legal(actions, react)
    ensures var s := After(actions, react);
      s.streaming ==> (s.state == Closing && Ends(s.sent) == 0 <==> ClosingFirst(actions, react))
    decreases |actions|
  {
    if actions != [] {
      var n := |actions| - 1;
      var s, a := After(actions[..n], react), actions[n];
      NeverSaid(actions[..n], react);
      AlwaysInv(actions[..n], react);
      if a == DoConnected {
        ConnectedSays(s, react);
      } else if a == DoBegin {
        BeginInv(s, react);
      } else if s.streaming && s.state == Closing && Unsaid(s) {
        StepUnsaid(s, a, react);
      } else {
        StepSays(s, a, react);
        StreamKept(s, a, react);
      }
    }
  }

  /** Whether the stream was started anew after an end tag, which only a reset does. */
  ghost predicate ResetSinceEnd(sent: seq<Tag>) {
    exists i, j :: 0 <= i < j < |sent| && sent[i] == StreamTag(End) && sent[j] == StreamTag(Start)
  }

  lemma {:induction false} NoEnds(sent: seq<Tag>)
    ensures Ends(sent) == 0 <==> StreamTag(End) !in sent
  {
    if sent != [] {
      NoEnds(sent[..|sent| - 1]);
    }
  }

  lemma {:induction false} EndedLastMeans(sent: seq<Tag>)
    requires Ends(sent) == 1
    ensures EndedLast(sent) <==> !ResetSinceEnd(sent)
  {
    var n := |sent| - 1;
    NoEnds(sent[..n]);
    if sent[n] != StreamTag(End) {
      EndedLastMeans(sent[..n]);
      var i :| 0 <= i < n && sent[i] == StreamTag(End);
      if sent[n] != StreamTag(Start) && ResetSinceEnd(sent) {
        var k, j :| 0 <= k < j < |sent| && sent[k] == StreamTag(End) && sent[j] == StreamTag(Start);
        assert sent[..n][k] == StreamTag(End) && sent[..n][j] == StreamTag(Start);
      }
    }
  }

  /** While our end tag waits for the peer's, the timer that ends the stream is armed exactly if the
      stream was not reset since; when it fires the stream is over. A closed session has no timer. */
  lemma WaitingIsTimed(actions: seq<Action>, react: Reactions)
    requires Legal(actions, react)
    ensures var s := After(actions, react);
      && (Ends(s.sent) > 0 && s.streaming ==> (s.stopTimer <==> !ResetSinceEnd(s.sent)))
      && (s.state == Closed ==> !s.stopTimer)
      && !Process(s, Timeout("stop_session"), react).0.streaming
  {
    AlwaysInv(actions, react);
    var s := After(actions, react);
    if Ends(s.sent) > 0 && s.streaming {
      EndedLastMeans(s.sent);
    }
  }

  /** With no fast stop from anyone it is once at most, without exception. */
  lemma {:induction false} OnceWithoutFastStops(actions: seq<Action>, react: Reactions)
    requires Legal(actions, react) && Slow(react) && DoStop(true) !in actions
    ensures !After(actions, react).fastStop && Ends(After(actions, react).sent) <= 1
    decreases |actions|
  {
    AlwaysInv(actions, react);
    if actions != [] {
      var n := |actions| - 1;
      OnceWithoutFastStops(actions[..n], react);
      AlwaysInv(actions[..n], react);
      StepSlow(After(actions[..n], react), actions[n], react);
    }
  }

  /** Bound implies a jid, and negotiating that there is none yet; outside a run there is none. */
  lemma BoundHasJid(actions: seq<Action>, react: Reactions)
    requires Legal(actions, react)
    ensures var s := After(actions, react);
      && (s.state == Bound ==> s.jid != "")
      && (s.state == Connecting || s.state == Negotiating || s.state == Closed ==> s.jid == "")
  {
    AlwaysInv(actions, react);
  }

  /** The one way to become bound: an IQ with a non-empty jid received while negotiating, whose
      content becomes the session's jid. */
  lemma BoundByJid(actions: seq<Action>, a: Action, react: Reactions)
    requires Legal(actions, react) && Enabled(After(actions, react), a)
    ensures var s := After(actions, react);
      var r := Step(s, a, react);
      s.state != Bound && r.state == Bound ==>
        s.state == Negotiating && a.DoReceive? && a.e.Iq? && a.e.jid == Some(r.jid) && r.jid != ""
  {
    AlwaysInv(actions, react);
    var s := After(actions, react);
    if a.DoReceive? && s.state != Bound {
      ProcessBound(s, a.e, react);
      ReceiveKeepsJid(s, a.e, a.handled, react);
    }
  }

  /** A stop that comes before the stream is connected is lost: the stream starts all the same, no
      end tag is written, and no later ordinary stop does anything. */
  lemma StopWhileConnecting(s: State, react: Reactions)
    requires Inv(s) && s.state == Connecting && !s.streaming && s.sent == []
    ensures var r := Connected(Stop(s, false, react));
      r.state == Closing && r.streaming && Ends(r.sent) == Ends(s.sent) == 0 && Stop(r, false, react) == r
  {
    StopKeeps(s, false, react);
    EndsSnoc([], StreamTag(Start));
  }

  // ---------- A run as a whole ----------

  lemma {:induction false} AttendedInv(s: State, inputs: seq<Input>, react: Reactions)
    requires Inv(s) && s.inRun
    ensures var r := Attended(s, inputs, react); Inv(r) && r.inRun && !r.streaming
    decreases |inputs|
  {
    if s.streaming && inputs != [] {
      match inputs[0] {
        case Object(o, handled) => ReceiveInv(s, Classify(o), handled, react);
        case StopCall(fast) => StopInv(s, fast, react);
      }
      AttendedInv(Take(s, inputs[0], react), inputs[1..], react);
    }
  }

  function ActionOf(input: Input): Action {
    match input
    case Object(o, handled) => DoReceive(Classify(o), handled)
    case StopCall(fast) => DoStop(fast)
  }

  function ActionsOf(inputs: seq<Input>): (r: seq<Action>)
    ensures |r| == |inputs| && forall i :: 0 <= i < |r| ==> r[i] == ActionOf(inputs[i])
  {
    seq(|inputs|, i requires 0 <= i < |inputs| => ActionOf(inputs[i]))
  }

  lemma NoneYet(actions: seq<Action>, inputs: seq<Input>)
    ensures actions + ActionsOf(inputs[..0]) == actions
  {
  }

  lemma OneMore(actions: seq<Action>, inputs: seq<Input>, n: nat)
    requires n < |inputs|
    ensures actions + [ActionOf(inputs[0])] + ActionsOf(inputs[1..][..n]) == actions + ActionsOf(inputs[..n + 1])
  {
  }

  /** The inputs are taken in order, and none is left out while the stream runs. */
  lemma {:induction false} AttendedIs(actions: seq<Action>, inputs: seq<Input>, react: Reactions) returns (n: nat)
    requires Legal(actions, react) && After(actions, react).inRun && After(actions, react).sent != []
    ensures n <= |inputs| && Legal(actions + ActionsOf(inputs[..n]), react)
    ensures var s := After(actions + ActionsOf(inputs[..n]), react);
      && (n < |inputs| ==> !s.streaming) && s.inRun
      && Attended(After(actions, react), inputs, react) == s.(streaming := false)
    decreases |inputs|
  {
    var s := After(actions, react);
    if !s.streaming || inputs == [] {
      n := 0;
      NoneYet(actions, inputs);
    } else {
      var a := ActionOf(inputs[0]);
      OneInput(actions, inputs[0], react);
      n := AttendedIs(actions + [a], inputs[1..], react);
      OneMore(actions, inputs, n);
      n := n + 1;
    }
  }

  lemma ProcessSent(s: State, e: Event, react: Reactions)
    requires Inv(s) && s.inRun && s.sent != []
    ensures Process(s, e, react).0.sent != []
  {
    match e
    case InternalError(name) => StopSent(s.(error := AppError(name)), react);
    case StreamError(nodes) => StopSent(s.(error := Received(nodes)), react);
    case StreamEnd => ChangeSent(s, Closing, react);
    case Features(nodes) => NotifyKeeps(s.(features := nodes), react);
    case Timeout(_) => StopSent(s.(error := AppError("timeout")), react);
    case StreamStart(id, from) => ChangeSent(s.(sessId := id, sessFrom := from), Negotiating, react);
    case Iq(_, jid) => ChangeSent(if jid.Some? then s.(jid := jid.value) else s, Bound, react);
    case Other =>
  }

  lemma StopSent(s: State, react: Reactions)
    requires Fine(s) && s.sent != []
    ensures Stop(s, false, react).sent != []
  {
    StopKeeps(s, false, react);
  }

  lemma ChangeSent(s: State, next: SessionState, react: Reactions)
    requires TraceOk(s) && EndOk(s) && s.sent != [] && next != Closed && next != Connecting
    ensures ChangeState(s, next, react).0.sent != []
  {
    if Allowed(s.state, next) {
      ChangeKeeps(s, next, react);
    }
  }

  lemma ReceiveSent(s: State, e: Event, handled: bool, react: Reactions)
    requires Inv(s) && s.inRun && s.sent != []
    ensures Receive(s, e, handled, react).sent != []
  {
    ProcessSent(s, e, react);
    ProcessInv(s, e, react);
    NotifyKeeps(Process(s, e, react).0, react);
  }

  lemma InputKeeps(s: State, input: Input, react: Reactions)
    requires Inv(s) && s.inRun && s.sent != []
    ensures var r := Take(s, input, react); r.inRun && r.sent != [] && r == Step(s, ActionOf(input), react)
  {
    match input
    case Object(o, handled) =>
      ReceiveInv(s, Classify(o), handled, react);
      ReceiveSent(s, Classify(o), handled, react);
    case StopCall(fast) =>
      StopInv(s, fast, react);
      StopKeeps(s, fast, react);
  }

  lemma OneInput(actions: seq<Action>, input: Input, react: Reactions)
    requires Legal(actions, react) && After(actions, react).inRun && After(actions, react).sent != []
    ensures var r, next := Take(After(actions, react), input, react), actions + [ActionOf(input)];
      Legal(next, react) && After(next, react) == r && r.inRun && r.sent != []
  {
    AlwaysInv(actions, react);
    AfterSnoc(actions, ActionOf(input), react);
    InputKeeps(After(actions, react), input, react);
  }

  function Failures(n: nat): (r: seq<Action>)
    ensures |r| == n && forall i :: 0 <= i < n ==> r[i] == DoConnectFailed("connect-failed")
  {
    seq(n, _ => DoConnectFailed("connect-failed"))
  }

  lemma OneMoreFailure(actions: seq<Action>, k: nat, last: seq<Action>)
    ensures actions + [DoConnectFailed("connect-failed")] + (Failures(k) + last) == actions + (Failures(k + 1) + last)
  {
  }

  lemma FailsAt(actions: seq<Action>, react: Reactions)
    requires Legal(actions, react)
    requires var s := After(actions, react); s.inRun && !s.streaming && s.sent == []
    ensures var next := actions + [DoConnectFailed("connect-failed")];
      Legal(next, react) && After(next, react) == After(actions, react).(error := AppError("connect-failed"))
  {
    AfterSnoc(actions, DoConnectFailed("connect-failed"), react);
  }

  lemma RunsAt(actions: seq<Action>, react: Reactions)
    requires Legal(actions, react)
    requires var s := After(actions, react); s.inRun && !s.streaming && s.sent == []
    ensures var next, r := actions + [DoConnected], Connected(After(actions, react).(error := NoError));
      Legal(next, react) && After(next, react) == r && r.inRun && r.streaming && r.sent != []
  {
    AfterSnoc(actions, DoConnected, react);
  }

  /** The addresses are tried in order, up to the first whose stream runs. */
  lemma {:induction false} AttemptedIs(actions: seq<Action>, attempts: seq<Attempt>, react: Reactions)
    returns (k: nat)
    requires Legal(actions, react)
    requires var s := After(actions, react); s.inRun && !s.streaming && s.sent == []
    ensures k <= |attempts| && forall i :: 0 <= i < k ==> attempts[i] != Runs
    ensures k < |attempts| ==> attempts[k] == Runs
    ensures var r := Attempted(After(actions, react), attempts);
      && r.inRun && r.streaming == (k < |attempts|) && (r.streaming ==> r.sent != [])
      && (!r.streaming ==> r.sent == [])
    ensures var more := Failures(k) + if k < |attempts| then [DoConnected] else [];
      Legal(actions + more, react) && After(actions + more, react) == Attempted(After(actions, react), attempts)
    decreases |attempts|
  {
    k := 0;
    if attempts == [] {
      assert actions + (Failures(0) + []) == actions;
    } else if attempts[0] == Runs {
      RunsAt(actions, react);
      assert Failures(0) + [DoConnected] == [DoConnected];
    } else {
      var a := DoConnectFailed("connect-failed");
      FailsAt(actions, react);
      k := AttemptedIs(actions + [a], attempts[1..], react);
      OneMoreFailure(actions, k, if k < |attempts[1..]| then [DoConnected] else []);
      k := k + 1;
    }
  }

  lemma BeginsAs(actions: seq<Action>, unresolved: bool, react: Reactions)
    requires Legal(actions, react) && !After(actions, react).inRun
    ensures var first := [DoBegin] + if unresolved then [DoConnectFailed("resolve-error")] else [];
      var s, b := After(actions + first, react), Begin(After(actions, react), react).0;
      && Legal(actions + first, react) && s == (if unresolved then b.(error := AppError("resolve-error")) else b)
      && s.inRun && !s.streaming && s.sent == []
  {
    AlwaysInv(actions, react);
    BeginInv(After(actions, react), react);
    AfterSnoc(actions, DoBegin, react);
    if unresolved {
      AfterSnoc(actions + [DoBegin], DoConnectFailed("resolve-error"), react);
      assert actions + [DoBegin] + [DoConnectFailed("resolve-error")]
          == actions + ([DoBegin] + [DoConnectFailed("resolve-error")]);
    } else {
      assert [DoBegin] + [] == [DoBegin];
    }
  }

  /** What run does, as a run of the state machine: it begins, tries the addresses in order up to the first
      whose stream runs, takes the inputs in order until the stream is stopped, and finishes. So all that
      holds over every run holds of it. */
  lemma WholeIsRun(actions: seq<Action>, attempts: seq<Attempt>, inputs: seq<Input>, react: Reactions)
    returns (k: nat, n: nat)
    requires Legal(actions, react) && !After(actions, react).inRun
    ensures n <= |inputs| && k <= |attempts| && forall i :: 0 <= i < k ==> attempts[i] != Runs
    ensures k < |attempts| ==> attempts[k] == Runs
    ensures var first := [DoBegin] + if attempts == [] then [DoConnectFailed("resolve-error")] else [];
      var tried := actions + first + (Failures(k) + if k < |attempts| then [DoConnected] else []);
      var taken := if k < |attempts| then tried + ActionsOf(inputs[..n]) + [DoStreamStopped] else tried;
      && (n < |inputs| && k < |attempts| ==> !After(tried + ActionsOf(inputs[..n]), react).streaming)
      && Legal(taken + [DoFinish], react)
      && After(taken + [DoFinish], react) == Whole(After(actions, react), attempts, inputs, react)
  {
    var first := [DoBegin] + if attempts == [] then [DoConnectFailed("resolve-error")] else [];
    BeginsAs(actions, attempts == [], react);
    k := AttemptedIs(actions + first, attempts, react);
    var tried := actions + first + (Failures(k) + if k < |attempts| then [DoConnected] else []);
    n := 0;
    if k < |attempts| {
      n := AttendedIs(tried, inputs, react);
      var heard := tried + ActionsOf(inputs[..n]);
      AfterSnoc(heard, DoStreamStopped, react);
      AfterSnoc(heard + [DoStreamStopped], DoFinish, react);
    } else {
      AfterSnoc(tried, DoFinish, react);
    }
  }

  // ---------- Two runs ----------

  const SILENT: Reactions := _ => []

  lemma AfterSnoc(actions: seq<Action>, a: Action, react: Reactions)
    requires Legal(actions, react) && Enabled(After(actions, react), a)
    ensures Legal(actions + [a], react) && After(actions + [a], react) == Step(After(actions, react), a, react)
  {
    assert (actions + [a])[..|actions|] == actions;
  }

  /** A run in which the stop is lost: it comes while the session is still connecting. */
  lemma LostStop()
    ensures var actions := [DoBegin] + [DoStop(false)] + [DoConnected] + [DoStop(false)];
      var s := After(actions, SILENT);
      Legal(actions, SILENT) && s.state == Closing && s.streaming && Ends(s.sent) == 0
  {
    AfterSnoc([], DoBegin, SILENT);
    assert [] + [DoBegin] == [DoBegin];
    var s1 := After([DoBegin], SILENT);
    AfterSnoc([DoBegin], DoStop(false), SILENT);
    AfterSnoc([DoBegin] + [DoStop(false)], DoConnected, SILENT);
    AfterSnoc([DoBegin] + [DoStop(false)] + [DoConnected], DoStop(false), SILENT);
    AlwaysInv([DoBegin], SILENT);
    StopWhileConnecting(s1, SILENT);
  }

  /** A module that resets the stream when it gets a late object. */
  const RESETS_LATE: Reactions := k => if k == 3 then [CallReset] else []

  /** Started, connected, negotiating, stopped. */
  const STOPPED := [DoBegin] + [DoConnected] + [DoReceive(StreamStart("", ""), false)] + [DoStop(false)]

  lemma AfterStarted(react: Reactions)
    requires react(0) == [] && react(1) == []
    ensures var a := [DoBegin] + [DoConnected] + [DoReceive(StreamStart("", ""), false)];
      var s := After(a, react);
      && Legal(a, react) && s.state == Negotiating && s.notified == 2
      && s.sent == [StreamTag(Start)] && s.streaming && s.inRun
  {
    AfterSnoc([], DoBegin, react);
    assert [] + [DoBegin] == [DoBegin];
    QuietChange(Init(), Connecting, react);
    AfterSnoc([DoBegin], DoConnected, react);
    var s2 := After([DoBegin] + [DoConnected], react);
    AfterSnoc([DoBegin] + [DoConnected], DoReceive(StreamStart("", ""), false), react);
    QuietChange(s2.(sessId := "", sessFrom := ""), Negotiating, react);
  }

  lemma AfterStopped(react: Reactions)
    requires react(0) == [] && react(1) == [] && react(2) == []
    ensures var s := After(STOPPED, react);
      && Legal(STOPPED, react) && s.state == Closing && s.notified == 3
      && s.sent == [StreamTag(Start)] + [StreamTag(End)] && s.streaming && s.inRun
  {
    AfterStarted(react);
    var a := [DoBegin] + [DoConnected] + [DoReceive(StreamStart("", ""), false)];
    AfterSnoc(a, DoStop(false), react);
    QuietChange(After(a, react), Closing, react);
  }

  /** A run that waits without a timer: stopped while negotiating, and then a module answers an object
      that was on its way (such as the success of an authentication) with a reset. */
  lemma ResetStopsTimer()
    ensures var actions := STOPPED + [DoReceive(Other, true)];
      var s := After(actions, RESETS_LATE);
      Legal(actions, RESETS_LATE) && s.state == Closing && s.streaming && Ends(s.sent) == 1 && !s.stopTimer
      && Stop(s, false, RESETS_LATE) == s
  {
    AfterStopped(RESETS_LATE);
    var s := After(STOPPED, RESETS_LATE);
    AfterSnoc(STOPPED, DoReceive(Other, true), RESETS_LATE);
    ResetByModule(s, RESETS_LATE);
    EndsSnoc([], StreamTag(Start));
    EndsSnoc([StreamTag(Start)], StreamTag(End));
    EndsSnoc(s.sent, StreamTag(Start));
    assert [] + [StreamTag(Start)] == [StreamTag(Start)];
  }

  lemma QuietChange(s: State, next: SessionState, react: Reactions)
    requires Allowed(s.state, next) && react(s.notified) == []
    ensures ChangeState(s, next, react) == (Enter(s, next).(notified := s.notified + 1), true)
  {
    var s1 := Enter(s, next);
    assert next == Closing ==> Stop(s1, false, react) == s1;
    assert Notify(s1, react) == Perform(s1.(notified := s1.notified + 1), [], react);
  }

  lemma ResetByModule(s: State, react: Reactions)
    requires react(s.notified) == [CallReset]
    ensures Receive(s, Other, true, react) == Reset(s.(notified := s.notified + 1))
  {
    var s1 := s.(notified := s.notified + 1);
    assert [CallReset][1..] == [];
    assert Do(s1, CallReset, react) == Reset(s1);
    assert Perform(s1, [CallReset], react) == Perform(Reset(s1), [], react);
  }
}
