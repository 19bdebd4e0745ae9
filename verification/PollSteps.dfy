/** Every step keeps the invariants, so they hold in every reachable state. */
module PollSteps {
  import opened PollProtocol
  import opened PollInvariants

  // ---------- Entries changed in place ----------

  /** The same descriptors at the same positions. */
  ghost predicate SameFds(a: seq<Entry>, b: seq<Entry>) {
    |a| == |b| && forall i :: 0 <= i < |a| ==> a[i].fd == b[i].fd
  }

  lemma SameFdsIndex(a: seq<Entry>, b: seq<Entry>, fd: Fd)
    requires SameFds(a, b)
    ensures IndexOf(a, fd) == IndexOf(b, fd)
  {
  }

  lemma SameFdsList(s: State, s': State)
    requires ListInv(s) && SameFds(s.entries, s'.entries) && s'.fdMap == s.fdMap
    ensures ListInv(s')
  {
  }

  // ---------- The pipe and the wakeups ----------

  /** Nothing that decides who polls what changed, except for one command sent. */
  ghost predicate SameWakes(s: State, s': State, c: Conn, dir: Dir) {
    && c in s.conns && c in s'.conns && s'.conns[c].fd == s.conns[c].fd
    && (forall d :: Owns(s.conns, d, s.conns[c].fd) <==> Owns(s'.conns, d, s.conns[c].fd))
    && Armed(s'.entries, s.conns[c].fd, dir) == Armed(s.entries, s.conns[c].fd, dir)
  }

  lemma KeepWake(s: State, s': State, c: Conn, dir: Dir)
    requires SameWakes(s, s', c, dir) && s'.pipe == s.pipe
    ensures WillPoll(s', c, dir) == WillPoll(s, c, dir)
  {
    EffectsOwners(Armed(s.entries, s.conns[c].fd, dir), s.conns, s'.conns, s.pipe, s.conns[c].fd, dir);
  }

  lemma SendWake(s: State, s': State, c: Conn, dir: Dir, cmd: Cmd)
    requires SameWakes(s, s', c, dir) && s'.pipe == s.pipe + [cmd]
    ensures WillPoll(s', c, dir) == Effect(WillPoll(s, c, dir), s.conns, cmd, s.conns[c].fd, dir)
  {
    var fd := s.conns[c].fd;
    var armed := Armed(s.entries, fd, dir);
    EffectsSnoc(armed, s'.conns, s.pipe, cmd, fd, dir);
    EffectsOwners(armed, s.conns, s'.conns, s.pipe, fd, dir);
  }

  lemma SameWantsArmed(a: seq<Entry>, b: seq<Entry>, fd: Fd, dir: Dir)
    requires SameFds(a, b)
    requires forall i :: 0 <= i < |a| && a[i].fd == fd ==> a[i].Wants(dir) == b[i].Wants(dir)
    ensures Armed(a, fd, dir) == Armed(b, fd, dir)
  {
    SameFdsIndex(a, b, fd);
  }

  // ---------- Client steps ----------

  lemma RegisterKeepsWakes(s: State, c: Conn)
    requires ListInv(s) && ConnInv(s) && WakeInv(s)
    ensures ConnInv(Register(s, c)) && WakeInv(Register(s, c))
  {
    var s' := Register(s, c);
    if c !in s.conns {
      forall d, dir | d in s'.conns && s'.conns[d].Queue(dir) != [] ensures WillPoll(s', d, dir) {
        assert d != c && s'.conns[d] == s.conns[d];
        KeepWake(s, s', d, dir);
      }
    }
  }

  /** Whoever the list holds the descriptor for. */
  lemma SetFdWakes(s: State, c: Conn, fd: Fd)
    requires WakeInv(s) && ConnInv(s) && c in s.conns && s.conns[c].rx == [] && s.conns[c].tx == []
    requires fd == CLOSED || forall d :: d in s.conns ==> s.conns[d].fd != fd
    ensures WakeInv(SetFd(s, c, fd))
  {
    var s' := SetFd(s, c, fd);
    forall d, dir | d in s'.conns && s'.conns[d].Queue(dir) != [] ensures WillPoll(s', d, dir) {
      KeepWake(s, s', d, dir);
    }
  }

  lemma SetFdKeepsWakes(s: State, c: Conn, fd: Fd)
    requires ListInv(s) && ConnInv(s) && WakeInv(s) && Enabled(s, DoSetFd(c, fd))
    ensures ConnInv(SetFd(s, c, fd)) && WakeInv(SetFd(s, c, fd))
  {
    SetFdWakes(s, c, fd);
  }

  lemma EnqueueSameWakes(s: State, c: Conn, dir: Dir, op: Op, d: Conn, dir': Dir)
    requires c in s.conns && d in s.conns
    ensures SameWakes(s, Enqueue(s, c, dir, op), d, dir')
  {
    var s' := Enqueue(s, c, dir, op);
    assert s'.entries == s.entries && s'.conns.Keys == s.conns.Keys;
    assert forall b :: b in s.conns ==> s'.conns[b].fd == s.conns[b].fd;
  }

  lemma EnqueueWake(s: State, c: Conn, dir: Dir, op: Op, d: Conn, dir': Dir)
    requires WakeInv(s) && c in s.conns && d in s.conns
    requires (d == c && dir' == dir) || s.conns[d].Queue(dir') != []
    ensures WillPoll(Enqueue(s, c, dir, op), d, dir')
  {
    var s' := Enqueue(s, c, dir, op);
    EnqueueSameWakes(s, c, dir, op, d, dir');
    if s.conns[c].Queue(dir) == [] {
      SendWake(s, s', d, dir', Add(c, dir));
    } else {
      KeepWake(s, s', d, dir');
    }
  }

  lemma EnqueueKeepsConns(s: State, c: Conn, dir: Dir, op: Op)
    requires ConnInv(s) && (c in s.conns ==> s.conns[c].fd != CLOSED)
    ensures ConnInv(Enqueue(s, c, dir, op))
  {
    var s' := Enqueue(s, c, dir, op);
    assert s'.fdMap == s.fdMap && s'.conns.Keys == s.conns.Keys;
    assert forall d :: d in s.conns ==> s'.conns[d].fd == s.conns[d].fd && (d != c ==> s'.conns[d] == s.conns[d]);
  }

  lemma EnqueueKeepsWakes(s: State, c: Conn, dir: Dir, op: Op)
    requires ConnInv(s) && WakeInv(s) && (c in s.conns ==> s.conns[c].fd != CLOSED)
    ensures ConnInv(Enqueue(s, c, dir, op)) && WakeInv(Enqueue(s, c, dir, op))
  {
    EnqueueKeepsConns(s, c, dir, op);
    var s' := Enqueue(s, c, dir, op);
    if c in s.conns {
      forall d, dir' | d in s'.conns && s'.conns[d].Queue(dir') != [] ensures WillPoll(s', d, dir') {
        EnqueueWake(s, c, dir, op, d, dir');
      }
    }
  }

  lemma CancelKeepsWakes(s: State, c: Conn)
    requires ConnInv(s) && WakeInv(s)
    ensures ConnInv(Cancel(s, c)) && WakeInv(Cancel(s, c))
  {
    var s' := Cancel(s, c);
    if c in s.conns {
      forall d, dir | d in s'.conns && s'.conns[d].Queue(dir) != [] ensures WillPoll(s', d, dir) {
        SendWake(s, s', d, dir, DelFd(s.conns[c].fd));
      }
    }
  }

  lemma UnregisterKeepsWakes(s: State, c: Conn, fd: Fd)
    requires ConnInv(s) && WakeInv(s) && HasOpen(s, c, fd) && OwnersLive(s.conns - {c}, s.fdMap)
    ensures ConnInv(Unregister(s, c, fd)) && WakeInv(Unregister(s, c, fd))
  {
    var s' := Unregister(s, c, fd);
    forall d, dir | d in s'.conns && s'.conns[d].Queue(dir) != [] ensures WillPoll(s', d, dir) {
      SendWake(s, s', d, dir, DelFd(fd));
    }
  }

  lemma QuitKeepsWakes(s: State)
    requires WakeInv(s)
    ensures WakeInv(Send(s, Quit))
  {
    var s' := Send(s, Quit);
    forall d, dir | d in s'.conns && s'.conns[d].Queue(dir) != [] ensures WillPoll(s', d, dir) {
      SendWake(s, s', d, dir, Quit);
    }
  }

  // ---------- Worker steps ----------

  lemma PollKeepsWakes(s: State, pipeReady: bool, ready: seq<(bool, bool)>)
    requires ListInv(s) && WakeInv(s)
    ensures ListInv(PollReturns(s, pipeReady, ready)) && WakeInv(PollReturns(s, pipeReady, ready))
  {
    var s' := PollReturns(s, pipeReady, ready);
    SameFdsList(s, s');
    forall d, dir | d in s'.conns && s'.conns[d].Queue(dir) != [] ensures WillPoll(s', d, dir) {
      SameWantsArmed(s.entries, s'.entries, s.conns[d].fd, dir);
      KeepWake(s, s', d, dir);
    }
  }

  lemma DispatchKeepsWakes(s: State)
    requires ListInv(s) && ConnInv(s) && WakeInv(s) && Enabled(s, DoDispatch)
    ensures ListInv(Dispatch(s)) && ConnInv(Dispatch(s)) && WakeInv(Dispatch(s))
  {
    var s' := Dispatch(s);
    if s.pipe == [] {
      forall d, dir | d in s'.conns && s'.conns[d].Queue(dir) != [] ensures WillPoll(s', d, dir) {
        KeepWake(s, s', d, dir);
      }
    } else {
      ApplyKeepsList(s, s.pipe[0]);
      forall d, dir | d in s'.conns && s'.conns[d].Queue(dir) != [] ensures WillPoll(s', d, dir) {
        ApplyEffect(s.entries, s.conns, s.pipe[0], s.conns[d].fd, dir);
      }
    }
  }

  /** Storing a more-flag. */
  lemma HandledKeepsWakes(s: State, i: nat, dir: Dir, haveRx: bool, more: bool)
    requires ListInv(s) && WakeInv(s) && i < |s.entries|
    ensures ListInv(Handled(s, i, dir, haveRx, more)) && WakeInv(Handled(s, i, dir, haveRx, more))
  {
    var s' := Handled(s, i, dir, haveRx, more);
    SameFdsList(s, s');
    forall d, dir' | d in s'.conns && s'.conns[d].Queue(dir') != [] ensures WillPoll(s', d, dir') {
      SameWantsArmed(s.entries, s'.entries, s.conns[d].fd, dir');
      KeepWake(s, s', d, dir');
    }
  }

  /** A stale entry is silenced and its removal requested. */
  lemma StaleKeepsWakes(s: State, i: nat)
    requires ListInv(s) && ConnInv(s) && WakeInv(s) && i < |s.entries|
    requires s.entries[i].fd in s.fdMap && s.fdMap[s.entries[i].fd] !in s.conns
    ensures ListInv(Silenced(s, i)) && ConnInv(Silenced(s, i)) && WakeInv(Silenced(s, i))
  {
    var s' := Silenced(s, i);
    SameFdsList(s, s');
    forall d, dir | d in s'.conns && s'.conns[d].Queue(dir) != [] ensures WillPoll(s', d, dir) {
      SameWantsArmed(s.entries, s'.entries, s.conns[d].fd, dir);
      SendWake(s, s', d, dir, DelFd(s.entries[i].fd));
    }
  }

  /** Polling for an empty queue is switched off. */
  lemma DelKeepsWakes(s: State, c: Conn, dir: Dir)
    requires ConnInv(s) && WakeInv(s) && c in s.conns && s.conns[c].Queue(dir) == []
    ensures ConnInv(Send(s, Del(c, dir))) && WakeInv(Send(s, Del(c, dir)))
  {
    var s' := Send(s, Del(c, dir));
    forall d, dir' | d in s'.conns && s'.conns[d].Queue(dir') != [] ensures WillPoll(s', d, dir') {
      SendWake(s, s', d, dir', Del(c, dir));
    }
  }

  /** A connection's queue gets shorter or its cancel flag changes. */
  lemma ShrinkKeepsWakes(s: State, s': State, c: Conn)
    requires ListInv(s) && ConnInv(s) && WakeInv(s) && c in s.conns
    requires c in s'.conns && s'.conns == s.conns[c := s'.conns[c]] && s'.conns[c].fd == s.conns[c].fd
    requires forall dir :: s.conns[c].Queue(dir) == [] ==> s'.conns[c].Queue(dir) == []
    requires s'.pipe == s.pipe && s'.entries == s.entries && s'.fdMap == s.fdMap
    ensures ListInv(s') && ConnInv(s') && WakeInv(s')
  {
    assert s.conns[c].Queue(Rx) == [] ==> s'.conns[c].Queue(Rx) == [];
    assert s.conns[c].Queue(Tx) == [] ==> s'.conns[c].Queue(Tx) == [];
    forall d, dir | d in s'.conns && s'.conns[d].Queue(dir) != [] ensures WillPoll(s', d, dir) {
      KeepWake(s, s', d, dir);
    }
  }

  lemma QuietKeepsWakes(s: State)
    requires s.pc.AtHandle? && s.pc.i < |s.entries| && s.entries[s.pc.i].fd in s.fdMap
    requires ListInv(s) && ConnInv(s) && WakeInv(s)
    ensures ListInv(Quiet(s)) && ConnInv(Quiet(s)) && WakeInv(Quiet(s)) && |Quiet(s).entries| == |s.entries|
  {
    var c := s.fdMap[s.entries[s.pc.i].fd];
    if s.pc.have && c !in s.conns {
      StaleKeepsWakes(s, s.pc.i);
    } else if s.pc.have && s.conns[c].Queue(s.pc.dir) == [] {
      DelKeepsWakes(s, c, s.pc.dir);
    }
  }

  lemma HandleKeepsWakes(s: State, outcome: Outcome)
    requires s.pc.AtHandle? && s.pc.i < |s.entries| && s.entries[s.pc.i].fd in s.fdMap
    requires ListInv(s) && ConnInv(s) && WakeInv(s)
    ensures ListInv(Handle(s, outcome)) && ConnInv(Handle(s, outcome)) && WakeInv(Handle(s, outcome))
  {
    var AtHandle(i, dir, _, haveRx) := s.pc;
    if Performs(s, outcome) {
      StartedKeepsWakes(s, s.fdMap[s.entries[i].fd], i, dir, haveRx, outcome.n);
    } else {
      QuietKeepsWakes(s);
      HandledKeepsWakes(Quiet(s), i, dir, haveRx, false);
    }
  }

  lemma CallbackKeepsWakes(s: State)
    requires ListInv(s) && ConnInv(s) && WakeInv(s) && Enabled(s, DoCallbackReturns)
    ensures var s' := CallbackReturns(s); ListInv(s') && ConnInv(s') && WakeInv(s')
  {
    var InCallback(i, dir, haveRx, c, more) := s.pc;
    var s1 := Popped(s, c, dir);
    PoppedKeepsWakes(s, c, dir);
    if s1.conns[c].Queue(dir) == [] {
      DelKeepsWakes(s1, c, dir);
      HandledKeepsWakes(Send(s1, Del(c, dir)), i, dir, haveRx, more);
    } else {
      HandledKeepsWakes(s1, i, dir, haveRx, more);
    }
  }

  lemma PoppedKeepsWakes(s: State, c: Conn, dir: Dir)
    requires ListInv(s) && ConnInv(s) && WakeInv(s) && c in s.conns
    ensures var s' := Popped(s, c, dir); ListInv(s') && ConnInv(s') && WakeInv(s')
  {
    var s' := Popped(s, c, dir);
    if s.conns[c].Queue(dir) != [] && !s.conns[c].cancelled {
      assert s'.conns[c] == s.conns[c].With(dir, s.conns[c].Queue(dir)[1..]);
      ShrinkKeepsWakes(s, s', c);
    }
  }

  lemma StartedKeepsWakes(s: State, c: Conn, i: nat, dir: Dir, haveRx: bool, n: int)
    requires ListInv(s) && ConnInv(s) && WakeInv(s) && c in s.conns && s.conns[c].Queue(dir) != []
    ensures var s' := Started(s, c, i, dir, haveRx, n); ListInv(s') && ConnInv(s') && WakeInv(s')
  {
    ShrinkKeepsWakes(s, Started(s, c, i, dir, haveRx, n), c);
  }

  lemma ClientKeepsWakes(s: State, a: Action)
    requires ListInv(s) && ConnInv(s) && WakeInv(s) && Enabled(s, a)
    requires ByClient(a)
    ensures ListInv(Step(s, a)) && ConnInv(Step(s, a)) && WakeInv(Step(s, a))
  {
    match a
    case DoRegister(c) => RegisterKeepsWakes(s, c);
    case DoUnregister(c, fd) => UnregisterKeepsWakes(s, c, fd);
    case DoSetFd(c, fd) => SetFdKeepsWakes(s, c, fd);
    case DoEnqueue(c, dir, op) => EnqueueKeepsWakes(s, c, dir, op);
    case DoCancel(c) => CancelKeepsWakes(s, c);
    case DoQuit => QuitKeepsWakes(s);
  }

  lemma NextEntryKeepsWakes(s: State, i: nat)
    requires ListInv(s) && ConnInv(s) && WakeInv(s)
    ensures ListInv(NextEntry(s, i)) && ConnInv(NextEntry(s, i)) && WakeInv(NextEntry(s, i))
  {
  }

  /** The poll list, the connections and the wakeups survive every step. */
  lemma StepKeepsWakes(s: State, a: Action)
    requires ListInv(s) && ConnInv(s) && WakeInv(s) && Enabled(s, a)
    ensures ListInv(Step(s, a)) && ConnInv(Step(s, a)) && WakeInv(Step(s, a))
  {
    match a
    case DoPollFails =>
    case DoPollReturns(pipeReady, ready) => PollKeepsWakes(s, pipeReady, ready);
    case DoDispatch => DispatchKeepsWakes(s);
    case DoNextEntry => NextEntryKeepsWakes(s, s.pc.i);
    case DoHandle(outcome) => HandleKeepsWakes(s, outcome);
    case DoCallbackReturns => CallbackKeepsWakes(s);
    case _ => ClientKeepsWakes(s, a);
  }

  // ---------- Who a descriptor is listed for ----------

  /** The map stays, commands are only added, and who gives a listed descriptor up asks for its removal. */
  lemma TrackKept(s: State, s': State)
    requires TrackInv(s) && s'.fdMap == s.fdMap && s.pipe <= s'.pipe
    requires forall fd :: fd in s.fdMap && Owns(s.conns, s.fdMap[fd], fd) ==>
               Owns(s'.conns, s.fdMap[fd], fd) || DelFd(fd) in s'.pipe
    ensures TrackInv(s')
  {
    forall fd | fd in s'.fdMap ensures Owns(s'.conns, s'.fdMap[fd], fd) || DelFd(fd) in s'.pipe {
      if DelFd(fd) in s.pipe {
        var i :| 0 <= i < |s.pipe| && s.pipe[i] == DelFd(fd);
        assert s'.pipe[i] == DelFd(fd);
      }
    }
  }

  lemma SetFdKeepsTrack(s: State, c: Conn, fd: Fd)
    requires ListInv(s) && TrackInv(s) && Enabled(s, DoSetFd(c, fd))
    ensures TrackInv(SetFd(s, c, fd))
  {
    TrackKept(s, SetFd(s, c, fd));
  }

  lemma CancelKeepsTrack(s: State, c: Conn)
    requires TrackInv(s)
    ensures TrackInv(Cancel(s, c))
  {
    TrackKept(s, Cancel(s, c));
  }

  lemma UnregisterKeepsTrack(s: State, c: Conn, fd: Fd)
    requires TrackInv(s) && HasOpen(s, c, fd)
    ensures TrackInv(Unregister(s, c, fd))
  {
    assert Unregister(s, c, fd).pipe[|s.pipe|] == DelFd(fd);
    TrackKept(s, Unregister(s, c, fd));
  }

  /** One command, also apart from a dispatch. */
  lemma ApplyKeepsTrack(s: State)
    requires ListInv(s) && TrackInv(s) && s.pipe != []
    ensures TrackOk(s.conns, ApplyMap(s, s.pipe[0]), s.pipe[1..])
  {
    var fdMap := ApplyMap(s, s.pipe[0]);
    forall fd | fd in fdMap ensures Owns(s.conns, fdMap[fd], fd) || DelFd(fd) in s.pipe[1..] {
      if fd in s.fdMap && DelFd(fd) in s.pipe {
        var i :| 0 <= i < |s.pipe| && s.pipe[i] == DelFd(fd);
        assert i > 0 ==> s.pipe[1..][i - 1] == DelFd(fd);
      }
    }
  }

  lemma FdsKeepTrack(s: State, s': State)
    requires TrackInv(s) && s'.fdMap == s.fdMap && s.pipe <= s'.pipe
    requires forall d :: d in s.conns ==> d in s'.conns && s'.conns[d].fd == s.conns[d].fd
    ensures TrackInv(s')
  {
    TrackKept(s, s');
  }

  lemma SendKeepsTrack(s: State, cmd: Cmd)
    requires TrackInv(s)
    ensures TrackInv(Send(s, cmd))
  {
    FdsKeepTrack(s, Send(s, cmd));
  }

  lemma HandleKeepsTrack(s: State, outcome: Outcome)
    requires TrackInv(s) && Enabled(s, DoHandle(outcome))
    ensures TrackInv(Handle(s, outcome))
  {
    var c := s.fdMap[s.entries[s.pc.i].fd];
    if Performs(s, outcome) {
      FdsKeepTrack(s, Started(s, c, s.pc.i, s.pc.dir, s.pc.haveRx, outcome.n));
    } else {
      SendKeepsTrack(s, DelFd(s.entries[s.pc.i].fd));
      SendKeepsTrack(s, Del(c, s.pc.dir));
    }
  }

  lemma CallbackKeepsTrack(s: State)
    requires TrackInv(s) && Enabled(s, DoCallbackReturns)
    ensures TrackInv(CallbackReturns(s))
  {
    var s1 := Popped(s, s.pc.conn, s.pc.dir);
    FdsKeepTrack(s, s1);
    SendKeepsTrack(s1, Del(s.pc.conn, s.pc.dir));
  }

  lemma EnqueueKeepsTrack(s: State, c: Conn, dir: Dir, op: Op)
    requires TrackInv(s)
    ensures TrackInv(Enqueue(s, c, dir, op))
  {
    FdsKeepTrack(s, Enqueue(s, c, dir, op));
  }

  /** Every listed descriptor stays with its connection until its removal is requested. */
  lemma StepKeepsTrack(s: State, a: Action)
    requires ListInv(s) && TrackInv(s) && Enabled(s, a)
    ensures TrackInv(Step(s, a))
  {
    match a
    case DoRegister(c) => FdsKeepTrack(s, Register(s, c));
    case DoSetFd(c, fd) => SetFdKeepsTrack(s, c, fd);
    case DoEnqueue(c, dir, op) => EnqueueKeepsTrack(s, c, dir, op);
    case DoCancel(c) => CancelKeepsTrack(s, c);
    case DoUnregister(c, fd) => UnregisterKeepsTrack(s, c, fd);
    case DoQuit => FdsKeepTrack(s, Send(s, Quit));
    case DoPollFails =>
    case DoPollReturns(_, _) =>
    case DoDispatch =>
      if s.pipe != [] {
        ApplyKeepsTrack(s);
      }
    case DoNextEntry =>
    case DoHandle(outcome) => HandleKeepsTrack(s, outcome);
    case DoCallbackReturns => CallbackKeepsTrack(s);
  }

  // ---------- The scan and the poll timeout ----------

  lemma MoreBeforeNext(entries: seq<Entry>, i: nat)
    requires i < |entries|
    ensures MoreBefore(entries, i + 1) <==> MoreBefore(entries, i) || AnyMore(entries[i])
  {
  }

  lemma MoreBeforeUpdate(entries: seq<Entry>, i: nat, e: Entry)
    requires i < |entries|
    ensures MoreBefore(entries[i := e], i) <==> MoreBefore(entries, i)
  {
    var b := entries[i := e];
    assert forall j :: 0 <= j < i ==> b[j] == entries[j];
  }

  /** The running result of the pass: entries before i, and the transmit flag of i once it is set. */
  ghost predicate ScanAt(s: State, i: nat, dir: Dir) {
    i < |s.entries| && (s.zero <==> MoreBefore(s.entries, i) || (dir == Rx && s.entries[i].moreOut))
  }

  lemma HandledScan(s: State, i: nat, dir: Dir, haveRx: bool, more: bool)
    requires ScanAt(s, i, dir)
    ensures PcInv(Handled(s, i, dir, haveRx, more))
  {
    MoreBeforeUpdate(s.entries, i, s.entries[i].SetMore(dir, more));
    MoreBeforeNext(Handled(s, i, dir, haveRx, more).entries, i);
  }

  lemma HandleScan(s: State, outcome: Outcome)
    requires PcInv(s) && Enabled(s, DoHandle(outcome))
    ensures PcInv(Handle(s, outcome))
  {
    var AtHandle(i, dir, _, haveRx) := s.pc;
    if !Performs(s, outcome) {
      MoreBeforeUpdate(s.entries, i, s.entries[i].(pollIn := false, pollOut := false));
      HandledScan(Quiet(s), i, dir, haveRx, false);
    }
  }

  lemma CallbackScan(s: State)
    requires PcInv(s) && Enabled(s, DoCallbackReturns)
    ensures PcInv(CallbackReturns(s))
  {
    var InCallback(i, dir, haveRx, c, more) := s.pc;
    var s1 := Popped(s, c, dir);
    HandledScan(if s1.conns[c].Queue(dir) == [] then Send(s1, Del(c, dir)) else s1, i, dir, haveRx, more);
  }

  lemma PollScan(s: State, pipeReady: bool, ready: seq<(bool, bool)>)
    ensures PcInv(PollReturns(s, pipeReady, ready))
  {
  }

  lemma NextScan(s: State, i: nat)
    requires i <= |s.entries| && (s.zero <==> MoreBefore(s.entries, i))
    ensures PcInv(NextEntry(s, i))
  {
  }

  /** The scan's bookkeeping survives every step. */
  lemma StepKeepsScan(s: State, a: Action)
    requires PcInv(s) && Enabled(s, a)
    ensures PcInv(Step(s, a))
  {
    match a
    case DoPollReturns(pipeReady, ready) => PollScan(s, pipeReady, ready);
    case DoNextEntry => NextScan(s, s.pc.i);
    case DoHandle(outcome) => HandleScan(s, outcome);
    case DoCallbackReturns => CallbackScan(s);
    case DoDispatch => DispatchScan(s);
    case _ => OtherScan(s, a);
  }

  lemma DispatchScan(s: State)
    requires PcInv(s) && s.pc == AtDispatch
    ensures PcInv(Dispatch(s))
  {
    assert !MoreBefore(Dispatch(s).entries, 0);
  }

  /** Clients do not touch the scan, nor take away the connection whose callback runs. */
  lemma OtherScan(s: State, a: Action)
    requires PcInv(s) && Enabled(s, a) && (ByClient(a) || a.DoPollFails?)
    ensures PcInv(Step(s, a))
  {
    match a
    case DoRegister(c) => SameScan(s, Register(s, c));
    case DoUnregister(c, fd) => SameScan(s, Unregister(s, c, fd));
    case DoSetFd(c, fd) => SameScan(s, SetFd(s, c, fd));
    case DoEnqueue(c, dir, op) => SameScan(s, Enqueue(s, c, dir, op));
    case DoCancel(c) => SameScan(s, Cancel(s, c));
    case DoQuit => SameScan(s, Send(s, Quit));
    case DoPollFails =>
  }

  lemma SameScan(s: State, s': State)
    requires PcInv(s) && s'.pc == s.pc && s'.entries == s.entries && s'.zero == s.zero && s'.blocking == s.blocking
    requires s.pc.InCallback? ==> s.pc.conn in s'.conns
    ensures PcInv(s')
  {
  }

  // ---------- What the worker remembers ----------

  /** What the worker took from the entry when it came to it still holds, and a callback's connection
      is the one the entry is listed for; a worker that is ending does not poll again. */
  predicate PcTrue(s: State) {
    match s.pc
    case AtPoll => !s.quit
    case AtDispatch => !s.quit
    case AtEntry(i) => i <= |s.entries|
    case AtHandle(i, dir, have, haveRx) =>
      i < |s.entries| && have == s.entries[i].Ready(dir) && haveRx == s.entries[i].Ready(Rx)
    case InCallback(i, _, haveRx, c, _) =>
      && i < |s.entries| && haveRx == s.entries[i].Ready(Rx)
      && c in s.conns && s.entries[i].fd in s.fdMap && s.fdMap[s.entries[i].fd] == c
    case Done => true
  }

  lemma SamePc(s: State, s': State)
    requires PcTrue(s) && s'.pc == s.pc && s'.entries == s.entries && s'.fdMap == s.fdMap && s'.quit == s.quit
    requires s.pc.InCallback? ==> s.pc.conn in s'.conns
    ensures PcTrue(s')
  {
  }

  lemma ClientKeepsPc(s: State, a: Action)
    requires PcTrue(s) && Enabled(s, a) && ByClient(a)
    ensures PcTrue(Step(s, a))
  {
    match a
    case DoRegister(c) => SamePc(s, Register(s, c));
    case DoUnregister(c, fd) => SamePc(s, Unregister(s, c, fd));
    case DoSetFd(c, fd) => SamePc(s, SetFd(s, c, fd));
    case DoEnqueue(c, dir, op) => SamePc(s, Enqueue(s, c, dir, op));
    case DoCancel(c) => SamePc(s, Cancel(s, c));
    case DoQuit => SamePc(s, Send(s, Quit));
  }

  lemma HandledKeepsPc(s: State, i: nat, dir: Dir, haveRx: bool, more: bool)
    requires i < |s.entries| && haveRx == s.entries[i].Ready(Rx)
    ensures PcTrue(Handled(s, i, dir, haveRx, more))
  {
  }

  lemma HandleKeepsPc(s: State, outcome: Outcome)
    requires PcTrue(s) && Enabled(s, DoHandle(outcome))
    ensures PcTrue(Handle(s, outcome))
  {
    if !Performs(s, outcome) {
      HandledKeepsPc(Quiet(s), s.pc.i, s.pc.dir, s.pc.haveRx, false);
    }
  }

  lemma CallbackKeepsPc(s: State)
    requires PcTrue(s) && Enabled(s, DoCallbackReturns)
    ensures PcTrue(CallbackReturns(s))
  {
    var InCallback(i, dir, haveRx, c, more) := s.pc;
    var s1 := Popped(s, c, dir);
    HandledKeepsPc(if s1.conns[c].Queue(dir) == [] then Send(s1, Del(c, dir)) else s1, i, dir, haveRx, more);
  }

  lemma StepKeepsPc(s: State, a: Action)
    requires PcTrue(s) && Enabled(s, a)
    ensures PcTrue(Step(s, a))
  {
    match a
    case DoPollFails =>
    case DoPollReturns(_, _) =>
    case DoDispatch =>
    case DoNextEntry =>
    case DoHandle(outcome) => HandleKeepsPc(s, outcome);
    case DoCallbackReturns => CallbackKeepsPc(s);
    case _ => ClientKeepsPc(s, a);
  }
}
