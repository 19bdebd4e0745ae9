/** Operations are conserved and stay in order, over every interleaving; and the theorems about all
    reachable states. */
module PollHistory {
  import opened PollProtocol
  import opened PollInvariants
  import opened PollSteps

  // ---------- Completed positions ----------

  lemma CompletedSnoc(fates: seq<Fate>, f: Fate)
    ensures CompletedAt(fates + [f]) == CompletedAt(fates) + (if f == Completed then [|fates|] else [])
  {
    assert (fates + [f])[..|fates|] == fates;
  }

  lemma {:induction false} CompletedDropped(fates: seq<Fate>, n: nat)
    ensures CompletedAt(fates + Repeat(Dropped, n)) == CompletedAt(fates)
  {
    if n == 0 {
      assert fates + Repeat(Dropped, 0) == fates;
    } else {
      CompletedDropped(fates, n - 1);
      CompletedSnoc(fates + Repeat(Dropped, n - 1), Dropped);
      assert fates + Repeat(Dropped, n) == fates + Repeat(Dropped, n - 1) + [Dropped];
    }
  }

  /** The positions ascend, so no callback is called twice or out of order. */
  lemma {:induction false} CompletedAscends(fates: seq<Fate>)
    ensures var done := CompletedAt(fates);
      (forall i :: 0 <= i < |done| ==> done[i] < |fates|)
      && (forall i, j :: 0 <= i < j < |done| ==> done[i] < done[j])
      && (forall k :: k in done <==> 0 <= k < |fates| && fates[k] == Completed)
  {
    if fates != [] {
      CompletedAscends(fates[..|fates| - 1]);
    }
  }

  // ---------- One connection and direction ----------

  lemma FitsEnqueue(h: History, q: seq<Op>, inFlight: bool, op: Op)
    requires Fits(h, q, inFlight)
    ensures Fits(h.(accepted := h.accepted + [op]), q + [op], inFlight)
  {
    assert (h.accepted + [op])[|h.fates|..] == h.accepted[|h.fates|..] + [op];
  }

  /** A callback starts on the front operation. */
  lemma FitsStart(h: History, q: seq<Op>)
    requires Fits(h, q, false) && q != []
    ensures Fits(h.(called := h.called + [|h.fates|]), q, true)
  {
  }

  /** The operation in flight leaves the queue. */
  lemma FitsPop(h: History, q: seq<Op>)
    requires Fits(h, q, true)
    ensures Fits(h.(fates := h.fates + [Completed]), q[1..], false)
  {
    CompletedSnoc(h.fates, Completed);
  }

  /** Everything queued is dropped, except that an operation in flight counts as completed. */
  lemma FitsDrop(h: History, q: seq<Op>, inFlight: bool)
    requires Fits(h, q, inFlight)
    ensures var fates := h.fates + (if inFlight then [Completed] + Repeat(Dropped, |q| - 1) else Repeat(Dropped, |q|));
      Fits(h.(fates := fates), [], false)
  {
    if inFlight {
      CompletedSnoc(h.fates, Completed);
      CompletedDropped(h.fates + [Completed], |q| - 1);
      assert h.fates + ([Completed] + Repeat(Dropped, |q| - 1)) == h.fates + [Completed] + Repeat(Dropped, |q| - 1);
    } else {
      CompletedDropped(h.fates, |q|);
    }
  }

  // ---------- Steps ----------

  /** Nothing a history depends on changed for this connection and direction. */
  ghost predicate SameHist(s: State, s': State, c: Conn, dir: Dir) {
    Hist(s', c, dir) == Hist(s, c, dir) && QueueOf(s', c, dir) == QueueOf(s, c, dir)
    && InFlight(s', c, dir) == InFlight(s, c, dir)
  }

  lemma KeepHist(s: State, s': State)
    requires HistInv(s) && forall c, dir :: SameHist(s, s', c, dir)
    ensures HistInv(s')
  {
    forall c, dir ensures HistOk(s', c, dir) {
      assert SameHist(s, s', c, dir) && HistOk(s, c, dir);
    }
  }

  lemma KeepOthers(s: State, s': State, c: Conn, dir: Dir)
    requires HistInv(s) && HistOk(s', c, dir)
    requires forall d, dir' :: (d, dir') != (c, dir) ==> SameHist(s, s', d, dir')
    ensures HistInv(s')
  {
    forall d, dir' ensures HistOk(s', d, dir') {
      assert HistOk(s, d, dir');
      if (d, dir') != (c, dir) {
        assert SameHist(s, s', d, dir');
      }
    }
  }

  lemma RegisterHist(s: State, c: Conn)
    requires HistInv(s) && (s.pc.InCallback? ==> s.pc.conn in s.conns)
    ensures HistInv(Register(s, c))
  {
    var s' := Register(s, c);
    if c !in s.conns {
      forall d, dir ensures HistOk(s', d, dir) {
        assert HistOk(s, d, dir);
        assert QueueOf(s', d, dir) == QueueOf(s, d, dir);
      }
    }
  }

  lemma EnqueueOthers(s: State, c: Conn, dir: Dir, op: Op, d: Conn, dir': Dir)
    requires c in s.conns && (d, dir') != (c, dir)
    ensures SameHist(s, Enqueue(s, c, dir, op), d, dir')
  {
    if d == c {
      assert dir' != dir && s.conns[c].With(dir, s.conns[c].Queue(dir) + [op]).Queue(dir') == s.conns[c].Queue(dir');
    }
  }

  lemma EnqueueHist(s: State, c: Conn, dir: Dir, op: Op)
    requires HistInv(s)
    ensures HistInv(Enqueue(s, c, dir, op))
  {
    var s' := Enqueue(s, c, dir, op);
    if c in s.conns {
      forall d, dir' ensures HistOk(s', d, dir') {
        assert HistOk(s, d, dir');
        if (d, dir') == (c, dir) {
          FitsEnqueue(Hist(s, c, dir), QueueOf(s, c, dir), InFlight(s, c, dir), op);
        } else {
          EnqueueOthers(s, c, dir, op, d, dir');
        }
      }
    }
  }

  /** Steps that touch neither queues nor histories, outside callbacks. */
  lemma QuietHist(s: State, s': State)
    requires HistInv(s) && s'.conns == s.conns && s'.hist == s.hist
    requires s'.pc == s.pc || (!s.pc.InCallback? && !s'.pc.InCallback?)
    ensures HistInv(s')
  {
    KeepHist(s, s');
  }

  lemma DropHist(s: State, s': State, c: Conn, dir: Dir)
    requires HistOk(s, c, dir) && Hist(s', c, dir) == DropAll(s, c, dir)
    requires QueueOf(s', c, dir) == [] && !InFlight(s', c, dir)
    ensures HistOk(s', c, dir)
  {
    var h, q := Hist(s, c, dir), QueueOf(s, c, dir);
    FitsDrop(h, q, InFlight(s, c, dir));
    assert h.fates + ([Completed] + Repeat(Dropped, 0)) == h.fates + [Completed] + Repeat(Dropped, 0);
    if InFlight(s, c, dir) {
      var n := |q| - 1;
      assert h.fates + ([Completed] + Repeat(Dropped, n)) == h.fates + [Completed] + Repeat(Dropped, n);
    }
  }

  lemma DropBoth(s: State, s': State, c: Conn)
    requires HistInv(s)
    requires forall dir :: Hist(s', c, dir) == DropAll(s, c, dir) && QueueOf(s', c, dir) == [] && !InFlight(s', c, dir)
    requires forall d, dir :: d != c ==> SameHist(s, s', d, dir)
    ensures HistInv(s')
  {
    forall d, dir ensures HistOk(s', d, dir) {
      assert HistOk(s, d, dir);
      if d == c {
        DropHist(s, s', c, dir);
      } else {
        assert SameHist(s, s', d, dir);
      }
    }
  }

  lemma CancelHist(s: State, c: Conn)
    requires HistInv(s)
    ensures HistInv(Cancel(s, c))
  {
    if c in s.conns {
      DropBoth(s, Cancel(s, c), c);
    }
  }

  lemma UnregisterHist(s: State, c: Conn, fd: Fd)
    requires HistInv(s)
    ensures HistInv(Unregister(s, c, fd))
  {
    if c in s.conns {
      DropBoth(s, Unregister(s, c, fd), c);
    } else {
      QuietHist(s, Unregister(s, c, fd));
    }
  }

  lemma StartedHist(s: State, c: Conn, i: nat, dir: Dir, haveRx: bool, n: int)
    requires HistInv(s) && c in s.conns && s.conns[c].Queue(dir) != [] && !s.pc.InCallback?
    ensures HistInv(Started(s, c, i, dir, haveRx, n))
  {
    var s' := Started(s, c, i, dir, haveRx, n);
    assert HistOk(s, c, dir);
    FitsStart(Hist(s, c, dir), QueueOf(s, c, dir));
    KeepOthers(s, s', c, dir);
  }

  /** Leaving the callback, with the operation popped if it is still there. */
  lemma PoppedHist(s: State, s': State, c: Conn, dir: Dir)
    requires HistInv(s) && c in s.conns && s.pc.InCallback? && s.pc.conn == c && s.pc.dir == dir
    requires s'.conns == Popped(s, c, dir).conns && s'.hist == Popped(s, c, dir).hist && !s'.pc.InCallback?
    ensures HistInv(s')
  {
    assert HistOk(s, c, dir);
    if !s.conns[c].cancelled {
      FitsPop(Hist(s, c, dir), QueueOf(s, c, dir));
    }
    KeepOthers(s, s', c, dir);
  }

  lemma QuietSame(s: State)
    requires s.pc.AtHandle? && s.pc.i < |s.entries| && s.entries[s.pc.i].fd in s.fdMap
    ensures Quiet(s).conns == s.conns && Quiet(s).hist == s.hist
  {
  }

  lemma HandleHist(s: State, outcome: Outcome)
    requires HistInv(s) && s.pc.AtHandle? && s.pc.i < |s.entries| && s.entries[s.pc.i].fd in s.fdMap
    ensures HistInv(Handle(s, outcome))
  {
    var AtHandle(i, dir, _, haveRx) := s.pc;
    if Performs(s, outcome) {
      StartedHist(s, s.fdMap[s.entries[i].fd], i, dir, haveRx, outcome.n);
    } else {
      QuietSame(s);
      QuietHist(s, Handled(Quiet(s), i, dir, haveRx, false));
    }
  }

  lemma SetFdHist(s: State, c: Conn, fd: Fd)
    requires HistInv(s)
    ensures HistInv(SetFd(s, c, fd))
  {
    KeepHist(s, SetFd(s, c, fd));
  }

  lemma ClientKeepsHist(s: State, a: Action)
    requires HistInv(s) && PcInv(s) && Enabled(s, a)
    requires ByClient(a)
    ensures HistInv(Step(s, a))
  {
    match a
    case DoRegister(c) => RegisterHist(s, c);
    case DoUnregister(c, fd) => UnregisterHist(s, c, fd);
    case DoSetFd(c, fd) => SetFdHist(s, c, fd);
    case DoEnqueue(c, dir, op) => EnqueueHist(s, c, dir, op);
    case DoCancel(c) => CancelHist(s, c);
    case DoQuit => QuietHist(s, Send(s, Quit));
  }

  /** No operation is lost, repeated or overtaken by any step. */
  lemma StepKeepsHist(s: State, a: Action)
    requires HistInv(s) && PcInv(s) && Enabled(s, a)
    ensures HistInv(Step(s, a))
  {
    match a
    case DoHandle(outcome) => HandleHist(s, outcome);
    case DoCallbackReturns => PoppedHist(s, CallbackReturns(s), s.pc.conn, s.pc.dir);
    case DoPollFails =>
    case DoPollReturns(pipeReady, ready) => QuietHist(s, PollReturns(s, pipeReady, ready));
    case DoDispatch => QuietHist(s, Dispatch(s));
    case DoNextEntry => QuietHist(s, NextEntry(s, s.pc.i));
    case _ => ClientKeepsHist(s, a);
  }

  // ---------- Every reachable state ----------

  lemma InitInv()
    ensures Inv(Init())
  {
  }

  lemma {:induction false} RunKeepsInv(s: State, actions: seq<Action>, s': State)
    requires Inv(s) && Reaches(s, actions, s')
    ensures Inv(s')
    decreases |actions|
  {
    if actions != [] {
      StepKeepsWakes(s, actions[0]);
      StepKeepsTrack(s, actions[0]);
      StepKeepsScan(s, actions[0]);
      StepKeepsHist(s, actions[0]);
      RunKeepsInv(Step(s, actions[0]), actions[1..], s');
    }
  }

  /** The invariants hold in every reachable state. */
  lemma ReachableInv(s: State)
    requires Reachable(s)
    ensures Inv(s)
  {
    var actions :| Reaches(Init(), actions, s);
    InitInv();
    RunKeepsInv(Init(), actions, s);
  }

  lemma {:induction false} RunKeepsPc(s: State, actions: seq<Action>, s': State)
    requires PcTrue(s) && Reaches(s, actions, s')
    ensures PcTrue(s')
    decreases |actions|
  {
    if actions != [] {
      StepKeepsPc(s, actions[0]);
      RunKeepsPc(Step(s, actions[0]), actions[1..], s');
    }
  }

  lemma ReachablePc(s: State)
    requires Reachable(s)
    ensures PcTrue(s)
  {
    var actions :| Reaches(Init(), actions, s);
    RunKeepsPc(Init(), actions, s);
  }

  /** Applying the pending commands keeps the list and the map in step, and in the end every listed
      descriptor is open at the connection it is listed for. */
  lemma {:induction false} DrainKeeps(s: State)
    requires ListInv(s) && TrackInv(s)
    ensures var d := Drained(s);
      ListInv(d) && TrackInv(d) && d.pipe == [] && d.conns == s.conns && d.entries == Replay(s.entries, s.conns, s.pipe)
    decreases |s.pipe|
  {
    if s.pipe != [] {
      var next := s.(pipe := s.pipe[1..], entries := Apply(s.entries, s.conns, s.pipe[0]),
                     fdMap := ApplyMap(s, s.pipe[0]));
      ApplyKeepsList(s, s.pipe[0]);
      ApplyKeepsTrack(s);
      DrainKeeps(next);
    }
  }

  /** No lost wakeup: whenever something is queued for a connection, applying the commands still in
      the pipe to the poll list leaves its descriptor listed, polled in that direction, and listed for
      that very connection. */
  lemma NoLostWakeup(s: State, c: Conn, dir: Dir)
    requires Reachable(s) && c in s.conns && s.conns[c].Queue(dir) != []
    ensures var d, fd := Drained(s), s.conns[c].fd;
      && fd in d.fdMap && d.fdMap[fd] == c
      && exists k :: 0 <= k < |d.entries| && d.entries[k].fd == fd
           && (if dir == Rx then d.entries[k].pollIn else d.entries[k].pollOut)
  {
    ReachableInv(s);
    DrainKeeps(s);
    assert WillPoll(s, c, dir);
    ReplayEffects(s.entries, s.conns, s.pipe, s.conns[c].fd, dir);
    var d, k := Drained(s), IndexOf(Drained(s).entries, s.conns[c].fd);
    assert k < |d.entries| && d.entries[k].fd == s.conns[c].fd && d.entries[k].Wants(dir);
  }

  /** At every call to poll the timeout is zero exactly if some entry has a more-flag set. */
  lemma NeverBlocksOnMore(s: State)
    requires Reachable(s) && s.pc == AtPoll
    ensures s.blocking <==> forall i :: 0 <= i < |s.entries| ==> !s.entries[i].moreIn && !s.entries[i].moreOut
  {
    ReachableInv(s);
    assert MoreBefore(s.entries, |s.entries|) <==> exists i :: 0 <= i < |s.entries| && AnyMore(s.entries[i]);
  }

  /** No descriptor is listed twice, and the map's keys are exactly the listed descriptors. */
  lemma ListMatchesMap(s: State)
    requires Reachable(s)
    ensures forall i, j :: 0 <= i < j < |s.entries| ==> s.entries[i].fd != s.entries[j].fd
    ensures forall fd :: fd in s.fdMap <==> exists i :: 0 <= i < |s.entries| && s.entries[i].fd == fd
  {
    ReachableInv(s);
    forall fd: Fd ensures fd in s.fdMap <==> exists i :: 0 <= i < |s.entries| && s.entries[i].fd == fd {
      ListedIff(s.entries, fd);
    }
  }

  /** Conservation and order: the positions whose callbacks were called ascend; what was accepted is
      what has a fate, in order, followed by what is queued; and a position was called exactly if its
      fate is completion or its callback is running now. */
  lemma OperationsConserved(s: State, c: Conn, dir: Dir)
    requires Reachable(s)
    ensures var h := Hist(s, c, dir);
      && |h.fates| <= |h.accepted| && QueueOf(s, c, dir) == h.accepted[|h.fates|..]
      && (forall i, j :: 0 <= i < j < |h.called| ==> h.called[i] < h.called[j])
      && (forall k :: k in h.called <==>
            (0 <= k < |h.fates| && h.fates[k] == Completed) || (k == |h.fates| && InFlight(s, c, dir)))
  {
    ReachableInv(s);
    assert HistOk(s, c, dir);
    CompletedAscends(Hist(s, c, dir).fates);
  }

  /** The worker never waits for something that cannot happen: its next step is possible. */
  lemma WorkerCanStep(s: State, outcome: Outcome)
    requires Reachable(s)
    ensures s.pc.AtHandle? ==> Enabled(s, DoHandle(outcome))
    ensures s.pc.InCallback? ==> Enabled(s, DoCallbackReturns)
  {
    ReachableInv(s);
    if s.pc.AtHandle? {
      IndexIs(s.entries, s.pc.i);
    }
  }

  // ---------- Nothing is polled for too long ----------

  lemma {:induction false} ReplaySnoc(entries: seq<Entry>, conns: map<Conn, Info>, pipe: seq<Cmd>, cmd: Cmd)
    requires Distinct(entries)
    ensures Replay(entries, conns, pipe + [cmd]) == Apply(Replay(entries, conns, pipe), conns, cmd)
    ensures Distinct(Replay(entries, conns, pipe))
    decreases |pipe|
  {
    if pipe == [] {
      assert [] + [cmd] == [cmd] && [cmd][1..] == [];
    } else {
      assert (pipe + [cmd])[1..] == pipe[1..] + [cmd];
      ApplyEffect(entries, conns, pipe[0], 0, Rx);
      ReplaySnoc(Apply(entries, conns, pipe[0]), conns, pipe[1..], cmd);
    }
  }

  lemma RemovedLast(entries: seq<Entry>, conns: map<Conn, Info>, pipe: seq<Cmd>, fd: Fd)
    requires Distinct(entries)
    ensures !Listed(Replay(entries, conns, pipe + [DelFd(fd)]), fd)
  {
    ReplaySnoc(entries, conns, pipe, DelFd(fd));
    RemoveEntryKeeps(Replay(entries, conns, pipe), fd);
  }

  /** After a cancel or an unregistration the pending commands take the descriptor off the list. */
  lemma CancelTakesOff(s: State, c: Conn)
    requires Reachable(s) && c in s.conns
    ensures var s' := Cancel(s, c); !Listed(Replay(s'.entries, s'.conns, s'.pipe), s.conns[c].fd)
    ensures var s' := Unregister(s, c, s.conns[c].fd); !Listed(Replay(s'.entries, s'.conns, s'.pipe), s.conns[c].fd)
  {
    ReachableInv(s);
    RemovedLast(s.entries, Cancel(s, c).conns, s.pipe, s.conns[c].fd);
    RemovedLast(s.entries, Unregister(s, c, s.conns[c].fd).conns, s.pipe, s.conns[c].fd);
  }

  lemma DeletedLast(entries: seq<Entry>, conns: map<Conn, Info>, pipe: seq<Cmd>, c: Conn, dir: Dir)
    requires Distinct(entries) && c in conns && conns[c].fd != CLOSED
    ensures !Armed(Replay(entries, conns, pipe + [Del(c, dir)]), conns[c].fd, dir)
  {
    ReplaySnoc(entries, conns, pipe, Del(c, dir));
    DelEffect(Replay(entries, conns, pipe), conns, c, dir, conns[c].fd, dir);
  }

  /** When the worker handles a direction with nothing queued, the pending commands end its polling. */
  lemma IdleIsSwitchedOff(s: State, outcome: Outcome, c: Conn)
    requires Reachable(s) && Enabled(s, DoHandle(outcome)) && s.pc.have && s.fdMap[s.entries[s.pc.i].fd] == c
    requires c in s.conns && s.conns[c].fd != CLOSED && s.conns[c].Queue(s.pc.dir) == []
    ensures var s' := Handle(s, outcome); !Armed(Replay(s'.entries, s'.conns, s'.pipe), s.conns[c].fd, s.pc.dir)
  {
    ReachableInv(s);
    var s' := Handle(s, outcome);
    SameFdsDistinct(s.entries, s'.entries);
    DeletedLast(s'.entries, s.conns, s.pipe, c, s.pc.dir);
  }

  /** The parts of the state that the commands depend on, after a callback that leaves nothing. */
  lemma CallbackParts(s: State)
    requires Enabled(s, DoCallbackReturns) && QueueOf(CallbackReturns(s), s.pc.conn, s.pc.dir) == []
    ensures var s', c := CallbackReturns(s), s.pc.conn;
      && s'.pipe == s.pipe + [Del(c, s.pc.dir)] && SameFds(s.entries, s'.entries)
      && c in s'.conns && s'.conns[c].fd == s.conns[c].fd
  {
    var s1 := Popped(s, s.pc.conn, s.pc.dir);
    assert CallbackReturns(s).conns == s1.conns && s1.pipe == s.pipe && s1.entries == s.entries;
  }

  /** And so they do when a callback returns with nothing left. */
  lemma LastIsSwitchedOff(s: State)
    requires Reachable(s) && Enabled(s, DoCallbackReturns) && s.conns[s.pc.conn].fd != CLOSED
    requires QueueOf(CallbackReturns(s), s.pc.conn, s.pc.dir) == []
    ensures var s' := CallbackReturns(s);
      !Armed(Replay(s'.entries, s'.conns, s'.pipe), s.conns[s.pc.conn].fd, s.pc.dir)
  {
    ReachableInv(s);
    CallbackParts(s);
    var s' := CallbackReturns(s);
    SameFdsDistinct(s.entries, s'.entries);
    DeletedLast(s'.entries, s'.conns, s.pipe, s.pc.conn, s.pc.dir);
  }

  lemma SameFdsDistinct(a: seq<Entry>, b: seq<Entry>)
    requires Distinct(a) && SameFds(a, b)
    ensures Distinct(b)
  {
  }
}
