/** What the worker does for the operations that are queued: every pass handles every entry in both
    directions, what is ready is performed and completed, and what is gone or idle is given up. */
module PollService {
  import opened PollProtocol
  import opened PollInvariants
  import opened PollSteps
  import opened PollHistory

  // ---------- A pass ----------

  predicate InPass(pc: Pc) {
    pc.AtEntry? || pc.AtHandle? || pc.InCallback?
  }

  /** Direction dir of entry k has not been handled yet in this pass. */
  predicate ToCome(pc: Pc, k: nat, dir: Dir) {
    match pc
    case AtEntry(i) => i <= k
    case AtHandle(i, d, _, _) => i < k || (i == k && (d == Tx || dir == Rx))
    case InCallback(i, d, _, _, _) => i < k || (i == k && d == Tx && dir == Rx)
    case _ => false
  }

  /** Whether the entry has data or room, as far as poll or the last operation told. */
  predicate Has(e: Entry, dir: Dir) {
    if dir == Rx then e.moreIn || e.readyIn else e.moreOut || e.readyOut
  }

  /** The entry is there still, and still says the same of a direction. */
  ghost predicate Unhandled(s: State, m: State, k: nat, dir: Dir) {
    && k < |s.entries| == |m.entries| && m.entries[k].fd == s.entries[k].fd
    && Has(m.entries[k], dir) == Has(s.entries[k], dir)
  }

  lemma HandledLeaves(s: State, i: nat, d: Dir, haveRx: bool, more: bool, k: nat, dir: Dir)
    requires i < |s.entries| && k < |s.entries| && (k, dir) != (i, d)
    ensures Unhandled(s, Handled(s, i, d, haveRx, more), k, dir)
  {
  }

  lemma HandleLeaves(s: State, outcome: Outcome, k: nat, dir: Dir)
    requires Enabled(s, DoHandle(outcome)) && k < |s.entries| && (k, dir) != (s.pc.i, s.pc.dir)
    ensures Unhandled(s, Handle(s, outcome), k, dir)
  {
    if !Performs(s, outcome) {
      var q := Quiet(s);
      assert Unhandled(s, q, k, dir);
      HandledLeaves(q, s.pc.i, s.pc.dir, s.pc.haveRx, false, k, dir);
    }
  }

  lemma CallbackLeaves(s: State, k: nat, dir: Dir)
    requires Enabled(s, DoCallbackReturns) && k < |s.entries| && (k, dir) != (s.pc.i, s.pc.dir)
    ensures Unhandled(s, CallbackReturns(s), k, dir)
  {
    var InCallback(i, d, haveRx, c, more) := s.pc;
    var s1 := Popped(s, c, d);
    assert s1.entries == s.entries;
    HandledLeaves(if s1.conns[c].Queue(d) == [] then Send(s1, Del(c, d)) else s1, i, d, haveRx, more, k, dir);
  }

  lemma ClientLeaves(s: State, a: Action)
    requires Enabled(s, a) && ByClient(a)
    ensures Step(s, a).entries == s.entries && Step(s, a).pc == s.pc
  {
  }

  /** The worker's turn comes, or nothing about it changes. */
  lemma StepLeaves(s: State, a: Action, k: nat, dir: Dir)
    requires Enabled(s, a) && k < |s.entries| && ToCome(s.pc, k, dir)
    requires !(s.pc.AtHandle? && s.pc.i == k && s.pc.dir == dir && a.DoHandle?)
    ensures ToCome(Step(s, a).pc, k, dir) && Unhandled(s, Step(s, a), k, dir)
  {
    if ByClient(a) {
      ClientLeaves(s, a);
    } else if a.DoHandle? {
      HandleLeaves(s, a.outcome, k, dir);
    } else if a.DoCallbackReturns? {
      CallbackLeaves(s, k, dir);
    } else {
      assert a.DoNextEntry?;
    }
  }

  lemma UnhandledTwice(s: State, m: State, r: State, k: nat, dir: Dir)
    requires Unhandled(s, m, k, dir) && Unhandled(m, r, k, dir)
    ensures Unhandled(s, r, k, dir)
  {
  }

  lemma ReachesPrefix(s: State, actions: seq<Action>, t: nat, m: State)
    requires 0 < t <= |actions| && Enabled(s, actions[0]) && Reaches(Step(s, actions[0]), actions[1..][..t - 1], m)
    ensures Reaches(s, actions[..t], m)
  {
    assert actions[..t][1..] == actions[1..][..t - 1];
  }

  lemma {:induction false} TurnComes(s: State, actions: seq<Action>, s': State, k: nat, dir: Dir)
    returns (t: nat, m: State)
    requires k < |s.entries| && ToCome(s.pc, k, dir) && Reaches(s, actions, s') && !ToCome(s'.pc, k, dir)
    ensures t < |actions| && Reaches(s, actions[..t], m) && Enabled(m, actions[t]) && actions[t].DoHandle?
    ensures m.pc.AtHandle? && m.pc.i == k && m.pc.dir == dir && Unhandled(s, m, k, dir)
    decreases |actions|
  {
    if s.pc.AtHandle? && s.pc.i == k && s.pc.dir == dir && actions[0].DoHandle? {
      t, m := 0, s;
      assert actions[..0] == [];
    } else {
      StepLeaves(s, actions[0], k, dir);
      var s1 := Step(s, actions[0]);
      t, m := TurnComes(s1, actions[1..], s', k, dir);
      t := t + 1;
      ReachesPrefix(s, actions, t, m);
      UnhandledTwice(s, s1, m, k, dir);
    }
  }

  /** No entry is skipped: whatever else happens, before a pass is over the worker has handled each entry
      in each direction, and it acted on what poll reported and on the more-flag. */
  lemma EveryEntryHandled(s: State, actions: seq<Action>, s': State, k: nat, dir: Dir) returns (t: nat, m: State)
    requires Reachable(s) && s.pc == AtEntry(0) && k < |s.entries|
    requires Reaches(s, actions, s') && (s'.pc == AtPoll || s'.pc == Done)
    ensures t < |actions| && Reaches(s, actions[..t], m) && actions[t].DoHandle?
    ensures m.pc.AtHandle? && m.pc.i == k && m.pc.dir == dir && k < |m.entries| && m.entries[k].fd == s.entries[k].fd
    ensures var e := s.entries[k];
      m.pc.have <==> if dir == Rx then e.moreIn || e.readyIn else e.moreOut || e.readyOut
  {
    t, m := TurnComes(s, actions, s', k, dir);
    ReachablePc(s);
    RunKeepsPc(s, actions[..t], m);
  }

  /** What poll tells the pass: of each entry what it is polled for and ready for, and the more-flags
      that were there. */
  lemma PollTells(s: State, pipeReady: bool, ready: seq<(bool, bool)>, k: nat)
    requires s.pc == AtPoll && (s.pipe != [] ==> pipeReady) && k < |s.entries|
    ensures var r, e := Step(s, DoPollReturns(pipeReady, ready)), s.entries[k];
      var (canRead, canWrite) := if k < |ready| then ready[k] else (false, false);
      && r.pc == (if pipeReady then AtDispatch else AtEntry(0)) && |r.entries| == |s.entries|
      && r.entries[k].fd == e.fd
      && (Has(r.entries[k], Rx) <==> e.moreIn || (e.pollIn && canRead))
      && (Has(r.entries[k], Tx) <==> e.moreOut || (e.pollOut && canWrite))
  {
  }

  // ---------- An operation ----------

  /** An operation is queued for the registered connection that the entry at hand is listed for. */
  predicate HasWork(s: State, c: Conn) {
    && s.pc.AtHandle? && s.pc.i < |s.entries| && s.entries[s.pc.i].fd in s.fdMap
    && s.fdMap[s.entries[s.pc.i].fd] == c && c in s.conns
    && (if s.pc.dir == Rx then s.conns[c].rx else s.conns[c].tx) != []
  }

  /** What is ready is performed: in either direction a result leads to the callback of the front
      operation, and to nothing else. */
  lemma ReadyIsPerformed(s: State, c: Conn, n: int)
    requires Reachable(s) && HasWork(s, c) && s.pc.have
    ensures Enabled(s, DoHandle(Result(n)))
    ensures var r, dir, h := Step(s, DoHandle(Result(n))), s.pc.dir, Hist(s, c, s.pc.dir);
      var q := if dir == Rx then s.conns[c].rx else s.conns[c].tx;
      && r.pc.InCallback? && r.pc.i == s.pc.i && r.pc.dir == dir && r.pc.conn == c && r.pc.haveRx == s.pc.haveRx
      && |h.fates| < |h.accepted| && h.accepted[|h.fates|] == q[0]
      && Hist(r, c, dir) == h.(called := h.called + [|h.fates|])
      && r.conns == s.conns[c := s.conns[c].(cancelled := false)]
      && r.pipe == s.pipe && r.entries == s.entries && r.fdMap == s.fdMap && r.quit == s.quit
  {
    ReachableInv(s);
    assert HistOk(s, c, s.pc.dir);
  }

  /** More is expected exactly if the whole size was done, for sizes and results that fit their types.
      (An error, which is -1, also counts as the whole of the largest size.) */
  lemma MoreIsExpected(s: State, c: Conn, n: int)
    requires Reachable(s) && HasWork(s, c) && s.pc.have
    requires -1 <= n < 0x8000_0000_0000_0000
    requires (if s.pc.dir == Rx then s.conns[c].rx else s.conns[c].tx)[0].size < 0x1_0000_0000_0000_0000
    ensures var r := Step(s, DoHandle(Result(n)));
      var size := (if s.pc.dir == Rx then s.conns[c].rx else s.conns[c].tx)[0].size;
      r.pc.InCallback? && (r.pc.more <==> size > 0 && (n == size || (n == -1 && size == 0xFFFF_FFFF_FFFF_FFFF)))
  {
  }

  /** While the callback of c runs, nothing cancels its operations. */
  ghost predicate Uncancelled(calls: seq<Action>, c: Conn) {
    forall i :: 0 <= i < |calls| ==> ByClient(calls[i]) && calls[i] != DoCancel(c)
  }

  /** The callback of c still runs on the same operation, and more may be queued behind it. */
  ghost predicate StillOn(s: State, r: State, c: Conn, dir: Dir) {
    && r.pc == s.pc && r.entries == s.entries && r.zero == s.zero && c in r.conns && !r.conns[c].cancelled
    && QueueOf(s, c, dir) <= QueueOf(r, c, dir) && Hist(r, c, dir).fates == Hist(s, c, dir).fates
  }

  lemma EnqueueStill(s: State, c: Conn, dir: Dir, d: Conn, e: Dir, op: Op)
    requires StillOn(s, s, c, dir)
    ensures StillOn(s, Enqueue(s, d, e, op), c, dir)
  {
    if d == c && e != dir {
      assert s.conns[c].With(e, s.conns[c].Queue(e) + [op]).Queue(dir) == s.conns[c].Queue(dir);
    }
  }

  lemma CallStill(s: State, a: Action, c: Conn, dir: Dir)
    requires StillOn(s, s, c, dir) && s.pc.InCallback? && s.pc.conn == c
    requires Enabled(s, a) && ByClient(a) && a != DoCancel(c)
    ensures StillOn(s, Step(s, a), c, dir)
  {
    match a
    case DoRegister(d) => OtherStill(s, Register(s, d), c, dir);
    case DoUnregister(d, fd) => UnregisterStill(s, c, dir, d, fd);
    case DoSetFd(d, fd) => OtherStill(s, SetFd(s, d, fd), c, dir);
    case DoEnqueue(d, e, op) => EnqueueStill(s, c, dir, d, e, op);
    case DoCancel(d) => CancelStill(s, c, dir, d);
    case DoQuit => OtherStill(s, Send(s, Quit), c, dir);
  }

  lemma OtherStill(s: State, r: State, c: Conn, dir: Dir)
    requires StillOn(s, s, c, dir) && r.pc == s.pc && r.entries == s.entries && r.zero == s.zero && r.hist == s.hist
    requires c in r.conns && r.conns[c] == s.conns[c].(fd := r.conns[c].fd)
    ensures StillOn(s, r, c, dir)
  {
  }

  lemma UnregisterStill(s: State, c: Conn, dir: Dir, d: Conn, fd: Fd)
    requires StillOn(s, s, c, dir) && d != c
    ensures StillOn(s, Unregister(s, d, fd), c, dir)
  {
  }

  lemma CancelStill(s: State, c: Conn, dir: Dir, d: Conn)
    requires StillOn(s, s, c, dir) && d != c
    ensures StillOn(s, Cancel(s, d), c, dir)
  {
  }

  lemma {:induction false} CallsStill(s: State, calls: seq<Action>, r: State, c: Conn, dir: Dir)
    requires StillOn(s, s, c, dir) && s.pc.InCallback? && s.pc.conn == c
    requires Uncancelled(calls, c) && Reaches(s, calls, r)
    ensures StillOn(s, r, c, dir)
    decreases |calls|
  {
    if calls != [] {
      CallStill(s, calls[0], c, dir);
      assert Uncancelled(calls[1..], c);
      CallsStill(Step(s, calls[0]), calls[1..], r, c, dir);
    }
  }

  lemma CompletedAtReturn(s: State, c: Conn, dir: Dir)
    requires Enabled(s, DoCallbackReturns) && s.pc.conn == c && s.pc.dir == dir && !s.conns[c].cancelled
    requires QueueOf(s, c, dir) != []
    ensures var t, i := CallbackReturns(s), s.pc.i;
      && Hist(t, c, dir).fates == Hist(s, c, dir).fates + [Completed]
      && QueueOf(t, c, dir) == QueueOf(s, c, dir)[1..] && i < |t.entries|
      && More(t.entries[i], dir) == s.pc.more && t.zero == (s.zero || s.pc.more)
  {
    var s1 := Popped(s, c, dir);
    assert s1.entries == s.entries && s1.zero == s.zero;
    assert QueueOf(s1, c, dir) == QueueOf(s, c, dir)[1..];
  }

  /** And it is completed: whatever clients do during the callback, unless they cancel, its return gives
      that operation its fate, takes exactly it off the queue, stores the more-flag, and lets the next
      poll return at once if there is more. */
  lemma PerformedIsCompleted(s: State, c: Conn, n: int, calls: seq<Action>, r: State)
    requires Reachable(s) && HasWork(s, c) && s.pc.have && Enabled(s, DoHandle(Result(n)))
    requires Uncancelled(calls, c) && Reaches(Step(s, DoHandle(Result(n))), calls, r)
    ensures Enabled(r, DoCallbackReturns)
    ensures var p, t, dir := Step(s, DoHandle(Result(n))), Step(r, DoCallbackReturns), s.pc.dir;
      && p.pc.InCallback? && Hist(t, c, dir).fates == Hist(s, c, dir).fates + [Completed]
      && QueueOf(r, c, dir) != [] && QueueOf(t, c, dir) == QueueOf(r, c, dir)[1..]
      && QueueOf(r, c, dir)[0] == QueueOf(s, c, dir)[0] && QueueOf(s, c, dir) <= QueueOf(r, c, dir)
      && s.pc.i < |t.entries| && (p.pc.more <==> More(t.entries[s.pc.i], dir)) && (p.pc.more ==> t.zero)
  {
    ReadyIsPerformed(s, c, n);
    var p := Step(s, DoHandle(Result(n)));
    CallsStill(p, calls, r, c, s.pc.dir);
    CompletedAtReturn(r, c, s.pc.dir);
  }

  // ---------- Nothing to do ----------

  /** Without readiness, or when the operation is told to wait, nothing is called, dropped or taken. */
  lemma NothingPerformed(s: State, outcome: Outcome)
    requires Reachable(s) && s.pc.AtHandle? && (!s.pc.have || outcome == Again)
    ensures Enabled(s, DoHandle(outcome))
    ensures var r := Step(s, DoHandle(outcome)); r.conns == s.conns && r.hist == s.hist && !r.pc.InCallback?
    ensures var r := Step(s, DoHandle(outcome)); !s.pc.have ==> r.pipe == s.pipe
  {
    WorkerCanStep(s, outcome);
    QuietSame(s);
  }

  /** An entry whose connection is gone is polled for nothing any more, and the pending commands take it
      off the list. */
  lemma GoneIsRemoved(s: State, outcome: Outcome)
    requires Reachable(s) && s.pc.AtHandle? && s.pc.have && Enabled(s, DoHandle(outcome))
    requires s.fdMap[s.entries[s.pc.i].fd] !in s.conns
    ensures var r, fd := Step(s, DoHandle(outcome)), s.entries[s.pc.i].fd;
      && s.pc.i < |r.entries| && !r.entries[s.pc.i].pollIn && !r.entries[s.pc.i].pollOut
      && r.conns == s.conns && r.hist == s.hist && !Listed(Replay(r.entries, r.conns, r.pipe), fd)
  {
    ReachableInv(s);
    var r := Handle(s, outcome);
    SameFdsDistinct(s.entries, r.entries);
    RemovedLast(r.entries, r.conns, s.pipe, s.entries[s.pc.i].fd);
  }
}
