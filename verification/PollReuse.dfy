/** A descriptor that the poll list holds for a connection that is gone, open at another connection:
    exactly when the worker can lose the new connection's wakeup. This is the situation that the
    assumption on descriptors (OwnersLive) rules out, by either of the two ways into it. */
module PollReuse {
  import opened PollProtocol
  import opened PollInvariants
  import opened PollSteps
  import opened PollHistory

  /** Something is queued for c, which has fd open, but the pending commands will not have it polled. */
  ghost predicate Lost(s: State, c: Conn, fd: Fd, dir: Dir) {
    Owns(s.conns, c, fd) && s.conns[c].Queue(dir) != [] && !Armed(Replay(s.entries, s.conns, s.pipe), fd, dir)
  }

  ghost predicate OnlyWorker(actions: seq<Action>) {
    forall i :: 0 <= i < |actions| ==> !ByClient(actions[i])
  }

  /** The worker, left to itself, can get to lose it. */
  ghost predicate CanLose(s: State, c: Conn, fd: Fd, dir: Dir) {
    exists actions, s' :: OnlyWorker(actions) && Reaches(s, actions, s') && Lost(s', c, fd, dir)
  }

  lemma LostNow(s: State, c: Conn, fd: Fd, dir: Dir)
    requires Lost(s, c, fd, dir)
    ensures CanLose(s, c, fd, dir)
  {
    assert OnlyWorker([]) && Reaches(s, [], s);
  }

  lemma LostLater(s: State, a: Action, c: Conn, fd: Fd, dir: Dir)
    requires Enabled(s, a) && !ByClient(a) && CanLose(Step(s, a), c, fd, dir)
    ensures CanLose(s, c, fd, dir)
  {
    var actions, s' :| OnlyWorker(actions) && Reaches(Step(s, a), actions, s') && Lost(s', c, fd, dir);
    var all := [a] + actions;
    assert all[0] == a && all[1..] == actions;
    assert OnlyWorker(all) && Reaches(s, all, s');
  }

  // ---------- The condition ----------

  /** A command that sets or clears what the entry of c is polled for in a direction, and forgets what
      was reported. */
  predicate Sets(cmd: Cmd, c: Conn, dir: Dir) {
    cmd == Add(c, dir) || cmd == Del(c, dir)
  }

  /** Each round dispatches one command and then passes over the list. Whether some round before the
      removal of fd, and before the last one of a worker that ends, can find the entry ready: in the
      first if now, in a later one if it wants the direction by then. */
  predicate RoundSees(pipe: seq<Cmd>, now: bool, wants: bool, c: Conn, fd: Fd, dir: Dir)
    decreases |pipe|
  {
    && pipe != [] && pipe[0] != DelFd(fd)
    && var later := if Sets(pipe[0], c, dir) then pipe[0].Add? else wants;
    || (now && !Sets(pipe[0], c, dir))
    || (pipe[0] != Quit && RoundSees(pipe[1..], later, later, c, fd, dir))
  }

  /** Whether direction dir of entry k is still to be handled in this pass. */
  predicate Ahead(pc: Pc, k: nat, dir: Dir) {
    match pc
    case AtEntry(i) => i <= k
    case AtHandle(i, d, _, _) => i < k || (i == k && (d == Tx || d == dir))
    case InCallback(i, _, _, _, _) => i < k
    case _ => false
  }

  predicate ExposedIn(s: State, c: Conn, fd: Fd, dir: Dir)
    requires Listed(s.entries, fd)
  {
    var k, e := IndexOf(s.entries, fd), EntryOf(s.entries, fd);
    match s.pc
    case AtPoll => RoundSees(s.pipe, e.Wants(dir) || More(e, dir), e.Wants(dir), c, fd, dir)
    case AtDispatch => RoundSees(s.pipe, e.Ready(dir), e.Wants(dir), c, fd, dir)
    case Done => false
    case _ =>
      || (Ahead(s.pc, k, dir) && e.Ready(dir))
      || (!s.quit && RoundSees(s.pipe, e.Wants(dir) || More(e, dir), e.Wants(dir), c, fd, dir))
  }

  /** The worker can come to handle the entry of fd, open at c, before the first removal of fd that is
      pending: in the pass it is in, or in one of the rounds until then. */
  predicate Exposed(s: State, c: Conn, fd: Fd) {
    Listed(s.entries, fd) && (ExposedIn(s, c, fd, Rx) || ExposedIn(s, c, fd, Tx))
  }

  /** If the pipe says nothing about c, the entry must be polled or have a more-flag when poll is called,
      and another command must stand ahead of the removal. */
  lemma {:induction false} PlainRounds(pipe: seq<Cmd>, now: bool, wants: bool, c: Conn, fd: Fd, dir: Dir)
    requires (wants ==> now) && forall i :: 0 <= i < |pipe| ==> !Sets(pipe[i], c, dir)
    ensures RoundSees(pipe, now, wants, c, fd, dir) <==> now && pipe != [] && pipe[0] != DelFd(fd)
    decreases |pipe|
  {
    if pipe != [] {
      PlainRounds(pipe[1..], wants, wants, c, fd, dir);
    }
  }

  lemma PlainExposed(s: State, c: Conn, fd: Fd)
    requires s.pc == AtPoll && Listed(s.entries, fd)
    requires forall i, dir :: 0 <= i < |s.pipe| ==> !Sets(s.pipe[i], c, dir)
    ensures var e := EntryOf(s.entries, fd);
      Exposed(s, c, fd) <==>
        s.pipe != [] && s.pipe[0] != DelFd(fd) && (e.pollIn || e.moreIn || e.pollOut || e.moreOut)
  {
    var e := EntryOf(s.entries, fd);
    PlainRounds(s.pipe, e.Wants(Rx) || More(e, Rx), e.Wants(Rx), c, fd, Rx);
    PlainRounds(s.pipe, e.Wants(Tx) || More(e, Tx), e.Wants(Tx), c, fd, Tx);
  }

  /** What comes behind the removal does not matter. */
  lemma {:induction false} RoundsPrefix(
    pipe: seq<Cmd>, tail: seq<Cmd>, now: bool, wants: bool, c: Conn, fd: Fd, dir: Dir)
    requires DelFd(fd) in pipe
    ensures RoundSees(pipe + tail, now, wants, c, fd, dir) == RoundSees(pipe, now, wants, c, fd, dir)
    decreases |pipe|
  {
    if pipe[0] != DelFd(fd) {
      assert (pipe + tail)[1..] == pipe[1..] + tail;
      var later := if Sets(pipe[0], c, dir) then pipe[0].Add? else wants;
      RoundsPrefix(pipe[1..], tail, later, later, c, fd, dir);
    }
  }

  // ---------- The situation ----------

  /** fd is open at c alone and listed for a connection that is gone, with its removal pending. */
  ghost predicate Dead(s: State, c: Conn, fd: Fd) {
    && ListInv(s) && PcTrue(s) && (forall d :: Owns(s.conns, d, fd) <==> d == c)
    && fd in s.fdMap && s.fdMap[fd] !in s.conns && DelFd(fd) in s.pipe
  }

  /** The worker is about to handle the entry of fd. */
  predicate AtIt(s: State, fd: Fd) {
    s.pc.AtHandle? && s.pc.have && s.pc.i < |s.entries| && s.entries[s.pc.i].fd == fd
  }

  lemma AtItIsExposed(s: State, c: Conn, fd: Fd)
    requires Dead(s, c, fd) && AtIt(s, fd)
    ensures Exposed(s, c, fd)
  {
    IndexIs(s.entries, s.pc.i);
    assert ExposedIn(s, c, fd, s.pc.dir);
  }

  /** A step of the pass that leaves the entry of fd as it is, and what is ahead of it if it is ready. */
  ghost predicate Passes(s: State, s': State, fd: Fd) {
    && (s'.pc.AtEntry? || s'.pc.AtHandle? || s'.pc.InCallback?) && s'.quit == s.quit && s.pipe <= s'.pipe
    && s'.fdMap == s.fdMap && s'.conns.Keys == s.conns.Keys
    && (forall d :: d in s.conns ==> s'.conns[d].fd == s.conns[d].fd)
    && SameFds(s.entries, s'.entries)
    && forall k :: 0 <= k < |s.entries| && s.entries[k].fd == fd ==>
         s'.entries[k] == s.entries[k]
         && forall dir :: s.entries[k].Ready(dir) ==> (Ahead(s'.pc, k, dir) <==> Ahead(s.pc, k, dir))
  }

  lemma PassesKeeps(s: State, s': State, c: Conn, fd: Fd)
    requires Dead(s, c, fd) && PcTrue(s') && (s.pc.AtHandle? || s.pc.InCallback?) && Passes(s, s', fd)
    ensures Dead(s', c, fd) && forall dir :: ExposedIn(s', c, fd, dir) <==> ExposedIn(s, c, fd, dir)
  {
    SameFdsList(s, s');
    SameFdsIndex(s.entries, s'.entries, fd);
    var tail := s'.pipe[|s.pipe|..];
    assert s'.pipe == s.pipe + tail;
    assert forall d :: Owns(s'.conns, d, fd) <==> Owns(s.conns, d, fd);
    var e := EntryOf(s.entries, fd);
    forall dir ensures ExposedIn(s', c, fd, dir) <==> ExposedIn(s, c, fd, dir) {
      RoundsPrefix(s.pipe, tail, e.Wants(dir) || More(e, dir), e.Wants(dir), c, fd, dir);
    }
  }

  /** Nothing but entry i changes, in place. */
  ghost predicate OnlyAt(s: State, s': State, i: nat) {
    && |s'.entries| == |s.entries| && i < |s.entries| && s'.entries[i].fd == s.entries[i].fd
    && forall k :: 0 <= k < |s.entries| && k != i ==> s'.entries[k] == s.entries[k]
  }

  lemma QuietPasses(s: State)
    requires s.pc.AtHandle? && s.pc.i < |s.entries| && s.entries[s.pc.i].fd in s.fdMap
    ensures var q := Quiet(s);
      && q.pc == s.pc && q.quit == s.quit && q.fdMap == s.fdMap && q.conns == s.conns && s.pipe <= q.pipe
      && OnlyAt(s, q, s.pc.i) && (!s.pc.have ==> q == s)
  {
    var c := s.fdMap[s.entries[s.pc.i].fd];
    if s.pc.have && c !in s.conns {
      SilencedPasses(s, s.pc.i);
    }
  }

  lemma SilencedPasses(s: State, i: nat)
    requires i < |s.entries|
    ensures var q := Silenced(s, i);
      && q == s.(entries := q.entries, pipe := s.pipe + [DelFd(s.entries[i].fd)]) && OnlyAt(s, q, i)
  {
  }

  lemma NothingMore(e: Entry, dir: Dir)
    requires !e.Ready(dir)
    ensures e.SetMore(dir, false) == e
  {
  }

  /** Storing the result of handling something else, or of finding fd's entry not ready. */
  lemma HandledPasses(s: State, q: State, i: nat, dir: Dir, haveRx: bool, more: bool, fd: Fd)
    requires OnlyAt(s, q, i) && q.fdMap == s.fdMap && q.quit == s.quit && s.pipe <= q.pipe
    requires q.conns.Keys == s.conns.Keys && forall d :: d in s.conns ==> q.conns[d].fd == s.conns[d].fd
    requires (s.pc.AtHandle? && s.pc.i == i && s.pc.dir == dir) || (s.pc.InCallback? && s.pc.i == i)
    requires s.entries[i].fd == fd ==>
               s.pc.AtHandle? && q.entries[i] == s.entries[i] && !s.entries[i].Ready(dir) && !more
    ensures Passes(s, Handled(q, i, dir, haveRx, more), fd)
  {
    if s.entries[i].fd == fd {
      NothingMore(s.entries[i], dir);
    }
  }

  lemma StartedPasses(s: State, c: Conn, i: nat, dir: Dir, haveRx: bool, n: int, fd: Fd)
    requires c in s.conns && s.conns[c].Queue(dir) != []
    requires s.pc.AtHandle? && s.pc.i == i < |s.entries| && s.entries[i].fd != fd
    requires Distinct(s.entries)
    ensures Passes(s, Started(s, c, i, dir, haveRx, n), fd)
  {
  }

  /** Handling something else, or finding fd's entry not ready. */
  lemma HandlePasses(s: State, c: Conn, fd: Fd, outcome: Outcome)
    requires Dead(s, c, fd) && Enabled(s, DoHandle(outcome)) && !AtIt(s, fd)
    ensures Passes(s, Handle(s, outcome), fd)
  {
    var AtHandle(i, dir, _, haveRx) := s.pc;
    if Performs(s, outcome) {
      StartedPasses(s, s.fdMap[s.entries[i].fd], i, dir, haveRx, outcome.n, fd);
    } else {
      QuietPasses(s);
      HandledPasses(s, Quiet(s), i, dir, haveRx, false, fd);
    }
  }

  lemma PoppedSame(s: State, c: Conn, dir: Dir)
    requires c in s.conns
    ensures var p := Popped(s, c, dir);
      && p.conns.Keys == s.conns.Keys && (forall d :: d in s.conns ==> p.conns[d].fd == s.conns[d].fd)
      && p == s.(conns := p.conns, hist := p.hist)
  {
  }

  lemma CallbackPasses(s: State, c: Conn, fd: Fd)
    requires Dead(s, c, fd) && Enabled(s, DoCallbackReturns)
    ensures Passes(s, CallbackReturns(s), fd)
  {
    var InCallback(i, dir, haveRx, d, more) := s.pc;
    var s1 := Popped(s, d, dir);
    PoppedSame(s, d, dir);
    HandledPasses(s, if s1.conns[d].Queue(dir) == [] then Send(s1, Del(d, dir)) else s1, i, dir, haveRx, more, fd);
  }

  lemma NextKeeps(s: State, c: Conn, fd: Fd)
    requires Dead(s, c, fd) && s.pc.AtEntry?
    ensures var s' := NextEntry(s, s.pc.i);
      Dead(s', c, fd) && forall dir :: ExposedIn(s', c, fd, dir) <==> ExposedIn(s, c, fd, dir)
  {
    forall dir ensures ExposedIn(NextEntry(s, s.pc.i), c, fd, dir) <==> ExposedIn(s, c, fd, dir) {
      NextExposes(s, c, fd, dir);
    }
  }

  lemma NextExposes(s: State, c: Conn, fd: Fd, dir: Dir)
    requires s.pc.AtEntry? && s.pc.i <= |s.entries| && Listed(s.entries, fd)
    ensures ExposedIn(NextEntry(s, s.pc.i), c, fd, dir) <==> ExposedIn(s, c, fd, dir)
  {
  }

  /** poll finds the entry ready only for what it is polled for. */
  lemma PollKeeps(s: State, c: Conn, fd: Fd, ready: seq<(bool, bool)>)
    requires Dead(s, c, fd) && s.pc == AtPoll
    ensures var s', k := PollReturns(s, true, ready), IndexOf(s.entries, fd);
      && Dead(s', c, fd) && (forall dir :: ExposedIn(s', c, fd, dir) ==> ExposedIn(s, c, fd, dir))
      && (k < |ready| && ready[k] == (true, true) ==>
            forall dir :: ExposedIn(s, c, fd, dir) ==> ExposedIn(s', c, fd, dir))
  {
    var s', k := PollReturns(s, true, ready), IndexOf(s.entries, fd);
    SameFdsList(s, s');
    SameFdsIndex(s.entries, s'.entries, fd);
    assert s'.entries[k] == Polled(s.entries[k], k, ready);
  }

  /** What a command does to the entry of c's descriptor. */
  lemma EntryApplied(entries: seq<Entry>, conns: map<Conn, Info>, cmd: Cmd, c: Conn, fd: Fd)
    requires Distinct(entries) && Listed(entries, fd) && fd != CLOSED && cmd != DelFd(fd)
    requires forall d :: Owns(conns, d, fd) <==> d == c
    ensures var after, e := Apply(entries, conns, cmd), EntryOf(entries, fd);
      Listed(after, fd)
      && EntryOf(after, fd) == match cmd
                               case Add(d, dir) => if d == c then e.SetWants(dir, true) else e
                               case Del(d, dir) => if d == c then e.SetWants(dir, false) else e
                               case _ => e
  {
    assert Owns(conns, c, fd);
    match cmd
    case Quit =>
    case Add(d, dir) =>
      assert Owns(conns, d, fd) <==> d == c;
      if d in conns && conns[d].fd != CLOSED {
        AddEntryKeeps(entries, conns[d].fd, dir);
      }
    case Del(d, dir) =>
      assert Owns(conns, d, fd) <==> d == c;
      if d in conns && conns[d].fd != CLOSED {
        ClearEntryKeeps(entries, conns[d].fd, dir);
      }
    case DelFd(g) => RemoveEntryKeeps(entries, g);
  }

  lemma StillPending(pipe: seq<Cmd>, cmd: Cmd)
    requires cmd in pipe && pipe[0] != cmd
    ensures cmd in pipe[1..]
  {
    var i :| 0 <= i < |pipe| && pipe[i] == cmd;
    assert pipe[1..][i - 1] == cmd;
  }

  /** A command other than the removal leaves the situation. */
  lemma DispatchKeeps(s: State, c: Conn, fd: Fd)
    requires Dead(s, c, fd) && s.pc == AtDispatch && s.pipe[0] != DelFd(fd)
    ensures var s' := Dispatch(s);
      Dead(s', c, fd) && forall dir :: ExposedIn(s', c, fd, dir) <==> ExposedIn(s, c, fd, dir)
  {
    ApplyKeepsList(s, s.pipe[0]);
    StillPending(s.pipe, DelFd(fd));
    EntryApplied(s.entries, s.conns, s.pipe[0], c, fd);
    forall dir ensures ExposedIn(Dispatch(s), c, fd, dir) <==> ExposedIn(s, c, fd, dir) {
      DispatchExposes(s, c, fd, dir);
    }
  }

  /** The first round begins with its command. */
  lemma DispatchExposes(s: State, c: Conn, fd: Fd, dir: Dir)
    requires s.pc == AtDispatch && !s.quit && s.pipe != [] && s.pipe[0] != DelFd(fd) && Listed(s.entries, fd)
    requires var after, e := Apply(s.entries, s.conns, s.pipe[0]), EntryOf(s.entries, fd);
      Listed(after, fd)
      && EntryOf(after, fd) == match s.pipe[0]
                               case Add(d, dir) => if d == c then e.SetWants(dir, true) else e
                               case Del(d, dir) => if d == c then e.SetWants(dir, false) else e
                               case _ => e
    ensures ExposedIn(Dispatch(s), c, fd, dir) <==> ExposedIn(s, c, fd, dir)
  {
  }

  // ---------- Losing it ----------

  /** Something is queued that a callback which is running will not take. */
  predicate Waiting(s: State, c: Conn, dir: Dir) {
    |QueueOf(s, c, dir)| > if InFlight(s, c, dir) then 1 else 0
  }

  /** The entry is handled: its removal is requested behind the new connection's command. */
  lemma StaleHandled(s: State, c: Conn, fd: Fd, dir: Dir)
    requires Dead(s, c, fd) && Waiting(s, c, dir) && AtIt(s, fd)
    ensures CanLose(s, c, fd, dir)
  {
    var s' := Handle(s, Again);
    assert Owns(s.conns, c, fd);
    assert s'.pipe == s.pipe + [DelFd(fd)] && s'.conns == s.conns;
    SameFdsDistinct(s.entries, s'.entries);
    RemovedLast(s'.entries, s'.conns, s.pipe, fd);
    LostNow(s', c, fd, dir);
    LostLater(s, DoHandle(Again), c, fd, dir);
  }

  /** The number of commands before the removal. */
  function Before(pipe: seq<Cmd>, fd: Fd): nat {
    if pipe == [] || pipe[0] == DelFd(fd) then 0 else 1 + Before(pipe[1..], fd)
  }

  lemma {:induction false} BeforePrefix(pipe: seq<Cmd>, tail: seq<Cmd>, fd: Fd)
    requires DelFd(fd) in pipe
    ensures Before(pipe + tail, fd) == Before(pipe, fd)
  {
    if pipe[0] != DelFd(fd) {
      assert (pipe + tail)[1..] == pipe[1..] + tail;
      BeforePrefix(pipe[1..], tail, fd);
    }
  }

  /** What a worker does while fd is all that poll finds ready and no operation has a result. */
  function NextAction(s: State, fd: Fd): Action {
    match s.pc
    case AtPoll =>
      DoPollReturns(true, seq(|s.entries|, k requires 0 <= k < |s.entries| => var r := s.entries[k].fd == fd; (r, r)))
    case AtDispatch => DoDispatch
    case AtEntry(_) => DoNextEntry
    case AtHandle(_, _, _, _) => DoHandle(Again)
    case InCallback(_, _, _, _, _) => DoCallbackReturns
    case Done => DoPollFails
  }

  /** How far it is to the next poll. */
  function Left(s: State): nat {
    var n := |s.entries|;
    match s.pc
    case AtEntry(i) => 3 * (if i < n then n - i else 0) + 3
    case AtHandle(i, d, _, _) => 3 * (if i < n then n - i else 0) + (if d == Tx then 2 else 1)
    case InCallback(i, d, _, _, _) => 3 * (if i < n then n - i else 0) + (if d == Tx then 2 else 1)
    case AtPoll => 2
    case AtDispatch => 1
    case Done => 0
  }

  lemma CanGoOn(s: State, c: Conn, fd: Fd)
    requires Dead(s, c, fd) && Exposed(s, c, fd)
    ensures Enabled(s, NextAction(s, fd)) && !ByClient(NextAction(s, fd))
  {
    if s.pc.AtHandle? {
      IndexIs(s.entries, s.pc.i);
    }
  }

  /** s' is nearer to the removal than s. */
  ghost predicate Nearer(s: State, s': State, fd: Fd) {
    || Before(s'.pipe, fd) < Before(s.pipe, fd)
    || (Before(s'.pipe, fd) == Before(s.pipe, fd) && Left(s') < Left(s))
  }

  lemma PassGoesOn(s: State, s': State, c: Conn, fd: Fd)
    requires Dead(s, c, fd) && Exposed(s, c, fd) && PcTrue(s') && (s.pc.AtHandle? || s.pc.InCallback?)
    requires Passes(s, s', fd) && Left(s') < Left(s)
    ensures Dead(s', c, fd) && Exposed(s', c, fd) && Nearer(s, s', fd)
  {
    PassesKeeps(s, s', c, fd);
    SameFdsIndex(s.entries, s'.entries, fd);
    BeforePrefix(s.pipe, s'.pipe[|s.pipe|..], fd);
    assert s.pipe + s'.pipe[|s.pipe|..] == s'.pipe;
  }

  lemma HandleGoesOn(s: State, c: Conn, fd: Fd)
    requires Dead(s, c, fd) && Exposed(s, c, fd) && !AtIt(s, fd) && s.pc.AtHandle? && Enabled(s, DoHandle(Again))
    ensures var s' := Handle(s, Again); Dead(s', c, fd) && Exposed(s', c, fd) && Nearer(s, s', fd)
  {
    HandlePasses(s, c, fd, Again);
    HandleKeepsPc(s, Again);
    PassGoesOn(s, Handle(s, Again), c, fd);
  }

  lemma CallbackGoesOn(s: State, c: Conn, fd: Fd)
    requires Dead(s, c, fd) && Exposed(s, c, fd) && Enabled(s, DoCallbackReturns)
    ensures var s' := CallbackReturns(s); Dead(s', c, fd) && Exposed(s', c, fd) && Nearer(s, s', fd)
  {
    CallbackPasses(s, c, fd);
    CallbackKeepsPc(s);
    PassGoesOn(s, CallbackReturns(s), c, fd);
  }

  lemma NextGoesOn(s: State, c: Conn, fd: Fd)
    requires Dead(s, c, fd) && Exposed(s, c, fd) && s.pc.AtEntry?
    ensures var s' := NextEntry(s, s.pc.i); Dead(s', c, fd) && Exposed(s', c, fd) && Nearer(s, s', fd)
  {
    NextKeeps(s, c, fd);
  }

  lemma PollGoesOn(s: State, c: Conn, fd: Fd)
    requires Dead(s, c, fd) && Exposed(s, c, fd) && s.pc == AtPoll
    ensures var s' := Step(s, NextAction(s, fd)); Dead(s', c, fd) && Exposed(s', c, fd) && Nearer(s, s', fd)
  {
    PollKeeps(s, c, fd, NextAction(s, fd).ready);
  }

  lemma DispatchGoesOn(s: State, c: Conn, fd: Fd)
    requires Dead(s, c, fd) && Exposed(s, c, fd) && s.pc == AtDispatch
    ensures var s' := Dispatch(s); Dead(s', c, fd) && Exposed(s', c, fd) && Nearer(s, s', fd)
  {
    DispatchKeeps(s, c, fd);
  }

  /** Its steps keep the entry exposed, and there is an end to them. */
  lemma GoesOn(s: State, c: Conn, fd: Fd)
    requires Dead(s, c, fd) && Exposed(s, c, fd) && !AtIt(s, fd) && Enabled(s, NextAction(s, fd))
    ensures var s' := Step(s, NextAction(s, fd)); Dead(s', c, fd) && Exposed(s', c, fd) && Nearer(s, s', fd)
  {
    match s.pc
    case AtPoll => PollGoesOn(s, c, fd);
    case AtDispatch => DispatchGoesOn(s, c, fd);
    case AtEntry(_) => NextGoesOn(s, c, fd);
    case AtHandle(_, _, _, _) => HandleGoesOn(s, c, fd);
    case InCallback(_, _, _, _, _) => CallbackGoesOn(s, c, fd);
    case Done =>
  }

  lemma PoppedWaits(s: State, c: Conn, dir: Dir)
    requires Waiting(s, c, dir) && Enabled(s, DoCallbackReturns)
    ensures Waiting(CallbackReturns(s), c, dir)
  {
    var s1 := Popped(s, s.pc.conn, s.pc.dir);
    assert CallbackReturns(s).conns == s1.conns;
    if s.pc.conn == c && s.pc.dir != dir && c in s.conns {
      assert s1.conns[c].Queue(dir) == s.conns[c].Queue(dir);
    }
  }

  lemma SameWaits(s: State, s': State, c: Conn, dir: Dir)
    requires Waiting(s, c, dir) && s'.conns == s.conns && !s'.pc.InCallback?
    ensures Waiting(s', c, dir)
  {
  }

  lemma StillWaiting(s: State, c: Conn, fd: Fd, dir: Dir)
    requires Waiting(s, c, dir) && Enabled(s, NextAction(s, fd))
    ensures Waiting(Step(s, NextAction(s, fd)), c, dir)
  {
    match s.pc
    case InCallback(_, _, _, _, _) => PoppedWaits(s, c, dir);
    case AtHandle(_, _, _, _) =>
      QuietSame(s);
      SameWaits(s, Handle(s, Again), c, dir);
    case AtPoll => SameWaits(s, PollReturns(s, true, NextAction(s, fd).ready), c, dir);
    case AtDispatch => SameWaits(s, Dispatch(s), c, dir);
    case AtEntry(i) => SameWaits(s, NextEntry(s, i), c, dir);
    case Done =>
  }

  /** Exposed, it can be lost. */
  lemma {:induction false} Loses(s: State, c: Conn, fd: Fd, dir: Dir)
    requires Dead(s, c, fd) && Waiting(s, c, dir) && Exposed(s, c, fd)
    ensures CanLose(s, c, fd, dir)
    decreases Before(s.pipe, fd), Left(s)
  {
    if AtIt(s, fd) {
      StaleHandled(s, c, fd, dir);
    } else {
      CanGoOn(s, c, fd);
      GoesOn(s, c, fd);
      StillWaiting(s, c, fd, dir);
      Loses(Step(s, NextAction(s, fd)), c, fd, dir);
      LostLater(s, NextAction(s, fd), c, fd, dir);
    }
  }

  // ---------- Keeping it ----------

  ghost predicate Alone(s: State, c: Conn, fd: Fd) {
    fd != CLOSED && forall d :: Owns(s.conns, d, fd) <==> d == c
  }

  /** The wakeup of one connection and direction. */
  predicate Wakes(s: State, c: Conn, dir: Dir) {
    c in s.conns && (s.conns[c].Queue(dir) != [] ==> WillPoll(s, c, dir))
  }

  lemma WakesStay(s: State, s': State, c: Conn, fd: Fd, dir: Dir)
    requires Alone(s, c, fd) && Alone(s', c, fd) && Wakes(s, c, dir) && s'.pipe == s.pipe
    requires Armed(s'.entries, fd, dir) == Armed(s.entries, fd, dir)
    requires QueueOf(s', c, dir) != [] ==> QueueOf(s, c, dir) != []
    ensures Wakes(s', c, dir)
  {
    assert Owns(s.conns, c, fd) && Owns(s'.conns, c, fd);
    EffectsOwners(Armed(s.entries, fd, dir), s.conns, s'.conns, s.pipe, fd, dir);
  }

  lemma WakesSent(s: State, cmd: Cmd, c: Conn, fd: Fd, dir: Dir)
    requires Alone(s, c, fd) && Wakes(s, c, dir) && cmd != DelFd(fd)
    requires cmd == Del(c, dir) ==> QueueOf(s, c, dir) == []
    ensures Wakes(Send(s, cmd), c, dir)
  {
    assert Owns(s.conns, c, fd);
    assert cmd.Del? ==> (Owns(s.conns, cmd.conn, fd) <==> cmd.conn == c);
    EffectsSnoc(Armed(s.entries, fd, dir), s.conns, s.pipe, cmd, fd, dir);
  }

  lemma PollWakes(s: State, c: Conn, fd: Fd, dir: Dir, pipeReady: bool, ready: seq<(bool, bool)>)
    requires Alone(s, c, fd) && Wakes(s, c, dir)
    ensures Wakes(PollReturns(s, pipeReady, ready), c, dir)
  {
    var s' := PollReturns(s, pipeReady, ready);
    SameWantsArmed(s.entries, s'.entries, fd, dir);
    WakesStay(s, s', c, fd, dir);
  }

  lemma DispatchWakes(s: State, c: Conn, fd: Fd, dir: Dir)
    requires ListInv(s) && Alone(s, c, fd) && Wakes(s, c, dir)
    ensures Wakes(Dispatch(s), c, dir)
  {
    if s.pipe == [] {
      WakesStay(s, Dispatch(s), c, fd, dir);
    } else {
      assert Owns(s.conns, c, fd);
      ApplyEffect(s.entries, s.conns, s.pipe[0], fd, dir);
    }
  }

  lemma HandledWakes(s: State, c: Conn, fd: Fd, dir: Dir, i: nat, d: Dir, haveRx: bool, more: bool)
    requires Alone(s, c, fd) && Wakes(s, c, dir) && i < |s.entries|
    ensures Wakes(Handled(s, i, d, haveRx, more), c, dir)
  {
    var s' := Handled(s, i, d, haveRx, more);
    SameWantsArmed(s.entries, s'.entries, fd, dir);
    WakesStay(s, s', c, fd, dir);
  }

  lemma SilencedWakes(s: State, c: Conn, fd: Fd, dir: Dir, i: nat)
    requires Alone(s, c, fd) && Wakes(s, c, dir) && i < |s.entries| && s.entries[i].fd != fd
    ensures Wakes(Silenced(s, i), c, dir)
  {
    var s1 := s.(entries := s.entries[i := s.entries[i].(pollIn := false, pollOut := false)]);
    SameWantsArmed(s.entries, s1.entries, fd, dir);
    WakesStay(s, s1, c, fd, dir);
    WakesSent(s1, DelFd(s.entries[i].fd), c, fd, dir);
  }

  lemma QuietWakes(s: State, c: Conn, fd: Fd, dir: Dir)
    requires Alone(s, c, fd) && Wakes(s, c, dir) && Enabled(s, DoHandle(Again))
    requires AtIt(s, fd) ==> s.fdMap[fd] in s.conns
    ensures Wakes(Quiet(s), c, dir)
  {
    var d := s.fdMap[s.entries[s.pc.i].fd];
    if s.pc.have && d !in s.conns {
      SilencedWakes(s, c, fd, dir, s.pc.i);
    } else if s.pc.have && s.conns[d].Queue(s.pc.dir) == [] {
      WakesSent(s, Del(d, s.pc.dir), c, fd, dir);
    }
  }

  lemma StartedWakes(s: State, c: Conn, fd: Fd, dir: Dir, e: Conn, i: nat, d: Dir, haveRx: bool, n: int)
    requires Alone(s, c, fd) && Wakes(s, c, dir) && e in s.conns && s.conns[e].Queue(d) != []
    ensures Wakes(Started(s, e, i, d, haveRx, n), c, dir)
  {
    var s' := Started(s, e, i, d, haveRx, n);
    assert forall x :: Owns(s'.conns, x, fd) <==> Owns(s.conns, x, fd);
    WakesStay(s, s', c, fd, dir);
  }

  lemma HandleWakes(s: State, c: Conn, fd: Fd, dir: Dir, outcome: Outcome)
    requires Alone(s, c, fd) && Wakes(s, c, dir) && Enabled(s, DoHandle(outcome))
    requires AtIt(s, fd) ==> s.fdMap[fd] in s.conns
    ensures Wakes(Handle(s, outcome), c, dir)
  {
    var AtHandle(i, d, _, haveRx) := s.pc;
    if Performs(s, outcome) {
      StartedWakes(s, c, fd, dir, s.fdMap[s.entries[i].fd], i, d, haveRx, outcome.n);
    } else {
      QuietWakes(s, c, fd, dir);
      QuietSame(s);
      HandledWakes(Quiet(s), c, fd, dir, i, d, haveRx, false);
    }
  }

  lemma PoppedWakes(s: State, c: Conn, fd: Fd, dir: Dir, e: Conn, d: Dir)
    requires Alone(s, c, fd) && Wakes(s, c, dir) && e in s.conns
    ensures Wakes(Popped(s, e, d), c, dir) && Alone(Popped(s, e, d), c, fd)
  {
    var s' := Popped(s, e, d);
    PoppedSame(s, e, d);
    assert forall x :: Owns(s'.conns, x, fd) <==> Owns(s.conns, x, fd);
    WakesStay(s, s', c, fd, dir);
  }

  lemma CallbackWakes(s: State, c: Conn, fd: Fd, dir: Dir)
    requires Alone(s, c, fd) && Wakes(s, c, dir) && Enabled(s, DoCallbackReturns)
    ensures Wakes(CallbackReturns(s), c, dir)
  {
    var InCallback(i, d, haveRx, e, more) := s.pc;
    var s1 := Popped(s, e, d);
    PoppedWakes(s, c, fd, dir, e, d);
    if s1.conns[e].Queue(d) == [] {
      WakesSent(s1, Del(e, d), c, fd, dir);
      HandledWakes(Send(s1, Del(e, d)), c, fd, dir, i, d, haveRx, more);
    } else {
      HandledWakes(s1, c, fd, dir, i, d, haveRx, more);
    }
  }

  /** The wakeup survives the worker's steps, unless it handles a dead entry of its descriptor. */
  lemma WorkerWakes(s: State, a: Action, c: Conn, fd: Fd, dir: Dir)
    requires ListInv(s) && Alone(s, c, fd) && Wakes(s, c, dir) && Enabled(s, a) && !ByClient(a)
    requires AtIt(s, fd) ==> s.fdMap[fd] in s.conns
    ensures Wakes(Step(s, a), c, dir)
  {
    match a
    case DoPollFails =>
    case DoPollReturns(pipeReady, ready) => PollWakes(s, c, fd, dir, pipeReady, ready);
    case DoDispatch => DispatchWakes(s, c, fd, dir);
    case DoNextEntry => WakesStay(s, NextEntry(s, s.pc.i), c, fd, dir);
    case DoHandle(outcome) => HandleWakes(s, c, fd, dir, outcome);
    case DoCallbackReturns => CallbackWakes(s, c, fd, dir);
  }

  /** The wakeup is in order, and if fd is listed for a connection that is gone, its entry is not
      exposed. */
  ghost predicate Covered(s: State, c: Conn, fd: Fd, dir: Dir) {
    && ListInv(s) && PcTrue(s) && Alone(s, c, fd) && Wakes(s, c, dir)
    && (fd in s.fdMap && s.fdMap[fd] !in s.conns ==> Dead(s, c, fd) && !Exposed(s, c, fd))
  }

  /** What the worker never changes: who has which descriptor open. */
  lemma WorkerKeepsFds(s: State, a: Action)
    requires Enabled(s, a) && !ByClient(a)
    ensures var s' := Step(s, a);
      s'.conns.Keys == s.conns.Keys && forall d :: d in s.conns ==> s'.conns[d].fd == s.conns[d].fd
  {
    match a
    case DoHandle(outcome) => HandleKeepsFds(s, outcome);
    case DoCallbackReturns =>
      PoppedSame(s, s.pc.conn, s.pc.dir);
      assert CallbackReturns(s).conns == Popped(s, s.pc.conn, s.pc.dir).conns;
    case _ =>
  }

  lemma HandleKeepsFds(s: State, outcome: Outcome)
    requires Enabled(s, DoHandle(outcome))
    ensures var s' := Handle(s, outcome);
      s'.conns.Keys == s.conns.Keys && forall d :: d in s.conns ==> s'.conns[d].fd == s.conns[d].fd
  {
    QuietSame(s);
    if Performs(s, outcome) {
      var c := s.fdMap[s.entries[s.pc.i].fd];
      assert Handle(s, outcome).conns == s.conns[c := s.conns[c].(cancelled := false)];
    }
  }

  lemma HandleKeepsList(s: State, outcome: Outcome)
    requires ListInv(s) && Enabled(s, DoHandle(outcome))
    ensures ListInv(Handle(s, outcome))
  {
    if !Performs(s, outcome) {
      QuietPasses(s);
      SameFdsList(s, Quiet(s));
      HandledKeepsList(Quiet(s), s.pc.i, s.pc.dir, s.pc.haveRx, false);
    }
  }

  lemma HandledKeepsList(s: State, i: nat, dir: Dir, haveRx: bool, more: bool)
    requires ListInv(s) && i < |s.entries|
    ensures ListInv(Handled(s, i, dir, haveRx, more))
  {
    SameFdsList(s, Handled(s, i, dir, haveRx, more));
  }

  lemma CallbackKeepsList(s: State)
    requires ListInv(s) && Enabled(s, DoCallbackReturns)
    ensures ListInv(CallbackReturns(s))
  {
    var InCallback(i, dir, haveRx, c, more) := s.pc;
    var s1 := Popped(s, c, dir);
    PoppedSame(s, c, dir);
    SameFdsList(s, s1);
    SameFdsList(s1, Send(s1, Del(c, dir)));
    HandledKeepsList(if s1.conns[c].Queue(dir) == [] then Send(s1, Del(c, dir)) else s1, i, dir, haveRx, more);
  }

  lemma WorkerKeepsList(s: State, a: Action)
    requires ListInv(s) && Enabled(s, a) && !ByClient(a)
    ensures ListInv(Step(s, a))
  {
    match a
    case DoPollReturns(pipeReady, ready) => SameFdsList(s, Step(s, a));
    case DoDispatch =>
      if s.pipe != [] {
        ApplyKeepsList(s, s.pipe[0]);
      }
    case DoHandle(outcome) => HandleKeepsList(s, outcome);
    case DoCallbackReturns => CallbackKeepsList(s);
    case _ =>
  }

  /** A dead entry that is not exposed stays so until it is removed. */
  lemma DeadStays(s: State, a: Action, c: Conn, fd: Fd)
    requires Dead(s, c, fd) && !Exposed(s, c, fd) && Enabled(s, a) && !ByClient(a)
    requires s.pc == AtDispatch ==> s.pipe[0] != DelFd(fd)
    ensures Dead(Step(s, a), c, fd) && !Exposed(Step(s, a), c, fd)
  {
    if AtIt(s, fd) {
      AtItIsExposed(s, c, fd);
    }
    match a
    case DoPollFails =>
    case DoPollReturns(_, ready) => PollKeeps(s, c, fd, ready);
    case DoDispatch => DispatchKeeps(s, c, fd);
    case DoNextEntry => NextKeeps(s, c, fd);
    case DoHandle(outcome) =>
      HandlePasses(s, c, fd, outcome);
      HandleKeepsPc(s, outcome);
      PassesKeeps(s, Handle(s, outcome), c, fd);
    case DoCallbackReturns =>
      CallbackPasses(s, c, fd);
      CallbackKeepsPc(s);
      PassesKeeps(s, CallbackReturns(s), c, fd);
  }

  /** fd, once not listed for a connection that is gone, will not be again. */
  lemma LiveStays(s: State, a: Action, c: Conn, fd: Fd)
    requires Alone(s, c, fd) && Enabled(s, a) && !ByClient(a)
    requires (fd in s.fdMap ==> s.fdMap[fd] in s.conns) || (s.pc == AtDispatch && IsNext(s, DelFd(fd)))
    ensures var s' := Step(s, a); fd in s'.fdMap ==> s'.fdMap[fd] in s'.conns
  {
    if a.DoDispatch? {
      DispatchLive(s, c, fd);
    } else {
      WorkerKeepsFds(s, a);
      WorkerKeepsMap(s, a);
    }
  }

  lemma WorkerKeepsMap(s: State, a: Action)
    requires Enabled(s, a) && !ByClient(a) && !a.DoDispatch?
    ensures Step(s, a).fdMap == s.fdMap
  {
    match a
    case DoHandle(_) => QuietPasses(s);
    case DoCallbackReturns => PoppedSame(s, s.pc.conn, s.pc.dir);
    case _ =>
  }

  lemma DispatchLive(s: State, c: Conn, fd: Fd)
    requires Alone(s, c, fd)
    requires (fd in s.fdMap ==> s.fdMap[fd] in s.conns) || IsNext(s, DelFd(fd))
    ensures var s' := Dispatch(s); fd in s'.fdMap ==> s'.fdMap[fd] in s'.conns
  {
    if s.pipe != [] && s.pipe[0].Add? && s.pipe[0].conn in s.conns {
      assert Owns(s.conns, s.pipe[0].conn, fd) <==> s.pipe[0].conn == c;
    }
  }

  /** The command that a dispatch takes. */
  predicate IsNext(s: State, cmd: Cmd) {
    s.pipe != [] && s.pipe[0] == cmd
  }

  lemma StepCovered(s: State, a: Action, c: Conn, fd: Fd, dir: Dir)
    requires Covered(s, c, fd, dir) && Enabled(s, a) && !ByClient(a)
    ensures Covered(Step(s, a), c, fd, dir)
  {
    var s' := Step(s, a);
    var dead := fd in s.fdMap && s.fdMap[fd] !in s.conns;
    if AtIt(s, fd) && dead {
      AtItIsExposed(s, c, fd);
    }
    WorkerWakes(s, a, c, fd, dir);
    WorkerKeepsFds(s, a);
    WorkerKeepsList(s, a);
    StepKeepsPc(s, a);
    assert forall d :: Owns(s'.conns, d, fd) <==> Owns(s.conns, d, fd);
    if dead && !(s.pc == AtDispatch && IsNext(s, DelFd(fd))) {
      DeadStays(s, a, c, fd);
    } else {
      LiveStays(s, a, c, fd);
    }
  }

  lemma NotLost(s: State, c: Conn, fd: Fd, dir: Dir)
    requires Covered(s, c, fd, dir)
    ensures !Lost(s, c, fd, dir)
  {
    if Owns(s.conns, c, fd) && s.conns[c].Queue(dir) != [] {
      ReplayEffects(s.entries, s.conns, s.pipe, fd, dir);
    }
  }

  lemma {:induction false} RunNotLost(s: State, actions: seq<Action>, s': State, c: Conn, fd: Fd, dir: Dir)
    requires Covered(s, c, fd, dir) && OnlyWorker(actions) && Reaches(s, actions, s')
    ensures !Lost(s', c, fd, dir)
    decreases |actions|
  {
    if actions == [] {
      NotLost(s, c, fd, dir);
    } else {
      StepCovered(s, actions[0], c, fd, dir);
      assert OnlyWorker(actions[1..]);
      RunNotLost(Step(s, actions[0]), actions[1..], s', c, fd, dir);
    }
  }

  /** Not exposed, it can not be lost. */
  lemma NeverLoses(s: State, c: Conn, fd: Fd, dir: Dir)
    requires Covered(s, c, fd, dir)
    ensures !CanLose(s, c, fd, dir)
  {
    forall actions, s' | OnlyWorker(actions) && Reaches(s, actions, s') ensures !Lost(s', c, fd, dir) {
      RunNotLost(s, actions, s', c, fd, dir);
    }
  }

  // ---------- The theorems ----------

  lemma StaysEmpty(s: State, a: Action, c: Conn, dir: Dir)
    requires QueueOf(s, c, dir) == [] && Enabled(s, a) && !ByClient(a)
    ensures QueueOf(Step(s, a), c, dir) == []
  {
    match a
    case DoHandle(outcome) => HandleStaysEmpty(s, outcome, c, dir);
    case DoCallbackReturns =>
      var s1 := Popped(s, s.pc.conn, s.pc.dir);
      assert CallbackReturns(s).conns == s1.conns;
    case _ =>
  }

  lemma HandleStaysEmpty(s: State, outcome: Outcome, c: Conn, dir: Dir)
    requires QueueOf(s, c, dir) == [] && Enabled(s, DoHandle(outcome))
    ensures QueueOf(Handle(s, outcome), c, dir) == []
  {
    QuietSame(s);
    if Performs(s, outcome) {
      var d := s.fdMap[s.entries[s.pc.i].fd];
      assert Handle(s, outcome).conns == s.conns[d := s.conns[d].(cancelled := false)];
    }
  }

  lemma {:induction false} RunEmpty(s: State, actions: seq<Action>, s': State, c: Conn, fd: Fd, dir: Dir)
    requires QueueOf(s, c, dir) == [] && OnlyWorker(actions) && Reaches(s, actions, s')
    ensures !Lost(s', c, fd, dir)
    decreases |actions|
  {
    if actions != [] {
      StaysEmpty(s, actions[0], c, dir);
      assert OnlyWorker(actions[1..]);
      RunEmpty(Step(s, actions[0]), actions[1..], s', c, fd, dir);
    }
  }

  /** If all that is queued is what a running callback is about, nothing is left to be woken for. */
  lemma LastInFlight(s: State, c: Conn, fd: Fd, dir: Dir)
    requires Dead(s, c, fd) && Wakes(s, c, dir) && !Waiting(s, c, dir)
    ensures !CanLose(s, c, fd, dir)
  {
    forall actions, s' | OnlyWorker(actions) && Reaches(s, actions, s') ensures !Lost(s', c, fd, dir) {
      if QueueOf(s, c, dir) == [] {
        RunEmpty(s, actions, s', c, fd, dir);
      } else if actions == [] {
        assert Owns(s.conns, c, fd);
        ReplayEffects(s.entries, s.conns, s.pipe, fd, dir);
      } else {
        assert !ByClient(actions[0]) && actions[0] == DoCallbackReturns;
        assert CallbackReturns(s).conns == Popped(s, c, dir).conns;
        assert OnlyWorker(actions[1..]);
        RunEmpty(Step(s, actions[0]), actions[1..], s', c, fd, dir);
      }
    }
  }

  /** The worker can lose the wakeup exactly if the dead entry is exposed, and something is queued
      besides what a running callback is about. */
  lemma DeadEntry(s: State, c: Conn, fd: Fd, dir: Dir)
    requires Dead(s, c, fd) && Wakes(s, c, dir)
    ensures CanLose(s, c, fd, dir) <==> Waiting(s, c, dir) && Exposed(s, c, fd)
  {
    assert Owns(s.conns, c, fd) && Alone(s, c, fd);
    if !Waiting(s, c, dir) {
      LastInFlight(s, c, fd, dir);
    } else if Exposed(s, c, fd) {
      Loses(s, c, fd, dir);
    } else {
      NeverLoses(s, c, fd, dir);
    }
  }

  /** More commands behind the removal. */
  lemma SameExposed(s: State, s': State, c: Conn, fd: Fd)
    requires DelFd(fd) in s.pipe && s.pipe <= s'.pipe
    requires s'.entries == s.entries && s'.pc == s.pc && s'.quit == s.quit
    ensures Exposed(s', c, fd) == Exposed(s, c, fd)
  {
    if Listed(s.entries, fd) {
      var e, tail := EntryOf(s.entries, fd), s'.pipe[|s.pipe|..];
      assert s'.pipe == s.pipe + tail;
      forall dir ensures ExposedIn(s', c, fd, dir) == ExposedIn(s, c, fd, dir) {
        RoundsPrefix(s.pipe, tail, e.Wants(dir) || More(e, dir), e.Wants(dir), c, fd, dir);
        RoundsPrefix(s.pipe, tail, e.Ready(dir), e.Wants(dir), c, fd, dir);
      }
    }
  }

  /** Opened and queued, whoever the list holds the descriptor for. */
  function Reused(s: State, c: Conn, fd: Fd, dir: Dir, op: Op): State {
    Enqueue(SetFd(s, c, fd), c, dir, op)
  }

  /** c is closed and fd is open nowhere: what c may open, were it not for the list. */
  ghost predicate Openable(s: State, c: Conn, fd: Fd) {
    c in s.conns && s.conns[c].fd == CLOSED && fd != CLOSED && forall d :: d in s.conns ==> s.conns[d].fd != fd
  }

  lemma ReusedParts(s: State, c: Conn, fd: Fd, dir: Dir, op: Op)
    requires ConnInv(s) && Openable(s, c, fd)
    ensures var r := Reused(s, c, fd, dir, op);
      && r == s.(conns := r.conns, hist := r.hist, pipe := s.pipe + [Add(c, dir)])
      && r.conns == s.conns[c := s.conns[c].(fd := fd).With(dir, [op])]
      && (forall d :: Owns(r.conns, d, fd) <==> d == c) && QueueOf(r, c, dir) == [op]
  {
    assert s.conns[c].Queue(dir) == [];
    assert s.conns[c].Queue(dir) + [op] == [op];
  }

  lemma ReusedDead(s: State, c: Conn, fd: Fd, dir: Dir, op: Op)
    requires ListInv(s) && ConnInv(s) && TrackInv(s) && PcTrue(s)
    requires Openable(s, c, fd) && fd in s.fdMap && s.fdMap[fd] !in s.conns
    ensures DelFd(fd) in s.pipe && Dead(Reused(s, c, fd, dir, op), c, fd)
  {
    ReusedParts(s, c, fd, dir, op);
    assert DelFd(fd) in s.pipe;
    assert s.fdMap[fd] != c;
  }

  lemma ReusedWakes(s: State, c: Conn, fd: Fd, dir: Dir, op: Op)
    requires ConnInv(s) && WakeInv(s) && Openable(s, c, fd)
    ensures Wakes(Reused(s, c, fd, dir, op), c, dir)
  {
    SetFdWakes(s, c, fd);
    EnqueueWake(SetFd(s, c, fd), c, dir, op, c, dir);
  }

  lemma ReusedWaiting(s: State, c: Conn, fd: Fd, dir: Dir, op: Op)
    requires ConnInv(s) && HistOk(s, c, dir) && Openable(s, c, fd)
    ensures Waiting(Reused(s, c, fd, dir, op), c, dir)
  {
    ReusedParts(s, c, fd, dir, op);
    assert QueueOf(s, c, dir) == [] && !InFlight(s, c, dir);
  }

  /** In every reachable state: if c opens a descriptor that the list holds for a connection that is
      gone, and queues an operation, then the worker can lose the wakeup exactly if the entry is
      exposed. */
  lemma ReuseLosesWakeup(s: State, c: Conn, fd: Fd, dir: Dir, op: Op)
    requires Reachable(s) && Openable(s, c, fd) && fd in s.fdMap && s.fdMap[fd] !in s.conns
    ensures CanLose(Reused(s, c, fd, dir, op), c, fd, dir) <==> Exposed(s, c, fd)
  {
    ReachableInv(s);
    ReachablePc(s);
    var r := Reused(s, c, fd, dir, op);
    assert HistOk(s, c, dir);
    ReusedParts(s, c, fd, dir, op);
    ReusedDead(s, c, fd, dir, op);
    ReusedWakes(s, c, fd, dir, op);
    ReusedWaiting(s, c, fd, dir, op);
    SameExposed(s, r, c, fd);
    DeadEntry(r, c, fd, dir);
  }

  lemma GoneDead(s: State, gone: Conn, c: Conn, fd: Fd)
    requires ListInv(s) && ConnInv(s) && TrackInv(s) && PcTrue(s)
    requires gone in s.conns && s.conns[gone].fd == CLOSED && fd in s.fdMap && s.fdMap[fd] == gone
    requires Owns(s.conns, c, fd) && !(s.pc.InCallback? && s.pc.conn == gone)
    ensures DelFd(fd) in s.pipe && Dead(Unregister(s, gone, CLOSED), c, fd)
  {
    assert !Owns(s.conns, gone, fd);
    var r := Unregister(s, gone, CLOSED);
    assert r.pipe[..|s.pipe|] == s.pipe && DelFd(fd) in s.pipe;
  }

  lemma GoneWakes(s: State, gone: Conn, c: Conn, fd: Fd, dir: Dir)
    requires WakeInv(s) && gone in s.conns && Owns(s.conns, c, fd) && s.conns[gone].fd == CLOSED != fd
    ensures var r := Unregister(s, gone, CLOSED);
      Wakes(r, c, dir) && QueueOf(r, c, dir) == QueueOf(s, c, dir) && InFlight(r, c, dir) == InFlight(s, c, dir)
  {
    if s.conns[c].Queue(dir) != [] {
      SendWake(s, Unregister(s, gone, CLOSED), c, dir, DelFd(CLOSED));
    }
  }

  /** The other way into it: in every reachable state, if a connection that was closed is unregistered
      while the list still holds its descriptor, and c has opened that meanwhile, then the worker can
      lose what is waiting for c exactly if the entry is exposed. */
  lemma UnregisterLosesWakeup(s: State, gone: Conn, c: Conn, fd: Fd, dir: Dir)
    requires Reachable(s) && gone in s.conns && s.conns[gone].fd == CLOSED && fd in s.fdMap && s.fdMap[fd] == gone
    requires Owns(s.conns, c, fd) && !(s.pc.InCallback? && s.pc.conn == gone)
    ensures CanLose(Unregister(s, gone, CLOSED), c, fd, dir) <==> Waiting(s, c, dir) && Exposed(s, c, fd)
  {
    ReachableInv(s);
    ReachablePc(s);
    var r := Unregister(s, gone, CLOSED);
    GoneDead(s, gone, c, fd);
    GoneWakes(s, gone, c, fd, dir);
    SameExposed(s, r, c, fd);
    DeadEntry(r, c, fd, dir);
  }

  // ---------- Such states ----------

  /** A connection that registered, opened 5 and queued an operation. */
  lemma QueuedReachable() returns (s: State)
    ensures Reachable(s) && s.conns == map[1 := Info(5, [Op(0, 1)], [], false)] && s.pipe == [Add(1, Rx)]
    ensures s.entries == [] && s.fdMap == map[] && s.pc == AtPoll && !s.quit
  {
    assert Reaches(Init(), [], Init());
    StepReaches(Init(), DoRegister(1));
    var s1 := Register(Init(), 1);
    StepReaches(s1, DoSetFd(1, 5));
    var s2 := SetFd(s1, 1, 5);
    assert s1.conns == map[1 := Info(CLOSED, [], [], false)] && s2.conns == map[1 := Info(5, [], [], false)];
    StepReaches(s2, DoEnqueue(1, Rx, Op(0, 1)));
    assert [] + [Op(0, 1)] == [Op(0, 1)] && [] + [Add(1, Rx)] == [Add(1, Rx)];
    s := Enqueue(s2, 1, Rx, Op(0, 1));
  }

  lemma ListedReachable() returns (s: State)
    ensures Reachable(s) && s.conns == map[1 := Info(5, [Op(0, 1)], [], false)] && s.fdMap == map[5 := 1]
    ensures s.entries == [NewEntry(5, Rx)] && s.pipe == [] && s.pc == AtEntry(0) && !s.quit
  {
    var s1 := QueuedReachable();
    StepReaches(s1, DoPollReturns(true, []));
    var s2 := PollReturns(s1, true, []);
    StepReaches(s2, DoDispatch);
    s := Dispatch(s2);
  }

  /** The next poll finds 5 readable. */
  lemma ReadableReachable() returns (s: State)
    ensures Reachable(s) && s.conns == map[1 := Info(5, [Op(0, 1)], [], false)] && s.fdMap == map[5 := 1]
    ensures s.entries == [NewEntry(5, Rx).(readyIn := true)] && s.pipe == [] && s.pc == AtEntry(0) && !s.quit
  {
    var s1 := ListedReachable();
    StepReaches(s1, DoNextEntry);
    var s2 := NextEntry(s1, 0);
    StepReaches(s2, DoHandle(Again));
    var s3 := Handle(s2, Again);
    assert s3.entries == s1.entries;
    StepReaches(s3, DoHandle(Again));
    var s4 := Handle(s3, Again);
    assert s4.entries == s1.entries;
    StepReaches(s4, DoNextEntry);
    var s5 := NextEntry(s4, 1);
    StepReaches(s5, DoPollReturns(false, [(true, false)]));
    s := PollReturns(s5, false, [(true, false)]);
  }

  /** Connection 1 is closed, after a cancel. */
  lemma ClosedReachable(s: State) returns (r: State)
    requires Reachable(s) && s.conns == map[1 := Info(5, [Op(0, 1)], [], false)] && s.pipe == []
    ensures Reachable(r) && r.conns == map[1 := Info(CLOSED, [], [], true)]
    ensures r == s.(conns := r.conns, hist := r.hist, pipe := [DelFd(5)])
  {
    StepReaches(s, DoCancel(1));
    var s1 := Cancel(s, 1);
    assert [] + [DelFd(5)] == [DelFd(5)] && s1.conns[1] == Info(5, [], [], true);
    StepReaches(s1, DoSetFd(1, CLOSED));
    r := SetFd(s1, 1, CLOSED);
  }

  /** Connection 1 is destroyed, so cancelled, closed and unregistered, and connection 2 is made. */
  lemma Destroyed(s: State) returns (r: State)
    requires Reachable(s) && s.conns == map[1 := Info(5, [Op(0, 1)], [], false)] && s.fdMap == map[5 := 1]
    requires s.pipe == [] && s.pc == AtEntry(0)
    ensures Reachable(r) && Openable(r, 2, 5) && 5 in r.fdMap && r.fdMap[5] !in r.conns
    ensures r == s.(conns := r.conns, hist := r.hist, pipe := [DelFd(5)] + [DelFd(CLOSED)])
  {
    var s2 := ClosedReachable(s);
    assert s2.conns - {1} == map[];
    StepReaches(s2, DoUnregister(1, CLOSED));
    var s3 := Unregister(s2, 1, CLOSED);
    StepReaches(s3, DoRegister(2));
    r := Register(s3, 2);
  }

  /** A reachable state from which the wakeup can be lost: connection 1 is destroyed after poll found
      its descriptor readable, and connection 2 opens the same descriptor before the worker comes to it. */
  lemma LosingReachable() returns (s: State)
    ensures Reachable(s) && Openable(s, 2, 5) && 5 in s.fdMap && s.fdMap[5] !in s.conns && Exposed(s, 2, 5)
    ensures CanLose(Reused(s, 2, 5, Rx, Op(1, 1)), 2, 5, Rx)
  {
    var s1 := ReadableReachable();
    s := Destroyed(s1);
    assert ExposedIn(s, 2, 5, Rx);
    ReuseLosesWakeup(s, 2, 5, Rx, Op(1, 1));
  }

  /** And one from which it cannot, whatever the worker does: poll had found nothing. */
  lemma KeepingReachable() returns (s: State)
    ensures Reachable(s) && Openable(s, 2, 5) && 5 in s.fdMap && s.fdMap[5] !in s.conns && !Exposed(s, 2, 5)
    ensures !CanLose(Reused(s, 2, 5, Rx, Op(1, 1)), 2, 5, Rx)
  {
    var s1 := ListedReachable();
    s := Destroyed(s1);
    assert s.pipe[0] == DelFd(5);
    assert !ExposedIn(s, 2, 5, Rx) && !ExposedIn(s, 2, 5, Tx);
    ReuseLosesWakeup(s, 2, 5, Rx, Op(1, 1));
  }

  /** The other way: connection 2 opens the descriptor while the closed connection 1 is registered. */
  lemma OpenedReachable() returns (s: State)
    ensures Reachable(s) && 1 in s.conns && s.conns[1].fd == CLOSED && 5 in s.fdMap && s.fdMap[5] == 1
    ensures Owns(s.conns, 2, 5) && s.pc == AtEntry(0) && Exposed(s, 2, 5)
    ensures CanLose(Unregister(s, 1, CLOSED), 2, 5, Rx)
  {
    var s1 := ReadableReachable();
    var s2 := ClosedReachable(s1);
    StepReaches(s2, DoRegister(2));
    var s3 := Register(s2, 2);
    StepReaches(s3, DoSetFd(2, 5));
    var s4 := SetFd(s3, 2, 5);
    assert s4.conns[2] == Info(5, [], [], false) && s4.conns[1] == Info(CLOSED, [], [], true);
    StepReaches(s4, DoEnqueue(2, Rx, Op(1, 1)));
    s := Enqueue(s4, 2, Rx, Op(1, 1));
    assert s.conns[2] == Info(5, [Op(1, 1)], [], false) && s.pipe[0] == DelFd(5);
    assert ExposedIn(s, 2, 5, Rx);
    UnregisterLosesWakeup(s, 1, 2, 5, Rx);
  }
}
