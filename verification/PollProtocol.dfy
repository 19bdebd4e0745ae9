/** The connection manager of src/uxmpp/io/ConnectionManager.cpp as a state machine.

    Client threads queue operations per connection and send commands through a FIFO pipe; one worker
    applies the commands to its poll list and performs the operations. Every step is what happens
    between taking and releasing the lock of the connection map; callbacks run with the lock
    released, so any client step may come between a callback's start and its return. */
module PollProtocol {

  type Conn = int
  type Fd = int

  const CLOSED: Fd := -1

  datatype Dir = Rx | Tx

  /** A queued operation; the size decides whether more data is expected. */
  datatype Op = Op(id: int, size: nat)

  datatype Info = Info(fd: Fd, rx: seq<Op>, tx: seq<Op>, cancelled: bool) {
    function Queue(dir: Dir): seq<Op> {
      if dir == Rx then rx else tx
    }

    function With(dir: Dir, q: seq<Op>): Info {
      if dir == Rx then this.(rx := q) else this.(tx := q)
    }
  }

  /** Commands in the pipe. Add and Del name a connection, DelFd a descriptor. */
  datatype Cmd = Quit | Add(conn: Conn, dir: Dir) | Del(conn: Conn, dir: Dir) | DelFd(fd: Fd)

  /** A poll list entry with its two more-flags; the entry of the command pipe itself is left out. */
  datatype Entry = Entry(
    fd: Fd,
    pollIn: bool,
    pollOut: bool,
    readyIn: bool,
    readyOut: bool,
    moreIn: bool,
    moreOut: bool)
  {
    predicate Wants(dir: Dir) {
      if dir == Rx then pollIn else pollOut
    }

    predicate Ready(dir: Dir) {
      if dir == Rx then moreIn || readyIn else moreOut || readyOut
    }

    function SetMore(dir: Dir, more: bool): Entry {
      if dir == Rx then this.(moreIn := more) else this.(moreOut := more)
    }

    /** events set or cleared, revents and the more-flag cleared */
    function SetWants(dir: Dir, on: bool): Entry {
      if dir == Rx then this.(pollIn := on, readyIn := false, moreIn := false)
      else this.(pollOut := on, readyOut := false, moreOut := false)
    }
  }

  /** Where the worker is. */
  datatype Pc =
    | AtPoll
    | AtDispatch
    | AtEntry(i: nat)
    | AtHandle(i: nat, dir: Dir, have: bool, haveRx: bool)
    | InCallback(i: nat, dir: Dir, haveRx: bool, conn: Conn, more: bool)
    | Done

  datatype Fate = Completed | Dropped

  /** What happened to the operations of one connection and direction: all that were accepted, the
      fates of those no longer queued, and the positions whose callbacks were called, in call order. */
  datatype History = History(accepted: seq<Op>, fates: seq<Fate>, called: seq<nat>)

  const NO_HISTORY := History([], [], [])

  datatype State = State(
    conns: map<Conn, Info>,
    pipe: seq<Cmd>,
    entries: seq<Entry>,
    fdMap: map<Fd, Conn>,
    pc: Pc,
    quit: bool,
    zero: bool,
    blocking: bool,
    hist: map<(Conn, Dir), History>)

  function Init(): State {
    State(map[], [], [], map[], AtPoll, false, false, true, map[])
  }

  function Hist(s: State, c: Conn, dir: Dir): History {
    if (c, dir) in s.hist then s.hist[(c, dir)] else NO_HISTORY
  }

  function QueueOf(s: State, c: Conn, dir: Dir): seq<Op> {
    if c in s.conns then s.conns[c].Queue(dir) else []
  }

  // ---------- The poll list ----------

  /** The position of a descriptor in the poll list, or the list's length. */
  function IndexOf(entries: seq<Entry>, fd: Fd): (i: nat)
    ensures i <= |entries| && (i < |entries| ==> entries[i].fd == fd)
    ensures forall j :: 0 <= j < i ==> entries[j].fd != fd
  {
    if entries == [] || entries[0].fd == fd then 0 else 1 + IndexOf(entries[1..], fd)
  }

  function NewEntry(fd: Fd, dir: Dir): Entry {
    Entry(fd, dir == Rx, dir == Tx, false, false, false, false)
  }

  /** add_poll_fd on the list */
  function AddEntry(entries: seq<Entry>, fd: Fd, dir: Dir): seq<Entry> {
    var i := IndexOf(entries, fd);
    if i < |entries| then entries[i := entries[i].SetWants(dir, true)] else entries + [NewEntry(fd, dir)]
  }

  /** del_poll_fd for one direction */
  function ClearEntry(entries: seq<Entry>, fd: Fd, dir: Dir): seq<Entry> {
    var i := IndexOf(entries, fd);
    if i < |entries| then entries[i := entries[i].SetWants(dir, false)] else entries
  }

  /** del_poll_fd for a descriptor: the last entry takes its place */
  function RemoveEntry(entries: seq<Entry>, fd: Fd): seq<Entry> {
    var i := IndexOf(entries, fd);
    if i < |entries| then entries[i := entries[|entries| - 1]][..|entries| - 1] else entries
  }

  /** What a command does to the list. */
  function Apply(entries: seq<Entry>, conns: map<Conn, Info>, cmd: Cmd): seq<Entry> {
    match cmd
    case Quit => entries
    case Add(c, dir) =>
      if c !in conns || conns[c].fd == CLOSED then entries else AddEntry(entries, conns[c].fd, dir)
    case Del(c, dir) =>
      if c !in conns || conns[c].fd == CLOSED then entries else ClearEntry(entries, conns[c].fd, dir)
    case DelFd(fd) => RemoveEntry(entries, fd)
  }

  /** What a command does to the map from descriptors to connections. */
  function ApplyMap(s: State, cmd: Cmd): map<Fd, Conn> {
    match cmd
    case Add(c, dir) =>
      if c !in s.conns || s.conns[c].fd == CLOSED || IndexOf(s.entries, s.conns[c].fd) < |s.entries| then s.fdMap
      else s.fdMap[s.conns[c].fd := c]
    case DelFd(fd) => s.fdMap - {fd}
    case _ => s.fdMap
  }

  /** The state once every pending command has been applied, in order. */
  function Drained(s: State): State
    decreases |s.pipe|
  {
    if s.pipe == [] then s
    else
      Drained(s.(pipe := s.pipe[1..], entries := Apply(s.entries, s.conns, s.pipe[0]),
                 fdMap := ApplyMap(s, s.pipe[0])))
  }

  // ---------- Client steps ----------

  function Send(s: State, cmd: Cmd): State {
    s.(pipe := s.pipe + [cmd])
  }

  function Register(s: State, c: Conn): State {
    if c in s.conns then s else s.(conns := s.conns[c := Info(CLOSED, [], [], false)])
  }

  /** Connection::set_fd and the end of Connection::close */
  function SetFd(s: State, c: Conn, fd: Fd): State {
    if c in s.conns then s.(conns := s.conns[c := s.conns[c].(fd := fd)]) else s
  }

  /** read and write */
  function Enqueue(s: State, c: Conn, dir: Dir, op: Op): State {
    if c !in s.conns then s
    else
      var q, h := s.conns[c].Queue(dir), Hist(s, c, dir);
      var s1 := s.(conns := s.conns[c := s.conns[c].With(dir, q + [op])],
                   hist := s.hist[(c, dir) := h.(accepted := h.accepted + [op])]);
      if q == [] then Send(s1, Add(c, dir)) else s1
  }

  function Repeat(f: Fate, n: nat): (r: seq<Fate>)
    ensures |r| == n && forall i :: 0 <= i < n ==> r[i] == f
  {
    seq(n, _ => f)
  }

  /** The operation whose callback is running is at the front of its queue, unless a cancel emptied
      the queue since. */
  predicate InFlight(s: State, c: Conn, dir: Dir) {
    s.pc.InCallback? && s.pc.conn == c && s.pc.dir == dir && c in s.conns && !s.conns[c].cancelled
  }

  /** The history after everything queued is dropped; an operation in flight counts as completed. */
  function DropAll(s: State, c: Conn, dir: Dir): History {
    var h, n := Hist(s, c, dir), |QueueOf(s, c, dir)|;
    if InFlight(s, c, dir) && n > 0 then h.(fates := h.fates + [Completed] + Repeat(Dropped, n - 1))
    else h.(fates := h.fates + Repeat(Dropped, n))
  }

  function Cancel(s: State, c: Conn): State {
    if c !in s.conns then s
    else
      Send(s.(conns := s.conns[c := Info(s.conns[c].fd, [], [], true)],
              hist := s.hist[(c, Rx) := DropAll(s, c, Rx)][(c, Tx) := DropAll(s, c, Tx)]),
           DelFd(s.conns[c].fd))
  }

  /** fd is what the connection has open; also a connection that is not registered asks for its removal. */
  function Unregister(s: State, c: Conn, fd: Fd): State {
    Send(if c !in s.conns then s
         else s.(conns := s.conns - {c},
                 hist := s.hist[(c, Rx) := DropAll(s, c, Rx)][(c, Tx) := DropAll(s, c, Tx)]),
         DelFd(fd))
  }

  // ---------- Worker steps ----------

  /** Entry number i with the revents that poll reports: the wanted events that descriptor is ready for. */
  function Polled(e: Entry, i: nat, ready: seq<(bool, bool)>): Entry {
    if i < |ready| then e.(readyIn := e.pollIn && ready[i].0, readyOut := e.pollOut && ready[i].1)
    else e.(readyIn := false, readyOut := false)
  }

  function SetReady(entries: seq<Entry>, ready: seq<(bool, bool)>): seq<Entry> {
    seq(|entries|, i requires 0 <= i < |entries| => Polled(entries[i], i, ready))
  }

  /** poll returned; the pipe is looked at first */
  function PollReturns(s: State, pipeReady: bool, ready: seq<(bool, bool)>): State {
    s.(entries := SetReady(s.entries, ready), zero := false, pc := if pipeReady then AtDispatch else AtEntry(0))
  }

  /** dispatch_command: at most one command per round */
  function Dispatch(s: State): State {
    if s.pipe == [] then s.(pc := AtEntry(0))
    else
      s.(pipe := s.pipe[1..], entries := Apply(s.entries, s.conns, s.pipe[0]),
         fdMap := ApplyMap(s, s.pipe[0]), quit := s.quit || s.pipe[0] == Quit, pc := AtEntry(0))
  }

  /** The head of the scan loop: next entry, or the end of the pass. */
  function NextEntry(s: State, i: nat): State {
    if i < |s.entries| then
      s.(pc := AtHandle(i, Tx, s.entries[i].Ready(Tx), s.entries[i].Ready(Rx)))
    else s.(blocking := !s.zero, pc := if s.quit then Done else AtPoll)
  }

  /** The result of handling one direction of entry i is stored, and the scan goes on. */
  function Handled(s: State, i: nat, dir: Dir, haveRx: bool, more: bool): State
    requires i < |s.entries|
  {
    s.(entries := s.entries[i := s.entries[i].SetMore(dir, more)], zero := s.zero || more,
       pc := if dir == Tx then AtHandle(i, Rx, haveRx, haveRx) else AtEntry(i + 1))
  }

  /** What do_read or do_write reports: nothing yet (EAGAIN), or a byte count or error. */
  datatype Outcome = Again | Result(n: int)

  /** A size_t has 64 bits; an error result of -1 converts to the largest one. */
  function AsSize(n: int): nat {
    n % 0x1_0000_0000_0000_0000
  }

  /** An entry whose connection is gone: poll ignores it until it is removed. */
  function Silenced(s: State, i: nat): State
    requires i < |s.entries|
  {
    Send(s.(entries := s.entries[i := s.entries[i].(pollIn := false, pollOut := false)]), DelFd(s.entries[i].fd))
  }

  /** An operation was performed and its callback is about to be called. */
  function Started(s: State, c: Conn, i: nat, dir: Dir, haveRx: bool, n: int): State
    requires c in s.conns && s.conns[c].Queue(dir) != []
  {
    var size, h := s.conns[c].Queue(dir)[0].size, Hist(s, c, dir);
    s.(conns := s.conns[c := s.conns[c].(cancelled := false)],
       hist := s.hist[(c, dir) := h.(called := h.called + [|h.fates|])],
       pc := InCallback(i, dir, haveRx, c, size > 0 && AsSize(n) == size))
  }

  /** An operation is performed and has a result. */
  predicate Performs(s: State, outcome: Outcome)
    requires s.pc.AtHandle? && s.pc.i < |s.entries| && s.entries[s.pc.i].fd in s.fdMap
  {
    var c := s.fdMap[s.entries[s.pc.i].fd];
    s.pc.have && c in s.conns && s.conns[c].Queue(s.pc.dir) != [] && outcome.Result?
  }

  /** What handle_poll_io asks for if it performs nothing. */
  function Quiet(s: State): State
    requires s.pc.AtHandle? && s.pc.i < |s.entries| && s.entries[s.pc.i].fd in s.fdMap
  {
    var c := s.fdMap[s.entries[s.pc.i].fd];
    if !s.pc.have then s
    else if c !in s.conns then Silenced(s, s.pc.i)
    else if s.conns[c].Queue(s.pc.dir) == [] then Send(s, Del(c, s.pc.dir))
    else s
  }

  /** The part of handle_poll_io before the callback, or all of it if there is no callback to call. */
  function Handle(s: State, outcome: Outcome): State
    requires s.pc.AtHandle? && s.pc.i < |s.entries| && s.entries[s.pc.i].fd in s.fdMap
  {
    var AtHandle(i, dir, _, haveRx) := s.pc;
    if Performs(s, outcome) then Started(s, s.fdMap[s.entries[i].fd], i, dir, haveRx, outcome.n)
    else Handled(Quiet(s), i, dir, haveRx, false)
  }

  /** The finished operation leaves the queue, unless the queue was cancelled meanwhile. */
  function Popped(s: State, c: Conn, dir: Dir): State
    requires c in s.conns
  {
    var q, h := s.conns[c].Queue(dir), Hist(s, c, dir);
    if q == [] || s.conns[c].cancelled then s
    else s.(conns := s.conns[c := s.conns[c].With(dir, q[1..])],
            hist := s.hist[(c, dir) := h.(fates := h.fates + [Completed])])
  }

  /** The part of handle_poll_io after the callback. */
  function CallbackReturns(s: State): State
    requires s.pc.InCallback? && s.pc.i < |s.entries| && s.pc.conn in s.conns
  {
    var InCallback(i, dir, haveRx, c, more) := s.pc;
    var s1 := Popped(s, c, dir);
    Handled(if s1.conns[c].Queue(dir) == [] then Send(s1, Del(c, dir)) else s1, i, dir, haveRx, more)
  }

  // ---------- Runs ----------

  datatype Action =
    | DoRegister(c: Conn)
    | DoUnregister(c: Conn, fd: Fd)
    | DoSetFd(c: Conn, fd: Fd)
    | DoEnqueue(c: Conn, dir: Dir, op: Op)
    | DoCancel(c: Conn)
    | DoQuit
    | DoPollFails
    | DoPollReturns(pipeReady: bool, ready: seq<(bool, bool)>)
    | DoDispatch
    | DoNextEntry
    | DoHandle(outcome: Outcome)
    | DoCallbackReturns

  /** No connection has a descriptor open that the poll list holds for one that is gone. */
  predicate OwnersLive(conns: map<Conn, Info>, fdMap: map<Fd, Conn>) {
    forall c :: c in conns && conns[c].fd in fdMap ==> fdMap[conns[c].fd] in conns
  }

  /** fd can be what c has open: nothing that a registered connection other than c has open. */
  predicate HasOpen(s: State, c: Conn, fd: Fd) {
    if c in s.conns then fd == s.conns[c].fd else fd == CLOSED || forall d :: d in s.conns ==> s.conns[d].fd != fd
  }

  /** Connection::close: after a cancel, which may still be pending. */
  predicate MayClose(s: State, c: Conn)
    requires c in s.conns
  {
    s.conns[c].rx == [] && s.conns[c].tx == [] && (s.conns[c].fd in s.fdMap ==> DelFd(s.conns[c].fd) in s.pipe)
  }

  /** A descriptor that no connection has open. */
  predicate MayOpen(s: State, c: Conn, fd: Fd)
    requires c in s.conns
  {
    s.conns[c].fd == CLOSED && (forall d :: d in s.conns ==> s.conns[d].fd != fd)
    && OwnersLive(s.conns[c := s.conns[c].(fd := fd)], s.fdMap)
  }

  /** When a step can happen, with what is assumed of clients: operations are queued only on open
      descriptors and a descriptor is closed only after its operations were cancelled; a connection
      is not unregistered while one of its callbacks runs; no connection gets to have a descriptor open
      that the poll list still holds for one that is gone. A descriptor may be reused otherwise. A pipe
      with commands in it is always reported by poll. */
  predicate Enabled(s: State, a: Action) {
    match a
    case DoRegister(c) => true
    case DoUnregister(c, fd) =>
      !(s.pc.InCallback? && s.pc.conn == c) && HasOpen(s, c, fd) && OwnersLive(s.conns - {c}, s.fdMap)
    case DoSetFd(c, fd) => c in s.conns && if fd == CLOSED then MayClose(s, c) else MayOpen(s, c, fd)
    case DoEnqueue(c, dir, op) => c in s.conns ==> s.conns[c].fd != CLOSED
    case DoCancel(c) => true
    case DoQuit => true
    case DoPollFails => s.pc == AtPoll
    case DoPollReturns(pipeReady, _) => s.pc == AtPoll && (s.pipe != [] ==> pipeReady)
    case DoDispatch => s.pc == AtDispatch
    case DoNextEntry => s.pc.AtEntry?
    case DoHandle(_) => s.pc.AtHandle? && s.pc.i < |s.entries| && s.entries[s.pc.i].fd in s.fdMap
    case DoCallbackReturns => s.pc.InCallback? && s.pc.i < |s.entries| && s.pc.conn in s.conns
  }

  /** What can happen does not depend on what happened. */
  lemma EnabledIgnoresHistory(s: State, hist: map<(Conn, Dir), History>, a: Action)
    ensures Enabled(s.(hist := hist), a) == Enabled(s, a)
  {
  }

  function Step(s: State, a: Action): State
    requires Enabled(s, a)
  {
    match a
    case DoRegister(c) => Register(s, c)
    case DoUnregister(c, fd) => Unregister(s, c, fd)
    case DoSetFd(c, fd) => SetFd(s, c, fd)
    case DoEnqueue(c, dir, op) => Enqueue(s, c, dir, op)
    case DoCancel(c) => Cancel(s, c)
    case DoQuit => Send(s, Quit)
    case DoPollFails => s
    case DoPollReturns(pipeReady, ready) => PollReturns(s, pipeReady, ready)
    case DoDispatch => Dispatch(s)
    case DoNextEntry => NextEntry(s, s.pc.i)
    case DoHandle(outcome) => Handle(s, outcome)
    case DoCallbackReturns => CallbackReturns(s)
  }

  /** What client threads do, as opposed to the worker. */
  predicate ByClient(a: Action) {
    a.DoRegister? || a.DoUnregister? || a.DoSetFd? || a.DoEnqueue? || a.DoCancel? || a.DoQuit?
  }

  /** s' is reached from s by a sequence of enabled steps. */
  ghost predicate Reaches(s: State, actions: seq<Action>, s': State)
    decreases |actions|
  {
    if actions == [] then s' == s
    else Enabled(s, actions[0]) && Reaches(Step(s, actions[0]), actions[1..], s')
  }

  /** s can be reached from the start by the steps of clients and worker in some order. */
  ghost predicate Reachable(s: State) {
    exists actions :: Reaches(Init(), actions, s)
  }

  lemma {:induction false} ReachesSnoc(s: State, actions: seq<Action>, s1: State, a: Action)
    requires Reaches(s, actions, s1) && Enabled(s1, a)
    ensures Reaches(s, actions + [a], Step(s1, a))
    decreases |actions|
  {
    if actions == [] {
      assert [a][1..] == [] && Reaches(Step(s1, a), [], Step(s1, a));
      assert actions + [a] == [a];
    } else {
      assert (actions + [a])[1..] == actions[1..] + [a];
      ReachesSnoc(Step(s, actions[0]), actions[1..], s1, a);
    }
  }

  /** One more step. */
  lemma StepReaches(s: State, a: Action)
    requires Reachable(s) && Enabled(s, a)
    ensures Reachable(Step(s, a))
  {
    var actions :| Reaches(Init(), actions, s);
    ReachesSnoc(Init(), actions, s, a);
  }
}
