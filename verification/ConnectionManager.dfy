/** The connection manager's methods on its maps, queues and arrays: each atomic piece of code takes
    exactly one step of the protocol, so everything proved of reachable states holds of the object,
    whatever the clients do in between. */
module ConnectionManagers {
  import opened PollProtocol
  import opened PollHistory

  /** struct pollfd, with the two events that are used */
  datatype PollFd = PollFd(fd: Fd, pollIn: bool, pollOut: bool, readyIn: bool, readyOut: bool)

  const FDS_SIZE := 8

  /** The command pipe has an entry of its own. */
  const MAX_ENTRIES := FDS_SIZE - 1

  function ToEntry(p: PollFd, rxMore: bool, txMore: bool): Entry {
    Entry(p.fd, p.pollIn, p.pollOut, p.readyIn, p.readyOut, rxMore, txMore)
  }

  function Merge(fds: seq<PollFd>, rx: seq<bool>, tx: seq<bool>): (e: seq<Entry>)
    requires |fds| == |rx| == |tx|
    ensures |e| == |fds| && forall k :: 0 <= k < |e| ==> e[k] == ToEntry(fds[k], rx[k], tx[k])
  {
    seq(|fds|, k requires 0 <= k < |fds| => ToEntry(fds[k], rx[k], tx[k]))
  }

  /** What a call of poll comes to. */
  datatype PollResult = Failed | Returned(pipeReady: bool, ready: seq<(bool, bool)>)

  /** What poll reported, call by call, as far as the steps tell. */
  function Reported(actions: seq<Action>): seq<seq<(bool, bool)>> {
    if actions == [] then []
    else
      var n := |actions| - 1;
      Reported(actions[..n]) + if actions[n].DoPollReturns? then [actions[n].ready] else []
  }

  lemma ReportedSnoc(actions: seq<Action>, a: Action)
    ensures Reported(actions + [a]) == Reported(actions) + if a.DoPollReturns? then [a.ready] else []
  {
    assert (actions + [a])[..|actions|] == actions;
  }

  function Readiness(results: seq<PollResult>): seq<seq<(bool, bool)>> {
    if results == [] then []
    else
      var n := |results| - 1;
      Readiness(results[..n]) + if results[n].Returned? then [results[n].ready] else []
  }

  class ConnectionManager {
    var connections: map<Conn, Info>
    var pollFdMap: map<Fd, Conn>
    var pipe: seq<Cmd>
    var fds: array<PollFd>
    var fdsRxMore: array<bool>
    var fdsTxMore: array<bool>
    var nfds: nat
    var pc: Pc
    var quit: bool
    var zero: bool
    var blocking: bool
    ghost var hist: map<(Conn, Dir), History>
    ghost var taken: seq<Action>

    /** What do_read and do_write report, one after the other, and how many times they were asked. */
    const io: nat -> Outcome
    var asked: nat

    predicate Shape()
      reads this
    {
      && fds.Length == fdsRxMore.Length == fdsTxMore.Length == FDS_SIZE && fdsRxMore != fdsTxMore
      && 1 <= nfds <= FDS_SIZE
    }

    /** The poll list without the command pipe's entry. */
    function Entries(): (e: seq<Entry>)
      requires Shape()
      reads this, fds, fdsRxMore, fdsTxMore
      ensures |e| == nfds - 1
      ensures forall k :: 0 <= k < nfds - 1 ==> e[k] == ToEntry(fds[k + 1], fdsRxMore[k + 1], fdsTxMore[k + 1])
    {
      Merge(fds[1..nfds], fdsRxMore[1..nfds], fdsTxMore[1..nfds])
    }

    ghost function Abs(): State
      requires Shape()
      reads this, fds, fdsRxMore, fdsTxMore
    {
      State(connections, pipe, Entries(), pollFdMap, pc, quit, zero, blocking, hist)
    }

    /** Whether the protocol allows a step now. */
    predicate Possible(a: Action)
      requires Shape()
      reads this, fds, fdsRxMore, fdsTxMore
      ensures Possible(a) == Enabled(Abs(), a)
    {
      var s := State(connections, pipe, Entries(), pollFdMap, pc, quit, zero, blocking, map[]);
      EnabledIgnoresHistory(s, hist, a);
      Enabled(s, a)
    }

    /** The object's state is where the steps taken so far lead. */
    ghost predicate Valid()
      reads this, fds, fdsRxMore, fdsTxMore
    {
      Shape() && Reaches(Init(), taken, Abs())
    }

    constructor (io: nat -> Outcome)
      ensures Valid() && this.io == io && asked == 0 && taken == [] && Abs() == Init()
      ensures fresh(fds) && fresh(fdsRxMore) && fresh(fdsTxMore)
    {
      connections, pollFdMap, pipe, hist, taken := map[], map[], [], map[], [];
      this.io, asked := io, 0;
      fds := new PollFd[FDS_SIZE](_ => PollFd(0, true, false, false, false));
      fdsRxMore := new bool[FDS_SIZE](_ => false);
      fdsTxMore := new bool[FDS_SIZE](_ => false);
      nfds, pc, quit, zero, blocking := 1, AtPoll, false, false, true;
      new;
      assert Reaches(Init(), [], Abs());
    }

    // ---------- The poll list ----------

    /** The search loop of add_poll_fd and both del_poll_fd: the index, or nfds. */
    method FindFd(fd: Fd) returns (i: nat)
      requires Shape()
      ensures 1 <= i <= nfds && i - 1 == IndexOf(Entries(), fd)
    {
      i := 1;
      while i < nfds && fds[i].fd != fd
        invariant 1 <= i <= nfds && forall k :: 1 <= k < i ==> fds[k].fd != fd
      {
        i := i + 1;
      }
      IndexFound(Entries(), fd, i - 1);
    }

    /** events |= poll_op or events &= ~poll_op, revents and the more-flag cleared */
    method SetPoll(i: nat, dir: Dir, on: bool)
      requires Shape() && 1 <= i < nfds
      modifies fds, fdsRxMore, fdsTxMore
      ensures Entries() == old(Entries()[i - 1 := Entries()[i - 1].SetWants(dir, on)])
    {
      if dir == Rx {
        fds[i] := fds[i].(pollIn := on, readyIn := false);
        fdsRxMore[i] := false;
      } else {
        fds[i] := fds[i].(pollOut := on, readyOut := false);
        fdsTxMore[i] := false;
      }
      assert Entries() == old(Entries()[i - 1 := Entries()[i - 1].SetWants(dir, on)]);
    }

    /** A new entry at the end. */
    method AppendEntry(fd: Fd, dir: Dir)
      requires Shape() && nfds < FDS_SIZE
      modifies this`nfds, fds, fdsRxMore, fdsTxMore
      ensures Shape() && Entries() == old(Entries()) + [NewEntry(fd, dir)]
    {
      ghost var before := Entries();
      fds[nfds] := PollFd(fd, dir == Rx, dir == Tx, false, false);
      fdsRxMore[nfds] := false;
      fdsTxMore[nfds] := false;
      nfds := nfds + 1;
      assert Entries() == before + [NewEntry(fd, dir)];
    }

    /** add_poll_fd once the descriptor is known to be open */
    method AddPollFd(conn: Conn, fd: Fd, dir: Dir)
      requires Shape() && |AddEntry(Entries(), fd, dir)| <= MAX_ENTRIES
      modifies this`nfds, this`pollFdMap, fds, fdsRxMore, fdsTxMore
      ensures Shape() && Entries() == AddEntry(old(Entries()), fd, dir)
      ensures pollFdMap == old(if IndexOf(Entries(), fd) < |Entries()| then pollFdMap else pollFdMap[fd := conn])
    {
      var i := FindFd(fd);
      if i < nfds {
        SetPoll(i, dir, true);
      } else {
        AppendEntry(fd, dir);
        pollFdMap := pollFdMap[fd := conn];
      }
    }

    /** del_poll_fd for one direction */
    method DelPollDir(fd: Fd, dir: Dir)
      requires Shape()
      modifies fds, fdsRxMore, fdsTxMore
      ensures Shape() && Entries() == ClearEntry(old(Entries()), fd, dir)
    {
      var i := FindFd(fd);
      if i < nfds {
        SetPoll(i, dir, false);
      }
    }

    /** The last entry takes the place of entry i. */
    method MoveLast(i: nat)
      requires Shape() && 1 <= i < nfds
      modifies this`nfds, fds, fdsRxMore, fdsTxMore
      ensures Shape() && Entries() == old(Entries()[i - 1 := Entries()[|Entries()| - 1]][..|Entries()| - 1])
    {
      ghost var before := Entries();
      fds[i] := fds[nfds - 1];
      fdsRxMore[i] := fdsRxMore[nfds - 1];
      fdsTxMore[i] := fdsTxMore[nfds - 1];
      nfds := nfds - 1;
      LastMoved(before, Entries(), i - 1);
    }

    /** del_poll_fd for a descriptor */
    method DelPollFd(fd: Fd)
      requires Shape()
      modifies this`nfds, this`pollFdMap, fds, fdsRxMore, fdsTxMore
      ensures Shape() && Entries() == RemoveEntry(old(Entries()), fd) && pollFdMap == old(pollFdMap) - {fd}
    {
      var i := FindFd(fd);
      if i < nfds {
        MoveLast(i);
      }
      pollFdMap := pollFdMap - {fd};
    }

    // ---------- Client calls ----------

    /** register_connection */
    method RegisterConnection(c: Conn)
      requires Valid()
      modifies this`taken, this`connections
      ensures Valid() && Abs() == Register(old(Abs()), c)
      ensures taken == old(taken) + [DoRegister(c)]
    {
      ReachesSnoc(Init(), taken, Abs(), DoRegister(c));
      taken := taken + [DoRegister(c)];
      if c !in connections {
        connections := connections[c := Info(CLOSED, [], [], false)];
      }
    }

    /** Connection::set_fd, and fd = -1 at the end of Connection::close */
    method UpdateFd(c: Conn, fd: Fd)
      requires Valid() && Enabled(Abs(), DoSetFd(c, fd))
      modifies this`taken, this`connections
      ensures Valid() && Abs() == SetFd(old(Abs()), c, fd)
      ensures taken == old(taken) + [DoSetFd(c, fd)]
    {
      ReachesSnoc(Init(), taken, Abs(), DoSetFd(c, fd));
      taken := taken + [DoSetFd(c, fd)];
      connections := connections[c := connections[c].(fd := fd)];
    }

    /** read and write */
    method QueueOperation(c: Conn, dir: Dir, op: Op)
      requires Valid() && Enabled(Abs(), DoEnqueue(c, dir, op))
      modifies this`taken, this`connections, this`pipe, this`hist
      ensures Valid() && Abs() == Enqueue(old(Abs()), c, dir, op)
      ensures taken == old(taken) + [DoEnqueue(c, dir, op)]
    {
      ReachesSnoc(Init(), taken, Abs(), DoEnqueue(c, dir, op));
      taken := taken + [DoEnqueue(c, dir, op)];
      if c !in connections {
        return;
      }
      ghost var h := Hist(Abs(), c, dir);
      hist := hist[(c, dir) := h.(accepted := h.accepted + [op])];
      var addFd := connections[c].Queue(dir) == [];
      connections := connections[c := connections[c].With(dir, connections[c].Queue(dir) + [op])];
      if addFd {
        pipe := pipe + [Add(c, dir)];
      }
    }

    /** cancel */
    method CancelOperations(c: Conn)
      requires Valid()
      modifies this`taken, this`connections, this`pipe, this`hist
      ensures Valid() && Abs() == Cancel(old(Abs()), c)
      ensures taken == old(taken) + [DoCancel(c)]
    {
      ReachesSnoc(Init(), taken, Abs(), DoCancel(c));
      taken := taken + [DoCancel(c)];
      if c in connections {
        EmptyQueues(c);
      }
    }

    /** Both queues are emptied, the callback that may be running is told, and polling ends. */
    method EmptyQueues(c: Conn)
      requires Shape() && c in connections
      modifies this`connections, this`pipe, this`hist
      ensures Shape() && Abs() == Cancel(old(Abs()), c)
    {
      hist := hist[(c, Rx) := DropAll(Abs(), c, Rx)][(c, Tx) := DropAll(Abs(), c, Tx)];
      var ci := connections[c];
      while ci.rx != []
        invariant ci == connections[c].(rx := ci.rx)
        decreases |ci.rx|
      {
        ci := ci.(rx := ci.rx[1..]);
      }
      while ci.tx != []
        invariant ci == connections[c].(rx := [], tx := ci.tx)
        decreases |ci.tx|
      {
        ci := ci.(tx := ci.tx[1..]);
      }
      connections := connections[c := ci.(cancelled := true)];
      pipe := pipe + [DelFd(ci.fd)];
    }

    /** unregister_connection of a connection that has fd open */
    method UnregisterConnection(c: Conn, fd: Fd)
      requires Valid() && Enabled(Abs(), DoUnregister(c, fd))
      modifies this`taken, this`connections, this`pipe, this`hist
      ensures Valid() && Abs() == Unregister(old(Abs()), c, fd)
      ensures taken == old(taken) + [DoUnregister(c, fd)]
    {
      ReachesSnoc(Init(), taken, Abs(), DoUnregister(c, fd));
      taken := taken + [DoUnregister(c, fd)];
      EraseConnection(c, fd);
    }

    method EraseConnection(c: Conn, fd: Fd)
      requires Shape()
      modifies this`connections, this`pipe, this`hist
      ensures Shape() && Abs() == Unregister(old(Abs()), c, fd)
    {
      if c in connections {
        hist := hist[(c, Rx) := DropAll(Abs(), c, Rx)][(c, Tx) := DropAll(Abs(), c, Tx)];
        connections := connections - {c};
      }
      pipe := pipe + [DelFd(fd)];
    }

    /** The quit command of the destructor. */
    method SendQuit()
      requires Valid()
      modifies this`taken, this`pipe
      ensures Valid() && Abs() == Send(old(Abs()), Quit)
      ensures taken == old(taken) + [DoQuit]
    {
      ReachesSnoc(Init(), taken, Abs(), DoQuit);
      taken := taken + [DoQuit];
      pipe := pipe + [Quit];
    }

    /** Any number of calls by any client threads while the lock is free. */
    method Interfere()
      requires Valid()
      modifies this`taken, this`connections, this`pipe, this`hist
      ensures Valid() && old(taken) <= taken && Reported(taken) == Reported(old(taken))
    {
      var calls: nat := *;
      while calls > 0
        invariant Valid() && old(taken) <= taken && Reported(taken) == Reported(old(taken))
      {
        var a: Action := *;
        if ByClient(a) && Possible(a) {
          ReportedSnoc(taken, a);
          match a
          case DoRegister(c) => RegisterConnection(c);
          case DoUnregister(c, fd) => UnregisterConnection(c, fd);
          case DoSetFd(c, fd) => UpdateFd(c, fd);
          case DoEnqueue(c, dir, op) => QueueOperation(c, dir, op);
          case DoCancel(c) => CancelOperations(c);
          case DoQuit => SendQuit();
        }
        calls := calls - 1;
      }
    }

    // ---------- The worker ----------

    /** One entry's revents. */
    method StoreEvent(i: nat, readyIn: bool, readyOut: bool)
      requires Shape() && 1 <= i < nfds
      modifies fds
      ensures Entries() == old(Entries()[i - 1 := Entries()[i - 1].(readyIn := readyIn, readyOut := readyOut)])
    {
      fds[i] := fds[i].(readyIn := readyIn, readyOut := readyOut);
      assert Entries() == old(Entries()[i - 1 := Entries()[i - 1].(readyIn := readyIn, readyOut := readyOut)]);
    }

    /** The revents that poll stores. */
    method StoreEvents(ready: seq<(bool, bool)>)
      requires Shape()
      modifies fds
      ensures Entries() == SetReady(old(Entries()), ready)
    {
      ghost var before := Entries();
      for i := 1 to nfds
        invariant forall k :: 0 <= k < i - 1 ==> Entries()[k] == Polled(before[k], k, ready)
        invariant forall k :: i - 1 <= k < nfds - 1 ==> Entries()[k] == before[k]
      {
        if i - 1 < |ready| {
          StoreEvent(i, fds[i].pollIn && ready[i - 1].0, fds[i].pollOut && ready[i - 1].1);
        } else {
          StoreEvent(i, false, false);
        }
      }
    }

    /** poll returned with events */
    method Poll(pipeReady: bool, ready: seq<(bool, bool)>)
      requires Valid() && pc == AtPoll && (pipe != [] ==> pipeReady)
      modifies this`taken, this`pc, this`zero, fds
      ensures Abs() == PollReturns(old(Abs()), pipeReady, ready) && Valid()
      ensures taken == old(taken) + [DoPollReturns(pipeReady, ready)]
    {
      ReachesSnoc(Init(), taken, Abs(), DoPollReturns(pipeReady, ready));
      taken := taken + [DoPollReturns(pipeReady, ready)];
      StoreEvents(ready);
      zero, pc := false, if pipeReady then AtDispatch else AtEntry(0);
    }

    /** What dispatch_command does with a command other than quit. */
    method ApplyCommand(cmd: Cmd)
      requires Shape() && |Apply(Entries(), connections, cmd)| <= MAX_ENTRIES
      modifies this`nfds, this`pollFdMap, fds, fdsRxMore, fdsTxMore
      ensures Shape() && Entries() == Apply(old(Entries()), connections, cmd)
      ensures pollFdMap == ApplyMap(old(Abs()), cmd)
    {
      match cmd
      case Quit =>
      case Add(c, dir) =>
        if c in connections && connections[c].fd != CLOSED {
          AddPollFd(c, connections[c].fd, dir);
        }
      case Del(c, dir) =>
        if c in connections && connections[c].fd != CLOSED {
          DelPollDir(connections[c].fd, dir);
        }
      case DelFd(fd) => DelPollFd(fd);
    }

    /** The next command does not make the list outgrow the arrays. */
    predicate HasRoom()
      requires Shape()
      reads this, fds, fdsRxMore, fdsTxMore
    {
      pipe == [] || |Apply(Entries(), connections, pipe[0])| <= MAX_ENTRIES
    }

    /** dispatch_command */
    method DispatchCommand()
      requires Valid() && pc == AtDispatch && HasRoom()
      modifies this`taken, this`pipe, this`pc, this`quit, this`nfds, this`pollFdMap, fds, fdsRxMore, fdsTxMore
      ensures Shape() && Abs() == Dispatch(old(Abs())) && Valid()
      ensures taken == old(taken) + [DoDispatch]
    {
      ReachesSnoc(Init(), taken, Abs(), DoDispatch);
      taken := taken + [DoDispatch];
      if pipe != [] {
        TakeCommand();
      }
      pc := AtEntry(0);
    }

    /** The first command leaves the pipe and is applied. */
    method TakeCommand()
      requires Shape() && pipe != [] && HasRoom()
      modifies this`pipe, this`quit, this`nfds, this`pollFdMap, fds, fdsRxMore, fdsTxMore
      ensures Shape() && pipe == old(pipe[1..]) && quit == old(quit || pipe[0] == Quit)
      ensures Entries() == Apply(old(Entries()), connections, old(pipe[0]))
      ensures pollFdMap == ApplyMap(old(Abs()), old(pipe[0]))
    {
      var cmd := pipe[0];
      ApplyCommand(cmd);
      pipe := pipe[1..];
      quit := quit || cmd == Quit;
    }

    method SetMoreFlag(i: nat, dir: Dir, more: bool)
      requires Shape() && i < nfds - 1
      modifies fdsRxMore, fdsTxMore
      ensures Entries() == old(Entries()[i := Entries()[i].SetMore(dir, more)])
    {
      if dir == Tx {
        fdsTxMore[i + 1] := more;
      } else {
        fdsRxMore[i + 1] := more;
      }
      assert Entries() == old(Entries()[i := Entries()[i].SetMore(dir, more)]);
    }

    /** The more-flag of one direction of entry i, and the timeout of the next poll. */
    method StoreMore(i: nat, dir: Dir, haveRx: bool, more: bool)
      requires Shape() && i < nfds - 1
      modifies this`pc, this`zero, fdsRxMore, fdsTxMore
      ensures Shape() && Abs() == Handled(old(Abs()), i, dir, haveRx, more)
    {
      SetMoreFlag(i, dir, more);
      zero := zero || more;
      pc := if dir == Tx then AtHandle(i, Rx, haveRx, haveRx) else AtEntry(i + 1);
    }

    /** An entry whose connection is not registered any more. */
    method SilenceEntry(i: nat, dir: Dir, haveRx: bool)
      requires Shape() && i < nfds - 1
      modifies this`pipe, this`pc, this`zero, fds, fdsRxMore, fdsTxMore
      ensures Shape() && Abs() == Handled(Silenced(old(Abs()), i), i, dir, haveRx, false)
    {
      pipe := pipe + [DelFd(fds[i + 1].fd)];
      fds[i + 1] := fds[i + 1].(pollIn := false, pollOut := false);
      assert Abs() == Silenced(old(Abs()), i) by {
        assert Entries() == old(Entries()[i := Entries()[i].(pollIn := false, pollOut := false)]);
      }
      StoreMore(i, dir, haveRx, false);
    }

    /** do_read or do_write had a result: the callback of the first operation is called. */
    method StartOperation(conn: Conn, i: nat, dir: Dir, haveRx: bool, n: int)
      requires Shape() && conn in connections && connections[conn].Queue(dir) != []
      modifies this`connections, this`hist, this`pc
      ensures Shape() && Abs() == Started(old(Abs()), conn, i, dir, haveRx, n)
    {
      var op := connections[conn].Queue(dir)[0];
      ghost var h := Hist(Abs(), conn, dir);
      connections := connections[conn := connections[conn].(cancelled := false)];
      hist := hist[(conn, dir) := h.(called := h.called + [|h.fates|])];
      pc := InCallback(i, dir, haveRx, conn, op.size > 0 && AsSize(n) == op.size);
    }

    /** handle_poll_io on a registered connection, up to the callback */
    method PerformIo(conn: Conn, i: nat, dir: Dir, haveRx: bool, outcome: Outcome)
      requires Shape() && pc == AtHandle(i, dir, true, haveRx) && i < nfds - 1
      requires Entries()[i].fd in pollFdMap && pollFdMap[Entries()[i].fd] == conn && conn in connections
      modifies this`connections, this`pipe, this`hist, this`pc, this`zero, fdsRxMore, fdsTxMore
      ensures Shape() && Abs() == Handle(old(Abs()), outcome)
    {
      if connections[conn].Queue(dir) == [] {
        pipe := pipe + [Del(conn, dir)];
        StoreMore(i, dir, haveRx, false);
      } else if outcome.Again? {
        StoreMore(i, dir, haveRx, false);
      } else {
        StartOperation(conn, i, dir, haveRx, outcome.n);
      }
    }

    /** handle_poll_io up to the callback */
    method BeginPollIo(outcome: Outcome)
      requires Valid() && Enabled(Abs(), DoHandle(outcome))
      modifies this`taken, this`connections, this`pipe, this`hist, this`pc, this`zero, fds, fdsRxMore, fdsTxMore
      ensures Abs() == Handle(old(Abs()), outcome) && Valid()
      ensures taken == old(taken) + [DoHandle(outcome)]
    {
      ReachesSnoc(Init(), taken, Abs(), DoHandle(outcome));
      taken := taken + [DoHandle(outcome)];
      var AtHandle(i, dir, have, haveRx) := pc;
      if !have {
        StoreMore(i, dir, haveRx, false);
        return;
      }
      var conn := pollFdMap[fds[i + 1].fd];
      if conn !in connections {
        SilenceEntry(i, dir, haveRx);
      } else {
        PerformIo(conn, i, dir, haveRx, outcome);
      }
    }

    /** queue.pop (), unless the queue was cancelled meanwhile */
    method PopOperation(conn: Conn, dir: Dir)
      requires Shape() && conn in connections
      modifies this`connections, this`hist
      ensures Shape() && Abs() == Popped(old(Abs()), conn, dir)
    {
      var queue := connections[conn].Queue(dir);
      if queue != [] && !connections[conn].cancelled {
        ghost var h := Hist(Abs(), conn, dir);
        connections := connections[conn := connections[conn].With(dir, queue[1..])];
        hist := hist[(conn, dir) := h.(fates := h.fates + [Completed])];
      }
    }

    /** The pop, and the end of the polling if nothing is left. */
    method FinishOperation(conn: Conn, dir: Dir)
      requires Shape() && conn in connections
      modifies this`connections, this`pipe, this`hist
      ensures Shape() && conn in connections
      ensures Abs() == var s1 := Popped(old(Abs()), conn, dir);
                       if s1.conns[conn].Queue(dir) == [] then Send(s1, Del(conn, dir)) else s1
    {
      PopOperation(conn, dir);
      if connections[conn].Queue(dir) == [] {
        pipe := pipe + [Del(conn, dir)];
      }
    }

    /** handle_poll_io after the callback */
    method EndPollIo()
      requires Valid() && Enabled(Abs(), DoCallbackReturns)
      modifies this`taken, this`connections, this`pipe, this`hist, this`pc, this`zero, fdsRxMore, fdsTxMore
      ensures Abs() == CallbackReturns(old(Abs())) && Valid()
      ensures taken == old(taken) + [DoCallbackReturns]
    {
      ReachesSnoc(Init(), taken, Abs(), DoCallbackReturns);
      taken := taken + [DoCallbackReturns];
      var InCallback(i, dir, haveRx, conn, more) := pc;
      FinishOperation(conn, dir);
      StoreMore(i, dir, haveRx, more);
    }

    /** The head of the scan loop. */
    method AdvanceScan()
      requires Valid() && pc.AtEntry?
      modifies this`taken, this`pc, this`blocking
      ensures Abs() == NextEntry(old(Abs()), old(pc.i)) && Valid()
      ensures pc == AtPoll || pc == Done || (pc.AtHandle? && pc.i == old(pc.i) < nfds - 1 && pc.dir == Tx)
      ensures taken == old(taken) + [DoNextEntry]
    {
      ReachesSnoc(Init(), taken, Abs(), DoNextEntry);
      taken := taken + [DoNextEntry];
      var i := pc.i;
      if i + 1 < nfds {
        var haveTx := fdsTxMore[i + 1] || fds[i + 1].readyOut;
        var haveRx := fdsRxMore[i + 1] || fds[i + 1].readyIn;
        pc := AtHandle(i, Tx, haveTx, haveRx);
      } else {
        blocking := !zero;
        pc := if quit then Done else AtPoll;
      }
    }

    /** One direction of one entry, with the callback and whatever happens during it. */
    method HandlePollIo(i: nat, dir: Dir, have: bool, haveRx: bool)
      requires Valid() && pc == AtHandle(i, dir, have, haveRx)
      modifies this`taken, this`asked, this`connections, this`pipe, this`hist, this`pc, this`zero,
        fds, fdsRxMore, fdsTxMore
      ensures Valid() && pc == if dir == Tx then AtHandle(i, Rx, haveRx, haveRx) else AtEntry(i + 1)
      ensures old(taken) + [DoHandle(io(old(asked)))] <= taken && asked == old(asked) + 1
      ensures Reported(taken) == Reported(old(taken))
    {
      var outcome := io(asked);
      CallIo(outcome);
      if pc.InCallback? {
        RunCallback(outcome);
      }
      asked := asked + 1;
    }

    /** Its first part, which leaves the worker in a callback or moves it on. */
    method CallIo(outcome: Outcome)
      requires Valid() && pc.AtHandle?
      modifies this`taken, this`connections, this`pipe, this`hist, this`pc, this`zero, fds, fdsRxMore, fdsTxMore
      ensures Valid() && taken == old(taken) + [DoHandle(outcome)] && Reported(taken) == Reported(old(taken))
      ensures if pc.InCallback? then pc.i == old(pc.i) && pc.dir == old(pc.dir) && pc.haveRx == old(pc.haveRx)
              else pc == old(if pc.dir == Tx then AtHandle(pc.i, Rx, pc.haveRx, pc.haveRx) else AtEntry(pc.i + 1))
    {
      assert Reachable(Abs());
      WorkerCanStep(Abs(), outcome);
      HandlePc(Abs(), outcome);
      ReportedSnoc(taken, DoHandle(outcome));
      BeginPollIo(outcome);
    }

    /** The callback, during which clients do as they like. */
    method RunCallback(ghost outcome: Outcome)
      requires Valid() && pc.InCallback?
      modifies this`taken, this`connections, this`pipe, this`hist, this`pc, this`zero, fdsRxMore, fdsTxMore
      ensures Valid() && pc == old(if pc.dir == Tx then AtHandle(pc.i, Rx, pc.haveRx, pc.haveRx) else AtEntry(pc.i + 1))
      ensures old(taken) <= taken && Reported(taken) == Reported(old(taken))
    {
      Interfere();
      assert Reachable(Abs());
      WorkerCanStep(Abs(), outcome);
      ReportedSnoc(taken, DoCallbackReturns);
      EndPollIo();
    }

    /** Both directions of one entry, and on to the next. */
    method ScanEntry()
      requires Valid() && pc.AtHandle? && pc.dir == Tx && pc.i < nfds - 1
      modifies this`taken, this`asked, this`connections, this`pipe, this`hist, this`pc, this`zero, this`blocking,
        fds, fdsRxMore, fdsTxMore
      ensures Valid() && Reported(taken) == Reported(old(taken)) && asked == old(asked) + 2
      ensures pc == AtPoll || pc == Done
           || (pc.AtHandle? && pc.i == old(pc.i) + 1 < nfds - 1 && pc.dir == Tx)
    {
      var AtHandle(i, _, haveTx, haveRx) := pc;
      Interfere();
      HandlePollIo(i, Tx, haveTx, haveRx);
      Interfere();
      HandlePollIo(i, Rx, haveRx, haveRx);
      ReportedSnoc(taken, DoNextEntry);
      AdvanceScan();
    }

    /** The loop over the poll list. */
    method ScanEntries()
      requires Valid() && pc == AtEntry(0)
      modifies this`taken, this`asked, this`connections, this`pipe, this`hist, this`pc, this`zero, this`blocking,
        fds, fdsRxMore, fdsTxMore
      ensures Valid() && (pc == AtPoll || pc == Done) && Reported(taken) == Reported(old(taken))
    {
      ReportedSnoc(taken, DoNextEntry);
      AdvanceScan();
      while pc.AtHandle?
        invariant Valid() && (pc.AtHandle? || pc == AtPoll || pc == Done) && Reported(taken) == Reported(old(taken))
        invariant pc.AtHandle? ==> pc.dir == Tx && pc.i < nfds - 1
        decreases if pc.AtHandle? then nfds - pc.i else 0
      {
        ScanEntry();
      }
    }

    /** One round: poll, at most one command, and the pass over the list; false if the command would
        make the list outgrow its arrays. */
    method WorkerRound(pipeReady: bool, ready: seq<(bool, bool)>) returns (on: bool)
      requires Valid() && pc == AtPoll
      modifies this, fds, fdsRxMore, fdsTxMore
      ensures Valid() && fds == old(fds) && fdsRxMore == old(fdsRxMore) && fdsTxMore == old(fdsTxMore)
      ensures if on then pc == AtPoll || pc == Done else pc == AtDispatch && !HasRoom()
      ensures Reported(taken) == Reported(old(taken)) + [ready]
    {
      CallPoll(pipeReady, ready);
      if pc == AtDispatch {
        on := HandleCommand();
        if !on {
          return;
        }
      }
      ScanEntries();
      return true;
    }

    /** poll, which reports the pipe at least if there is something in it */
    method CallPoll(pipeReady: bool, ready: seq<(bool, bool)>)
      requires Valid() && pc == AtPoll
      modifies this`taken, this`pc, this`zero, fds
      ensures Valid() && (pc == AtDispatch || pc == AtEntry(0)) && (pc == AtDispatch <==> pipeReady || pipe != [])
      ensures Reported(taken) == Reported(old(taken)) + [ready]
    {
      var reported := pipeReady || pipe != [];
      ReportedSnoc(taken, DoPollReturns(reported, ready));
      Poll(reported, ready);
    }

    /** The command that the pipe was reported for, unless there is no room for it. */
    method HandleCommand() returns (on: bool)
      requires Valid() && pc == AtDispatch
      modifies this, fds, fdsRxMore, fdsTxMore
      ensures Valid() && fds == old(fds) && fdsRxMore == old(fdsRxMore) && fdsTxMore == old(fdsTxMore)
      ensures if on then pc == AtEntry(0) else pc == AtDispatch && !HasRoom()
      ensures Reported(taken) == Reported(old(taken))
    {
      Interfere();
      on := HasRoom();
      if on {
        ReportedSnoc(taken, DoDispatch);
        DispatchCommand();
      }
    }

    /** run_worker, for as long as the results of poll are given. Each of them that is no failure is
        used, in one round with a whole pass, until the worker ends. */
    method RunWorker(results: seq<PollResult>) returns (used: nat)
      requires Valid() && pc == AtPoll
      modifies this, fds, fdsRxMore, fdsTxMore
      ensures Valid() && used <= |results| && Reported(taken) == Reported(old(taken)) + Readiness(results[..used])
      ensures pc == AtPoll || pc == Done || (pc == AtDispatch && !HasRoom())
      ensures used < |results| ==> pc != AtPoll
    {
      var on := true;
      used := 0;
      assert Readiness(results[..0]) == [];
      while on && pc == AtPoll && used < |results|
        invariant Valid() && fds == old(fds) && fdsRxMore == old(fdsRxMore) && fdsTxMore == old(fdsTxMore)
        invariant used <= |results| && Reported(taken) == Reported(old(taken)) + Readiness(results[..used])
        invariant if on then pc == AtPoll || pc == Done else pc == AtDispatch && !HasRoom()
        decreases |results| - used
      {
        ReadinessNext(results, used);
        on := UseResult(results[used]);
        used := used + 1;
      }
    }

    /** The wait in poll, and the round that follows if it does not fail. */
    method UseResult(result: PollResult) returns (on: bool)
      requires Valid() && pc == AtPoll
      modifies this, fds, fdsRxMore, fdsTxMore
      ensures Valid() && fds == old(fds) && fdsRxMore == old(fdsRxMore) && fdsTxMore == old(fdsTxMore)
      ensures if on then pc == AtPoll || pc == Done else pc == AtDispatch && !HasRoom()
      ensures Reported(taken) == Reported(old(taken)) + if result.Returned? then [result.ready] else []
    {
      Interfere();
      on := true;
      if result.Returned? {
        on := WorkerRound(result.pipeReady, result.ready);
      }
    }
  }

  lemma ReadinessNext(results: seq<PollResult>, n: nat)
    requires n < |results|
    ensures var more := if results[n].Returned? then [results[n].ready] else [];
      Readiness(results[..n + 1]) == Readiness(results[..n]) + more
  {
    assert results[..n + 1][..n] == results[..n];
  }

  /** Where handling one direction leaves the worker, with and without a callback. */
  lemma HandlePc(s: State, outcome: Outcome)
    requires Enabled(s, DoHandle(outcome))
    ensures var pc := Handle(s, outcome).pc;
      if pc.InCallback? then pc.i == s.pc.i && pc.dir == s.pc.dir && pc.haveRx == s.pc.haveRx
      else pc == if s.pc.dir == Tx then AtHandle(s.pc.i, Rx, s.pc.haveRx, s.pc.haveRx) else AtEntry(s.pc.i + 1)
  {
  }

  /** The list after entry i was overwritten by the last one, which then left. */
  lemma LastMoved(a: seq<Entry>, b: seq<Entry>, i: nat)
    requires i < |a| && |b| == |a| - 1
    requires forall k :: 0 <= k < |b| ==> b[k] == if k == i then a[|a| - 1] else a[k]
    ensures b == a[i := a[|a| - 1]][..|a| - 1]
  {
  }

  lemma IndexFound(entries: seq<Entry>, fd: Fd, i: nat)
    requires i <= |entries| && (i < |entries| ==> entries[i].fd == fd)
    requires forall k :: 0 <= k < i ==> entries[k].fd != fd
    ensures IndexOf(entries, fd) == i
  {
  }
}
