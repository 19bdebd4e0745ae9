/** What every step of the connection manager keeps: the poll list and its map stay in step, no
    wakeup is lost, the worker never blocks while data may remain, and no operation is lost,
    repeated or overtaken. */
module PollInvariants {
  import opened PollProtocol

  // ---------- The poll list ----------

  predicate Distinct(entries: seq<Entry>) {
    forall i, j :: 0 <= i < j < |entries| ==> entries[i].fd != entries[j].fd
  }

  predicate Listed(entries: seq<Entry>, fd: Fd) {
    IndexOf(entries, fd) < |entries|
  }

  lemma {:induction false} IndexIs(entries: seq<Entry>, i: nat)
    requires Distinct(entries) && i < |entries|
    ensures IndexOf(entries, entries[i].fd) == i
  {
  }

  lemma ListedIff(entries: seq<Entry>, fd: Fd)
    ensures Listed(entries, fd) <==> exists i :: 0 <= i < |entries| && entries[i].fd == fd
  {
  }

  /** The entry of a listed descriptor. */
  function EntryOf(entries: seq<Entry>, fd: Fd): Entry
    requires Listed(entries, fd)
  {
    entries[IndexOf(entries, fd)]
  }

  /** Whether a descriptor is polled in a direction. */
  predicate Armed(entries: seq<Entry>, fd: Fd, dir: Dir) {
    Listed(entries, fd) && EntryOf(entries, fd).Wants(dir)
  }

  /** The same descriptors, except for the entry of one of them. */
  ghost predicate SameBut(a: seq<Entry>, b: seq<Entry>, fd: Fd) {
    forall g: Fd :: g != fd ==> (Listed(a, g) <==> Listed(b, g)) && (Listed(a, g) ==> EntryOf(a, g) == EntryOf(b, g))
  }

  lemma SameOthers(a: seq<Entry>, b: seq<Entry>, fd: Fd, g: Fd, i: nat, j: nat)
    requires Distinct(a) && Distinct(b) && i < |a| && j < |b| && a[i] == b[j] && a[i].fd == g
    ensures Listed(a, g) && Listed(b, g) && EntryOf(a, g) == EntryOf(b, g)
  {
    IndexIs(a, i);
    IndexIs(b, j);
  }

  lemma SetEntry(entries: seq<Entry>, i: nat, e: Entry)
    requires Distinct(entries) && i < |entries| && e.fd == entries[i].fd
    ensures Distinct(entries[i := e]) && SameBut(entries, entries[i := e], e.fd)
    ensures Listed(entries[i := e], e.fd) && EntryOf(entries[i := e], e.fd) == e
  {
    var b := entries[i := e];
    IndexIs(b, i);
    forall g: Fd | g != e.fd
      ensures (Listed(entries, g) <==> Listed(b, g)) && (Listed(entries, g) ==> EntryOf(entries, g) == EntryOf(b, g))
    {
      if Listed(entries, g) {
        SameOthers(entries, b, e.fd, g, IndexOf(entries, g), IndexOf(entries, g));
      }
      if Listed(b, g) {
        SameOthers(b, entries, e.fd, g, IndexOf(b, g), IndexOf(b, g));
      }
    }
  }

  lemma AddEntryKeeps(entries: seq<Entry>, fd: Fd, dir: Dir)
    requires Distinct(entries)
    ensures var b := AddEntry(entries, fd, dir);
      Distinct(b) && SameBut(entries, b, fd) && Listed(b, fd)
      && EntryOf(b, fd) == if Listed(entries, fd) then EntryOf(entries, fd).SetWants(dir, true) else NewEntry(fd, dir)
  {
    var i, b := IndexOf(entries, fd), AddEntry(entries, fd, dir);
    if i < |entries| {
      SetEntry(entries, i, entries[i].SetWants(dir, true));
    } else {
      IndexIs(b, |entries|);
      forall g: Fd | g != fd
        ensures (Listed(entries, g) <==> Listed(b, g)) && (Listed(entries, g) ==> EntryOf(entries, g) == EntryOf(b, g))
      {
        if Listed(entries, g) {
          SameOthers(entries, b, fd, g, IndexOf(entries, g), IndexOf(entries, g));
        }
        if Listed(b, g) {
          SameOthers(b, entries, fd, g, IndexOf(b, g), IndexOf(b, g));
        }
      }
    }
  }

  lemma ClearEntryKeeps(entries: seq<Entry>, fd: Fd, dir: Dir)
    requires Distinct(entries)
    ensures var b := ClearEntry(entries, fd, dir);
      Distinct(b) && SameBut(entries, b, fd) && (Listed(b, fd) <==> Listed(entries, fd))
      && (Listed(b, fd) ==> EntryOf(b, fd) == EntryOf(entries, fd).SetWants(dir, false))
  {
    var i := IndexOf(entries, fd);
    if i < |entries| {
      SetEntry(entries, i, entries[i].SetWants(dir, false));
    }
  }

  /** Removal by swapping with the last entry keeps every other descriptor's entry as it is. */
  lemma RemoveEntryKeeps(entries: seq<Entry>, fd: Fd)
    requires Distinct(entries)
    ensures var b := RemoveEntry(entries, fd); Distinct(b) && SameBut(entries, b, fd) && !Listed(b, fd)
  {
    var i, b, last := IndexOf(entries, fd), RemoveEntry(entries, fd), |entries| - 1;
    if i < |entries| {
      forall g: Fd | g != fd
        ensures (Listed(entries, g) <==> Listed(b, g)) && (Listed(entries, g) ==> EntryOf(entries, g) == EntryOf(b, g))
      {
        if Listed(entries, g) {
          var k := IndexOf(entries, g);
          SameOthers(entries, b, fd, g, k, if k == last then i else k);
        }
        if Listed(b, g) {
          var k := IndexOf(b, g);
          SameOthers(b, entries, fd, g, k, if k == i then last else k);
        }
      }
    }
  }

  /** No descriptor is listed twice, the map's keys are the listed descriptors, and a closed one is not
      among them. */
  ghost predicate ListOk(entries: seq<Entry>, fdMap: map<Fd, Conn>) {
    && Distinct(entries)
    && (forall fd :: fd in fdMap <==> Listed(entries, fd))
    && !Listed(entries, CLOSED)
  }

  ghost predicate ListInv(s: State) {
    ListOk(s.entries, s.fdMap)
  }

  lemma AddKeepsList(s: State, c: Conn, dir: Dir)
    requires ListInv(s)
    ensures ListInv(s.(entries := Apply(s.entries, s.conns, Add(c, dir)), fdMap := ApplyMap(s, Add(c, dir))))
  {
    if c in s.conns && s.conns[c].fd != CLOSED {
      AddEntryKeeps(s.entries, s.conns[c].fd, dir);
    }
  }

  lemma DelKeepsList(s: State, c: Conn, dir: Dir)
    requires ListInv(s)
    ensures ListInv(s.(entries := Apply(s.entries, s.conns, Del(c, dir)), fdMap := ApplyMap(s, Del(c, dir))))
  {
    if c in s.conns && s.conns[c].fd != CLOSED {
      ClearEntryKeeps(s.entries, s.conns[c].fd, dir);
    }
  }

  lemma DelFdKeepsList(s: State, fd: Fd)
    requires ListInv(s)
    ensures ListInv(s.(entries := Apply(s.entries, s.conns, DelFd(fd)), fdMap := ApplyMap(s, DelFd(fd))))
  {
    RemoveEntryKeeps(s.entries, fd);
  }

  /** Every command keeps the list and the map in step. */
  lemma ApplyKeepsList(s: State, cmd: Cmd)
    requires ListInv(s)
    ensures ListInv(s.(entries := Apply(s.entries, s.conns, cmd), fdMap := ApplyMap(s, cmd)))
  {
    match cmd
    case Quit =>
    case Add(c, dir) => AddKeepsList(s, c, dir);
    case Del(c, dir) => DelKeepsList(s, c, dir);
    case DelFd(fd) => DelFdKeepsList(s, fd);
  }

  // ---------- Connections ----------

  /** Open descriptors are distinct, closed connections have nothing queued, and what a connection has
      open is not listed for one that is gone. */
  ghost predicate ConnOk(conns: map<Conn, Info>, fdMap: map<Fd, Conn>) {
    && (forall c, d :: c in conns && d in conns && conns[c].fd == conns[d].fd != CLOSED ==> c == d)
    && (forall c :: c in conns && conns[c].fd == CLOSED ==> conns[c].rx == [] && conns[c].tx == [])
    && OwnersLive(conns, fdMap)
  }

  ghost predicate ConnInv(s: State) {
    ConnOk(s.conns, s.fdMap)
  }

  /** Whether connection c is the one that has fd open. */
  predicate Owns(conns: map<Conn, Info>, c: Conn, fd: Fd) {
    c in conns && conns[c].fd == fd
  }

  /** A listed descriptor is open at the connection it is listed for, or will be removed. */
  ghost predicate TrackOk(conns: map<Conn, Info>, fdMap: map<Fd, Conn>, pipe: seq<Cmd>) {
    forall fd :: fd in fdMap ==> Owns(conns, fdMap[fd], fd) || DelFd(fd) in pipe
  }

  ghost predicate TrackInv(s: State) {
    TrackOk(s.conns, s.fdMap, s.pipe)
  }

  // ---------- Replaying the pipe ----------

  /** What a command does to a descriptor's being polled in a direction. */
  function Effect(armed: bool, conns: map<Conn, Info>, cmd: Cmd, fd: Fd, dir: Dir): bool {
    match cmd
    case Quit => armed
    case Add(c, d) => armed || (d == dir && Owns(conns, c, fd))
    case Del(c, d) => armed && !(d == dir && Owns(conns, c, fd))
    case DelFd(g) => armed && g != fd
  }

  function Effects(armed: bool, conns: map<Conn, Info>, pipe: seq<Cmd>, fd: Fd, dir: Dir): bool
    decreases |pipe|
  {
    if pipe == [] then armed else Effects(Effect(armed, conns, pipe[0], fd, dir), conns, pipe[1..], fd, dir)
  }

  /** The poll list after all pending commands. */
  function Replay(entries: seq<Entry>, conns: map<Conn, Info>, pipe: seq<Cmd>): seq<Entry>
    decreases |pipe|
  {
    if pipe == [] then entries else Replay(Apply(entries, conns, pipe[0]), conns, pipe[1..])
  }

  lemma AddEffect(entries: seq<Entry>, conns: map<Conn, Info>, c: Conn, d: Dir, fd: Fd, dir: Dir)
    requires Distinct(entries) && fd != CLOSED
    ensures Distinct(Apply(entries, conns, Add(c, d)))
    ensures Armed(Apply(entries, conns, Add(c, d)), fd, dir)
         == Effect(Armed(entries, fd, dir), conns, Add(c, d), fd, dir)
  {
    if c in conns && conns[c].fd != CLOSED {
      AddEntryKeeps(entries, conns[c].fd, d);
    }
  }

  lemma DelEffect(entries: seq<Entry>, conns: map<Conn, Info>, c: Conn, d: Dir, fd: Fd, dir: Dir)
    requires Distinct(entries) && fd != CLOSED
    ensures Distinct(Apply(entries, conns, Del(c, d)))
    ensures Armed(Apply(entries, conns, Del(c, d)), fd, dir)
         == Effect(Armed(entries, fd, dir), conns, Del(c, d), fd, dir)
  {
    if c in conns && conns[c].fd != CLOSED {
      ClearEntryKeeps(entries, conns[c].fd, d);
    }
  }

  /** The effect on one descriptor is what the command does to the whole list, seen at that entry. */
  lemma ApplyEffect(entries: seq<Entry>, conns: map<Conn, Info>, cmd: Cmd, fd: Fd, dir: Dir)
    requires Distinct(entries) && fd != CLOSED
    ensures Distinct(Apply(entries, conns, cmd))
    ensures Armed(Apply(entries, conns, cmd), fd, dir) == Effect(Armed(entries, fd, dir), conns, cmd, fd, dir)
  {
    match cmd
    case Quit =>
    case Add(c, d) => AddEffect(entries, conns, c, d, fd, dir);
    case Del(c, d) => DelEffect(entries, conns, c, d, fd, dir);
    case DelFd(g) => RemoveEntryKeeps(entries, g);
  }

  lemma {:induction false} ReplayEffects(entries: seq<Entry>, conns: map<Conn, Info>, pipe: seq<Cmd>, fd: Fd, dir: Dir)
    requires Distinct(entries) && fd != CLOSED
    ensures Armed(Replay(entries, conns, pipe), fd, dir) == Effects(Armed(entries, fd, dir), conns, pipe, fd, dir)
    decreases |pipe|
  {
    if pipe != [] {
      ApplyEffect(entries, conns, pipe[0], fd, dir);
      ReplayEffects(Apply(entries, conns, pipe[0]), conns, pipe[1..], fd, dir);
    }
  }

  lemma {:induction false} EffectsSnoc(armed: bool, conns: map<Conn, Info>, pipe: seq<Cmd>, cmd: Cmd, fd: Fd, dir: Dir)
    ensures Effects(armed, conns, pipe + [cmd], fd, dir)
         == Effect(Effects(armed, conns, pipe, fd, dir), conns, cmd, fd, dir)
    decreases |pipe|
  {
    if pipe == [] {
      assert [cmd][1..] == [];
    } else {
      assert (pipe + [cmd])[1..] == pipe[1..] + [cmd];
      EffectsSnoc(Effect(armed, conns, pipe[0], fd, dir), conns, pipe[1..], cmd, fd, dir);
    }
  }

  lemma {:induction false} EffectsOwners(
    armed: bool, a: map<Conn, Info>, b: map<Conn, Info>, pipe: seq<Cmd>, fd: Fd, dir: Dir)
    requires forall c :: Owns(a, c, fd) <==> Owns(b, c, fd)
    ensures Effects(armed, a, pipe, fd, dir) == Effects(armed, b, pipe, fd, dir)
    decreases |pipe|
  {
    if pipe != [] {
      EffectsOwners(Effect(armed, a, pipe[0], fd, dir), a, b, pipe[1..], fd, dir);
    }
  }

  /** After the pending commands the descriptor of c is polled in direction dir. */
  predicate WillPoll(s: State, c: Conn, dir: Dir)
    requires c in s.conns
  {
    Polls(s.conns, s.pipe, s.entries, c, dir)
  }

  predicate Polls(conns: map<Conn, Info>, pipe: seq<Cmd>, entries: seq<Entry>, c: Conn, dir: Dir)
    requires c in conns
  {
    Effects(Armed(entries, conns[c].fd, dir), conns, pipe, conns[c].fd, dir)
  }

  ghost predicate WakeOk(conns: map<Conn, Info>, pipe: seq<Cmd>, entries: seq<Entry>) {
    forall c, dir :: c in conns && conns[c].Queue(dir) != [] ==> Polls(conns, pipe, entries, c, dir)
  }

  /** No lost wakeup. */
  ghost predicate WakeInv(s: State) {
    WakeOk(s.conns, s.pipe, s.entries)
  }

  // ---------- The scan and its more-flags ----------

  predicate More(e: Entry, dir: Dir) {
    if dir == Rx then e.moreIn else e.moreOut
  }

  predicate AnyMore(e: Entry) {
    e.moreIn || e.moreOut
  }

  /** Some entry before position i has a more-flag. */
  ghost predicate MoreBefore(entries: seq<Entry>, i: nat) {
    exists j :: 0 <= j < i && j < |entries| && AnyMore(entries[j])
  }

  ghost predicate PcInv(s: State) {
    match s.pc
    case AtPoll => s.blocking <==> !MoreBefore(s.entries, |s.entries|)
    case AtDispatch => !s.zero
    case AtEntry(i) => i <= |s.entries| && (s.zero <==> MoreBefore(s.entries, i))
    case AtHandle(i, dir, _, _) =>
      i < |s.entries| && (s.zero <==> MoreBefore(s.entries, i) || (dir == Rx && s.entries[i].moreOut))
    case InCallback(i, dir, _, c, _) =>
      && i < |s.entries| && (s.zero <==> MoreBefore(s.entries, i) || (dir == Rx && s.entries[i].moreOut))
      && c in s.conns
    case Done => true
  }

  // ---------- Histories ----------

  /** The positions of the completed operations. */
  function CompletedAt(fates: seq<Fate>): seq<nat> {
    if fates == [] then []
    else
      var last := |fates| - 1;
      CompletedAt(fates[..last]) + if fates[last] == Completed then [last] else []
  }

  /** A history and the queue it belongs to: what has no fate yet is what is queued, and exactly the
      completed operations, plus one whose callback is running, had their callbacks called. */
  predicate Fits(h: History, q: seq<Op>, inFlight: bool) {
    && |h.fates| <= |h.accepted| && q == h.accepted[|h.fates|..]
    && h.called == CompletedAt(h.fates) + (if inFlight then [|h.fates|] else [])
    && (inFlight ==> q != [])
  }

  predicate HistOk(s: State, c: Conn, dir: Dir) {
    Fits(Hist(s, c, dir), QueueOf(s, c, dir), InFlight(s, c, dir))
  }

  ghost predicate HistInv(s: State) {
    forall c, dir :: HistOk(s, c, dir)
  }

  ghost predicate Inv(s: State) {
    ListInv(s) && ConnInv(s) && WakeInv(s) && TrackInv(s) && PcInv(s) && HistInv(s)
  }
}
