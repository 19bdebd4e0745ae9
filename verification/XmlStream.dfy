/** The receive queue of src/uxmpp/XmlStream.cpp. A handler pushes objects while the stream runs; one
    thread hands them to the callback that is set at that time, with the lock released, and pops them
    afterwards. The queue outlives a run of the stream. */
module XmlStreams {
  import opened Strings

  /** A callback, by name. */
  type Callback = nat

  /** Where the thread is: not running, at the wait, in the inner loop, or in a callback. */
  datatype Pc = Ended | AtWait | Draining | InCallback

  datatype State<T> = State(running: bool, queue: seq<T>, rxCb: Option<Callback>, pc: Pc)

  /** An object leaves the queue for a callback, or for nothing if none is set. */
  datatype Handed<T> = Handed(obj: T, cb: Option<Callback>)

  datatype Action<T> =
    | Push(obj: T)
    | SetRxCb(cb: Option<Callback>)
    | Stop
    | Run(fromThread: bool)
    | Advance

  function Init<T>(): State<T> {
    State(false, [], None, Ended)
  }

  /** The thread waits only for an object or a stop. A stream is run by one thread at a time; a run
      attempted from a callback or while running fails. */
  predicate Enabled<T>(s: State<T>, a: Action<T>) {
    match a
    case Run(fromThread) => if fromThread then s.pc == InCallback else s.running || s.pc == Ended
    case Advance => s.pc != Ended && !(s.pc == AtWait && s.running && s.queue == [])
    case _ => true
  }

  function Step<T>(s: State<T>, a: Action<T>): State<T> {
    match a
    case Push(x) => if s.running then s.(queue := s.queue + [x]) else s
    case SetRxCb(cb) => s.(rxCb := cb)
    case Stop => s.(running := false)
    case Run(fromThread) => if s.running || fromThread then s else s.(running := true, pc := AtWait)
    case Advance => Next(s)
  }

  function Next<T>(s: State<T>): State<T> {
    match s.pc
    case Ended => s
    case AtWait => s.(pc := if s.running then Draining else Ended)
    case Draining =>
      if s.queue == [] then s.(pc := AtWait)
      else if s.rxCb.Some? then s.(pc := InCallback)
      else s.(queue := s.queue[1..])
    case InCallback => if s.queue == [] then s.(pc := Draining) else s.(queue := s.queue[1..], pc := Draining)
  }

  /** What a step hands out. */
  function Emit<T>(s: State<T>, a: Action<T>): seq<Handed<T>> {
    if a.Advance? && s.pc == Draining && s.queue != [] then [Handed(s.queue[0], s.rxCb)] else []
  }

  function Min(a: nat, b: nat): nat {
    if a < b then a else b
  }

  // ---------- Runs of any number of steps, over any number of runs of the stream ----------

  predicate Legal<T>(actions: seq<Action<T>>) {
    if actions == [] then true
    else
      var n := |actions| - 1;
      Legal(actions[..n]) && Enabled(After(actions[..n]), actions[n])
  }

  function After<T>(actions: seq<Action<T>>): State<T> {
    if actions == [] then Init() else var n := |actions| - 1; Step(After(actions[..n]), actions[n])
  }

  function AllHanded<T>(actions: seq<Action<T>>): seq<Handed<T>> {
    if actions == [] then []
    else var n := |actions| - 1; AllHanded(actions[..n]) + Emit(After(actions[..n]), actions[n])
  }

  // ---------- What the callers asked for, read off the calls alone ----------

  /** Whether the last run that was not refused came after the last stop. */
  predicate Running<T>(actions: seq<Action<T>>) {
    if actions == [] then false
    else
      var n := |actions| - 1;
      match actions[n]
      case Stop => false
      case Run(fromThread) => Running(actions[..n]) || !fromThread
      case _ => Running(actions[..n])
  }

  /** The objects pushed while running, in order. */
  function Accepted<T>(actions: seq<Action<T>>): seq<T> {
    if actions == [] then []
    else
      var n := |actions| - 1;
      Accepted(actions[..n]) + if actions[n].Push? && Running(actions[..n]) then [actions[n].obj] else []
  }

  /** The callback set last. */
  function LastCb<T>(actions: seq<Action<T>>): Option<Callback> {
    if actions == [] then None
    else
      var n := |actions| - 1;
      if actions[n].SetRxCb? then actions[n].cb else LastCb(actions[..n])
  }

  function Objects<T>(handed: seq<Handed<T>>): (r: seq<T>)
    ensures |r| == |handed| && forall i :: 0 <= i < |r| ==> r[i] == handed[i].obj
  {
    seq(|handed|, i requires 0 <= i < |handed| => handed[i].obj)
  }

  // ---------- Conservation ----------

  /** The front object has been handed out but not popped yet. */
  function Unhanded<T>(s: State<T>): seq<T> {
    if s.pc == InCallback && s.queue != [] then s.queue[1..] else s.queue
  }

  /** What a step accepts. */
  function Accepts<T>(s: State<T>, a: Action<T>): seq<T> {
    if a.Push? && s.running then [a.obj] else []
  }

  lemma StepConserves<T>(s: State<T>, a: Action<T>)
    requires Enabled(s, a) && (s.pc == InCallback ==> s.queue != [])
    ensures var s' := Step(s, a);
      (s'.pc == InCallback ==> s'.queue != [])
      && Objects(Emit(s, a)) + Unhanded(s') == Unhanded(s) + Accepts(s, a)
  {
  }

  lemma ObjectsAppend<T>(a: seq<Handed<T>>, b: seq<Handed<T>>)
    ensures Objects(a + b) == Objects(a) + Objects(b)
  {
  }

  lemma Regroup<T>(h: seq<T>, e: seq<T>, u: seq<T>, u': seq<T>, x: seq<T>)
    requires e + u' == u + x
    ensures h + e + u' == h + u + x
  {
    assert h + e + u' == h + (e + u');
    assert h + u + x == h + (u + x);
  }

  /** Receive queue conservation, over all runs of the stream: the objects accepted while running are
      those handed out so far followed by those still queued, in order. So each is handed out at most
      once, whether it was pushed during a callback or left over when a stop came first. */
  lemma {:induction false} Conserved<T>(actions: seq<Action<T>>)
    requires Legal(actions)
    ensures var s := After(actions);
      && (s.pc == InCallback ==> s.queue != [])
      && s.running == Running(actions) && s.rxCb == LastCb(actions)
      && Accepted(actions) == Objects(AllHanded(actions)) + Unhanded(s)
    decreases |actions|
  {
    if actions != [] {
      var before, a := actions[..|actions| - 1], actions[|actions| - 1];
      var s := After(before);
      Conserved(before);
      StepConserves(s, a);
      ObjectsAppend(AllHanded(before), Emit(s, a));
      Regroup(Objects(AllHanded(before)), Objects(Emit(s, a)), Unhanded(s), Unhanded(Step(s, a)), Accepts(s, a));
    }
  }

  /** Each object goes to the callback that was set when it was handed out: before the step that hands
      out number k, exactly k were handed out, and the object is number k of those accepted. */
  lemma {:induction false} HandedToCurrent<T>(actions: seq<Action<T>>, k: nat) returns (t: nat)
    requires Legal(actions) && k < |AllHanded(actions)|
    ensures t < |actions| && |AllHanded(actions[..t])| == k
    ensures k < |Accepted(actions[..t])| && k < |Accepted(actions)|
    ensures AllHanded(actions)[k] == Handed(Accepted(actions[..t])[k], LastCb(actions[..t]))
    ensures Accepted(actions)[k] == Accepted(actions[..t])[k]
    decreases |actions|
  {
    var n := |actions| - 1;
    var before := actions[..n];
    Conserved(actions);
    if k < |AllHanded(before)| {
      t := HandedToCurrent(before, k);
      assert actions[..t] == before[..t];
    } else {
      t := n;
      Conserved(before);
    }
  }

  // ---------- Stopping ----------

  /** The last of some further steps. */
  lemma LastStep<T>(actions: seq<Action<T>>, more: seq<Action<T>>)
    requires Legal(actions + more) && more != []
    ensures var before := actions + more[..|more| - 1];
      && Legal(before) && Enabled(After(before), more[|more| - 1])
      && After(actions + more) == Step(After(before), more[|more| - 1])
  {
    assert (actions + more)[..|actions + more| - 1] == actions + more[..|more| - 1];
  }

  predicate NoRun<T>(actions: seq<Action<T>>) {
    forall i :: 0 <= i < |actions| ==> actions[i].Run? ==> actions[i].fromThread
  }

  /** Stopped, and still at it or done. */
  predicate Emptying<T>(s: State<T>) {
    !s.running && (s.pc == Draining || s.pc == InCallback || s.queue == [])
  }

  lemma StaysEmptying<T>(s: State<T>, a: Action<T>)
    requires Emptying(s) && Enabled(s, a) && !(a.Run? && !a.fromThread)
    ensures Emptying(Step(s, a))
  {
  }

  lemma {:induction false} EmptyingOn<T>(actions: seq<Action<T>>, more: seq<Action<T>>)
    requires Legal(actions + more) && Emptying(After(actions)) && NoRun(more)
    ensures Emptying(After(actions + more))
    decreases |more|
  {
    if more == [] {
      assert actions + more == actions;
    } else {
      LastStep(actions, more);
      EmptyingOn(actions, more[..|more| - 1]);
      StaysEmptying(After(actions + more[..|more| - 1]), more[|more| - 1]);
    }
  }

  /** A stop that comes while the thread is emptying the queue does not cut it short: when the thread
      ends, everything accepted has been handed out. */
  lemma StopWhileDraining<T>(actions: seq<Action<T>>, more: seq<Action<T>>)
    requires Legal(actions + more) && (After(actions).pc == Draining || After(actions).pc == InCallback)
    requires !After(actions).running && NoRun(more)
    ensures var s := After(actions + more);
      !s.running && (s.pc == AtWait || s.pc == Ended ==>
        s.queue == [] && Objects(AllHanded(actions + more)) == Accepted(actions + more))
  {
    EmptyingOn(actions, more);
    Conserved(actions + more);
  }

  /** Steps the thread still takes once the stream is stopped. */
  function StepsLeft<T>(s: State<T>): nat {
    match s.pc
    case Ended => 0
    case AtWait => 1
    case Draining => 2 + 2 * |s.queue|
    case InCallback => 1 + 2 * |s.queue|
  }

  lemma OneStepLess<T>(s: State<T>, a: Action<T>)
    requires !s.running && (s.pc == InCallback ==> s.queue != []) && Enabled(s, a) && !(a.Run? && !a.fromThread)
    ensures !Step(s, a).running && StepsLeft(Step(s, a)) <= StepsLeft(s) - if a.Advance? then 1 else 0
    ensures s.pc != Ended ==> Enabled(s, Advance)
  {
  }

  /** The steps of the thread itself. */
  function Advances<T>(actions: seq<Action<T>>): nat {
    if actions == [] then 0
    else
      var n := |actions| - 1;
      Advances(actions[..n]) + if actions[n].Advance? then 1 else 0
  }

  /** After a stop and until a new run the thread is never stuck, and whatever else happens it has ended
      once it took as many steps as were left: the join at the end of a run returns. */
  lemma {:induction false} StopEndsThread<T>(actions: seq<Action<T>>, more: seq<Action<T>>)
    requires Legal(actions + more) && !After(actions).running && NoRun(more)
    ensures var s := After(actions + more);
      && !s.running && (s.pc == Ended || Enabled(s, Advance))
      && Advances(more) + StepsLeft(s) <= StepsLeft(After(actions))
      && (Advances(more) >= StepsLeft(After(actions)) ==> s.pc == Ended)
    decreases |more|
  {
    if more == [] {
      assert actions + more == actions;
    } else {
      var n := |more| - 1;
      LastStep(actions, more);
      StopEndsThread(actions, more[..n]);
      QueuedInCallback(actions + more[..n]);
      OneStepLess(After(actions + more[..n]), more[n]);
    }
    QueuedInCallback(actions + more);
    assert StepsLeft(After(actions + more)) == 0 ==> After(actions + more).pc == Ended;
  }

  lemma QueuedInCallback<T>(actions: seq<Action<T>>)
    requires Legal(actions)
    ensures var s := After(actions);
      s.pc == InCallback ==> s.queue != []
  {
    Conserved(actions);
  }

  // ---------- Progress ----------

  /** Every stop comes after a step of the thread. */
  predicate NoStopFirst<T>(actions: seq<Action<T>>) {
    if actions == [] then true
    else
      var n := |actions| - 1;
      NoStopFirst(actions[..n]) && (actions[n] == Stop ==> Advances(actions[..n]) > 0)
  }

  /** Of n objects that were queued at the wait, h have been handed out in k steps. */
  predicate Progress<T>(s: State<T>, n: nat, h: int, k: nat) {
    || h >= n
    || (h >= 0 && s.pc == AtWait && s.running && k == 0 && |s.queue| >= n - h)
    || (h >= 0 && s.pc == Draining && 1 <= k <= 1 + 2 * h && |s.queue| >= n - h)
    || (h >= 0 && s.pc == InCallback && 1 <= k <= 2 * h && |s.queue| > n - h)
  }

  lemma StepProgresses<T>(s: State<T>, a: Action<T>, n: nat, h: int, k: nat)
    requires Progress(s, n, h, k) && Enabled(s, a) && (a == Stop ==> k > 0)
    ensures Progress(Step(s, a), n, h + |Emit(s, a)|, k + if a.Advance? then 1 else 0)
  {
  }

  /** Going on from a running stream at the wait: while objects that were queued are left, the thread is
      not stuck, and unless a stop comes before it leaves the wait, it has handed all n of them out, in
      order, once it took 1 + 2n steps, whatever others do. */
  lemma {:induction false} QueuedIsHanded<T>(actions: seq<Action<T>>, more: seq<Action<T>>)
    requires Legal(actions + more) && NoStopFirst(more)
    requires After(actions).running && After(actions).pc == AtWait
    ensures var s, t := After(actions), After(actions + more);
      var n, h := |s.queue|, |AllHanded(actions + more)| - |AllHanded(actions)|;
      && (h < n ==> Enabled(t, Advance)) && Progress(t, n, h, Advances(more))
      && (Advances(more) >= 1 + 2 * n ==> h >= n)
      && (h >= n ==> Objects(AllHanded(actions + more))[|AllHanded(actions)|..][..n] == s.queue)
    decreases |more|
  {
    if more == [] {
      assert actions + more == actions;
    } else {
      var m := |more| - 1;
      LastStep(actions, more);
      QueuedIsHanded(actions, more[..m]);
      LastHanded(actions, more);
      StepProgresses(After(actions + more[..m]), more[m], |After(actions).queue|,
                     |AllHanded(actions + more[..m])| - |AllHanded(actions)|, Advances(more[..m]));
    }
    var n, h := |After(actions).queue|, |AllHanded(actions + more)| - |AllHanded(actions)|;
    assert Progress(After(actions + more), n, h, Advances(more));
    if h >= n {
      LegalPrefix(actions, more);
      HandedInOrder(actions, more, n);
    }
  }

  lemma LastHanded<T>(actions: seq<Action<T>>, more: seq<Action<T>>)
    requires more != []
    ensures var before := actions + more[..|more| - 1];
      AllHanded(actions + more) == AllHanded(before) + Emit(After(before), more[|more| - 1])
  {
    assert (actions + more)[..|actions + more| - 1] == actions + more[..|more| - 1];
  }

  lemma {:induction false} AcceptedGrows<T>(actions: seq<Action<T>>, more: seq<Action<T>>)
    ensures Accepted(actions) <= Accepted(actions + more)
    decreases |more|
  {
    if more == [] {
      assert actions + more == actions;
    } else {
      assert (actions + more)[..|actions + more| - 1] == actions + more[..|more| - 1];
      AcceptedGrows(actions, more[..|more| - 1]);
    }
  }

  /** What is handed out next is what was queued. */
  lemma HandedInOrder<T>(actions: seq<Action<T>>, more: seq<Action<T>>, n: nat)
    requires Legal(actions + more) && Legal(actions) && After(actions).pc != InCallback && n <= |After(actions).queue|
    requires |AllHanded(actions + more)| >= |AllHanded(actions)| + n
    ensures Objects(AllHanded(actions + more))[|AllHanded(actions)|..][..n] == After(actions).queue[..n]
  {
    Conserved(actions);
    Conserved(actions + more);
    AcceptedGrows(actions, more);
    NextHanded(Accepted(actions), Accepted(actions + more), Objects(AllHanded(actions)),
               Objects(AllHanded(actions + more)), After(actions).queue, Unhanded(After(actions + more)), n);
  }

  lemma NextHanded<T>(a: seq<T>, b: seq<T>, h: seq<T>, h': seq<T>, queue: seq<T>, rest: seq<T>, n: nat)
    requires a <= b && a == h + queue && b == h' + rest && |h'| >= |h| + n && n <= |queue|
    ensures h'[|h|..][..n] == queue[..n]
  {
    forall i | 0 <= i < n ensures h'[|h| + i] == queue[i] {
      assert b[|h| + i] == a[|h| + i] == queue[i];
    }
  }

  lemma {:induction false} LegalPrefix<T>(actions: seq<Action<T>>, more: seq<Action<T>>)
    requires Legal(actions + more)
    ensures Legal(actions)
    decreases |more|
  {
    if more == [] {
      assert actions + more == actions;
    } else {
      LastStep(actions, more);
      LegalPrefix(actions, more[..|more| - 1]);
    }
  }

  /** Between the two moments the thread was at the wait, with nothing queued, as often as listed. */
  ghost predicate Waited<T>(actions: seq<Action<T>>, from: seq<Action<T>>, waits: seq<seq<Action<T>>>) {
    forall i :: 0 <= i < |waits| ==>
      from <= waits[i] <= actions && After(waits[i]).pc == AtWait && After(waits[i]).queue == []
  }

  lemma WaitedGrows<T>(actions: seq<Action<T>>, later: seq<Action<T>>, from: seq<Action<T>>,
                       waits: seq<seq<Action<T>>>)
    requires Waited(actions, from, waits) && actions <= later
    ensures Waited(later, from, waits)
  {
  }

  // ---------- The object ----------

  class XmlStream<T(0)> {
    var running: bool
    var rxQueue: seq<T>
    var rxCb: Option<Callback>
    var pc: Pc
    ghost var actions: seq<Action<T>>
    ghost var handed: seq<Handed<T>>

    function Abs(): State<T>
      reads this
    {
      State(running, rxQueue, rxCb, pc)
    }

    ghost predicate Valid()
      reads this
    {
      Legal(actions) && Abs() == After(actions) && handed == AllHanded(actions)
    }

    /** One more step was taken. */
    ghost predicate Took(before: State<T>, steps: seq<Action<T>>, out: seq<Handed<T>>, a: Action<T>)
      reads this
    {
      Enabled(before, a) && actions == steps + [a] && Abs() == Step(before, a) && handed == out + Emit(before, a)
    }

    lemma TookIsValid(before: State<T>, steps: seq<Action<T>>, out: seq<Handed<T>>, a: Action<T>)
      requires Legal(steps) && before == After(steps) && out == AllHanded(steps) && Took(before, steps, out, a)
      ensures Valid()
    {
      assert (steps + [a])[..|steps|] == steps;
    }

    constructor ()
      ensures Valid() && Abs() == Init()
    {
      running, rxQueue, rxCb, pc := false, [], None, Ended;
      actions, handed := [], [];
    }

    /** The handler that the constructor installs. */
    method OnXmlObject(xmlObj: T)
      requires Valid()
      modifies this`rxQueue, this`actions
      ensures Took(old(Abs()), old(actions), old(handed), Push(xmlObj)) && Valid()
    {
      if running {
        rxQueue := rxQueue + [xmlObj];
      }
      actions := actions + [Push(xmlObj)];
      TookIsValid(old(Abs()), old(actions), old(handed), Push(xmlObj));
    }

    method SetCallback(cb: Option<Callback>)
      requires Valid()
      modifies this`rxCb, this`actions
      ensures Took(old(Abs()), old(actions), old(handed), SetRxCb(cb)) && Valid()
    {
      rxCb := cb;
      actions := actions + [SetRxCb(cb)];
      TookIsValid(old(Abs()), old(actions), old(handed), SetRxCb(cb));
    }

    method StopStream()
      requires Valid()
      modifies this`running, this`actions
      ensures Took(old(Abs()), old(actions), old(handed), Stop) && Valid()
    {
      if running {
        running := false;
      }
      actions := actions + [Stop];
      TookIsValid(old(Abs()), old(actions), old(handed), Stop);
    }

    /** The start of run: the thread is created unless the stream already runs or the caller is the
        thread itself. */
    method StartRun(fromThread: bool) returns (started: bool)
      requires Valid() && Enabled(Abs(), Run(fromThread))
      modifies this`running, this`pc, this`actions
      ensures Took(old(Abs()), old(actions), old(handed), Run(fromThread)) && Valid()
      ensures started == old(!running && !fromThread)
    {
      started := !running && !fromThread;
      if started {
        running, pc := true, AtWait;
      }
      actions := actions + [Run(fromThread)];
      TookIsValid(old(Abs()), old(actions), old(handed), Run(fromThread));
    }

    /** Whatever other threads, or the callback, do while the lock is free. */
    method Interfere()
      requires Valid()
      modifies this`running, this`rxQueue, this`rxCb, this`pc, this`actions
      ensures Valid() && pc == old(pc) && old(actions) <= actions
    {
      var calls: nat := *;
      while calls > 0
        invariant Valid() && pc == old(pc) && old(actions) <= actions
      {
        var a: Action<T> := *;
        match a {
          case Push(x) => OnXmlObject(x);
          case SetRxCb(cb) => SetCallback(cb);
          case Stop => StopStream();
          case Run(fromThread) =>
            if Enabled(Abs(), a) && (running || fromThread) {
              var _ := StartRun(fromThread);
            }
          case Advance =>
        }
        calls := calls - 1;
      }
    }

    /** Between unlock and lock: the callback, if one is set, and then the pop. */
    method HandFront()
      requires Valid() && pc == Draining && rxQueue != []
      modifies this
      ensures Valid() && pc == Draining && old(actions) <= actions
      ensures |handed| == |old(handed)| + 1 && handed[..|old(handed)|] == old(handed)
      ensures handed[|old(handed)|] == Handed(old(rxQueue)[0], old(rxCb))
    {
      ghost var before, steps, out := Abs(), actions, handed;
      var xmlObj := rxQueue[0];
      handed := handed + [Handed(xmlObj, rxCb)];
      actions := actions + [Advance];
      if rxCb.None? {
        rxQueue := rxQueue[1..];
        TookIsValid(before, steps, out, Advance);
      } else {
        pc := InCallback;
        TookIsValid(before, steps, out, Advance);
        Interfere();
        Conserved(actions);
        Pop();
      }
    }

    /** rx_queue.pop () once the callback has returned */
    method Pop()
      requires Valid() && pc == InCallback && rxQueue != []
      modifies this`rxQueue, this`pc, this`actions
      ensures Took(old(Abs()), old(actions), old(handed), Advance) && Valid()
    {
      rxQueue, pc := rxQueue[1..], Draining;
      actions := actions + [Advance];
      TookIsValid(old(Abs()), old(actions), old(handed), Advance);
    }

    /** A step of the thread that hands nothing out. */
    method Move(next: Pc)
      requires Valid() && Enabled(Abs(), Advance)
      requires Step(Abs(), Advance) == Abs().(pc := next) && Emit(Abs(), Advance) == []
      modifies this`pc, this`actions
      ensures Took(old(Abs()), old(actions), old(handed), Advance) && Valid()
    {
      pc := next;
      actions := actions + [Advance];
      TookIsValid(old(Abs()), old(actions), old(handed), Advance);
    }

    /** A wait comes only after everything that was queued before has been handed out. */
    lemma HandedBeforeWait(before: seq<Action<T>>)
      requires Valid() && pc == AtWait && rxQueue == [] && before <= actions && Legal(before)
      requires After(before).pc != InCallback
      ensures |handed| >= |AllHanded(before)| + |After(before).queue|
    {
      assert actions == before + actions[|before|..];
      Conserved(before);
      Conserved(actions);
      AcceptedGrows(before, actions[|before|..]);
    }

    /** The inner loop, watched for a number of rounds. */
    method EmptyQueue(rounds: nat) returns (left: nat)
      requires Valid() && pc == Draining && rxQueue != [] && rounds > 0
      modifies this
      ensures Valid() && pc == Draining && old(actions) <= actions && left < rounds
      ensures |handed| == |old(handed)| + rounds - left && (rxQueue == [] || left == 0)
    {
      left := rounds;
      while rxQueue != [] && left > 0
        invariant Valid() && pc == Draining && old(actions) <= actions && left <= rounds
        invariant |handed| == |old(handed)| + rounds - left && (left == rounds ==> rxQueue != [])
        decreases left
      {
        left := left - 1;
        HandFront();
      }
    }

    /** Objects are there: the inner loop, and back to the wait if it is not cut short by the watch. */
    method HandOut(rounds: nat) returns (left: nat)
      requires Valid() && pc == AtWait && running && rxQueue != [] && rounds > 0
      modifies this
      ensures Valid() && old(actions) <= actions && left < rounds && |handed| == |old(handed)| + rounds - left
      ensures (pc == AtWait && rxQueue == []) || (pc == Draining && left == 0)
    {
      Move(Draining);
      left := EmptyQueue(rounds);
      if rxQueue == [] {
        Move(AtWait);
      }
    }

    /** What a watch from a moment on, when `queued` objects were there, has seen in some rounds. */
    ghost predicate Seen(from: seq<Action<T>>, base: nat, queued: nat, waits: seq<seq<Action<T>>>, rounds: int)
      reads this
    {
      && Valid() && from <= actions && |handed| + |waits| == base + rounds && Waited(actions, from, waits)
      && ((waits == [] && rounds == 0) || |handed| >= base + queued)
    }

    /** The wait, with whatever happens meanwhile. */
    method Wait(ghost from: seq<Action<T>>, ghost base: nat, ghost queued: nat,
                ghost waits: seq<seq<Action<T>>>, ghost rounds: nat)
      requires pc == AtWait && Seen(from, base, queued, waits, rounds)
      modifies this`running, this`rxQueue, this`rxCb, this`pc, this`actions
      ensures pc == AtWait && Seen(from, base, queued, waits, rounds)
    {
      Interfere();
      WaitedGrows(old(actions), actions, from, waits);
    }

    /** rx_queue_thread_func, watched for a number of rounds of its loops: each round either waits,
        because nothing is queued, or hands an object out. So the objects that were queued are handed
        out first, one a round, unless a stop comes before the first. If the thread ends while watched,
        it was stopped. */
    method RxQueueThread(rounds: nat) returns (ghost waits: seq<seq<Action<T>>>)
      requires Valid() && pc == AtWait
      modifies this
      ensures Valid() && (pc == Ended ==> !running)
      ensures pc != Ended ==> |handed| + |waits| == |old(handed)| + rounds
      ensures Waited(actions, old(actions), waits)
      ensures (pc == Ended && |handed| == |old(handed)|) || |handed| >= |old(handed)| + Min(rounds, |old(rxQueue)|)
    {
      ghost var from, base, queued := actions, |handed|, |rxQueue|;
      var left := rounds;
      waits := [];
      while running && left > 0
        invariant pc == AtWait && 0 <= left <= rounds && Seen(from, base, queued, waits, rounds - left)
        decreases left
      {
        Wait(from, base, queued, waits, rounds - left);
        if !running {
          break;
        }
        ghost var before := actions;
        if rxQueue == [] {
          HandedBeforeWait(from);
          left := left - 1;
          waits := waits + [actions];
        } else {
          left := HandOut(left);
          WaitedGrows(before, actions, from, waits);
          if pc == Draining {
            return;
          }
          HandedBeforeWait(from);
        }
      }
      if !running {
        ghost var before := actions;
        Move(Ended);
        WaitedGrows(before, actions, from, waits);
      }
    }
  }
}
