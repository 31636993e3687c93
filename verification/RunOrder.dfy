/**
  Who runs next.  z_schedule links a woken thread right behind the running one, so that it runs
  before the threads that were READY already; of several threads woken together the last one runs
  first.  A thread that blocks or stops itself hands over to the thread before it in the ring.
*/
module RunOrder {
  import opened Links
  import opened DeltaQueue
  import opened Sched
  import opened SchedInv
  import A = Abort
  import opened SchedRuns
  import opened Waits

  function Reversed(w: seq<Id>): seq<Id> {
    if w == [] then [] else Reversed(w[1..]) + [w[0]]
  }

  lemma {:induction false} ReversedAt(w: seq<Id>, k: nat)
    requires k < |w|
    ensures |Reversed(w)| == |w| && Reversed(w)[k] == w[|w| - 1 - k]
  {
    if |w| > 1 {
      ReversedAt(w[1..], if k < |w| - 1 then k else 0);
    }
  }

  /** The threads whose time is up when a slice has passed, in the order of the timeout queue. */
  function Expiring(l: seq<Due>, slice: nat): seq<Id> {
    if l == [] || l[0].left > slice then [] else [l[0].id] + Expiring(l[1..], slice)
  }

  /** The threads a step wakes, in the order in which it does. */
  ghost function WokenBy(s: Sys, step: Step): seq<Id> {
    match step
    case Tick => Expiring(s.timeouts, s.cfg.slice)
    case Handoff(q) => First(Waiters(s, q))
    case HandoffWith(q, _) => First(Waiters(s, q))
    case CancelOne(q) => First(Waiters(s, q))
    case CancelEvery(q) => Waiters(s, q)
    case Notify(_, t, _) => [t]
    case Start(t) => [t]
    case Abort(t) => Waiters(s, A.JoinQueue(t))
    case _ => []
  }

  function First(w: seq<Id>): seq<Id> {
    if w == [] then [] else [w[0]]
  }

  /** The ring r after the threads w were woken in this order. */
  function Wider(r: seq<Id>, w: seq<Id>): seq<Id> {
    if w == [] then r
    else if r == [] then [w[0]] + Reversed(w[1..])
    else [r[0]] + Reversed(w) + r[1..]
  }

  lemma WiderOne(r: seq<Id>, t: Id)
    ensures Wider(r, [t]) == Joined(r, t)
  {
    assert [t][1..] == [];
    assert Reversed([t]) == [] + [t];
    assert r != [] ==> [r[0]] + [t] + r[1..] == [r[0], t] + r[1..];
  }

  lemma WiderNext(r: seq<Id>, w: seq<Id>)
    requires w != []
    ensures Wider(Joined(r, w[0]), w[1..]) == Wider(r, w)
  {
    var j := Joined(r, w[0]);
    if |w| == 1 {
      assert w == [w[0]];
      WiderOne(r, w[0]);
    } else if r == [] {
      assert [w[0]] + Reversed(w[1..]) + [] == [w[0]] + Reversed(w[1..]);
    } else {
      assert j[1..] == [w[0]] + r[1..];
      assert [r[0]] + Reversed(w[1..]) + ([w[0]] + r[1..]) == [r[0]] + (Reversed(w[1..]) + [w[0]]) + r[1..];
    }
  }

  // ----- the loops that wake several threads -----

  lemma {:induction false} CancelAllOrder(s: Sys, q: Id)
    requires Core(s)
    ensures CancelAll(s, q).ring == Wider(s.ring, Waiters(s, q)) && CancelAll(s, q).current == s.current
    decreases |Waiters(s, q)|
  {
    hide Core, Wider, Joined;
    var w := Waiters(s, q);
    if w == [] {
      WiderNone(s.ring);
    } else {
      CancelFirstWakes(s, q);
      CancelFirstKeeps(s, q);
      CancelFirstOn(s, q, w[0]);
      CancelAllOrder(CancelFirst(s, q), q);
      WiderNext(s.ring, w);
    }
  }

  lemma WiderNone(r: seq<Id>)
    ensures Wider(r, []) == r
  {
  }

  lemma {:induction false} UnpendAllOrder(s: Sys, q: Id)
    requires Core(s)
    ensures UnpendAll(s, q).ring == Wider(s.ring, Waiters(s, q)) && UnpendAll(s, q).current == s.current
    decreases |Waiters(s, q)|
  {
    hide Core, Wider, Joined;
    var w := Waiters(s, q);
    if w == [] {
      WiderNone(s.ring);
    } else {
      UnpendWakes(s, q);
      UnpendKeeps(s, q);
      UnpendOn(s, q, w[0]);
      UnpendAllOrder(Unpend(s, q), q);
      WiderNext(s.ring, w);
    }
  }

  lemma {:induction false} DrainOrder(s: Sys)
    requires Core(s)
    ensures Drain(s).ring == Wider(s.ring, Expiring(s.timeouts, 0)) && Drain(s).current == s.current
    decreases |s.timeouts|
  {
    hide RingInv, QueueInv, TcbInv, Wider, Joined;
    var l := s.timeouts;
    if l == [] || l[0].left > 0 {
      WiderNone(s.ring);
    } else {
      ExpireWakes(s);
      ExpireKeeps(s);
      assert Forget(l, l[0].id) == l[1..];
      DrainOrder(Expire(s));
      var w := Expiring(l, 0);
      assert w[1..] == Expiring(l[1..], 0);
      WiderNext(s.ring, w);
    }
  }

  lemma {:induction false} ExpiringAged(l: seq<Due>, slice: nat)
    ensures Expiring(Age(l, slice), 0) == Expiring(l, slice)
  {
    if l != [] {
      assert Age(l, slice)[1..] == Age(l[1..], slice);
      ExpiringAged(l[1..], slice);
    }
  }

  lemma TickOrder(s: Sys)
    requires Inv(s)
    ensures var s' := Do(s, Tick); s'.ring == Wider(s.ring, Expiring(s.timeouts, s.cfg.slice)) && s'.current == s.current
  {
    hide Core, Drain, Age, Expiring, Wider;
    var s0 := s.(timeouts := Age(s.timeouts, s.cfg.slice));
    AgeKeeps(s, s.cfg.slice);
    DrainOrder(s0);
    ExpiringAged(s.timeouts, s.cfg.slice);
  }

  // ----- one step -----

  /** The ring that the woken threads come into: the old one, less a READY thread that is aborted. */
  ghost function Rest(s: Sys, step: Step): seq<Id> {
    if step.Abort? && step.t in s.ring then Drop(s.ring, step.t) else s.ring
  }

  /** The woken threads stand right behind the running thread, the last one first, and the others
      stay in their order. */
  lemma WokenInFront(s: Sys, step: Step)
    requires Inv(s) && Enabled(s, step) && !step.Yield? && !step.Block? && !step.Sleep? && step != Abort(s.current)
    ensures var s' := Do(s, step); s'.current == s.current && s'.ring == Wider(Rest(s, step), WokenBy(s, step))
  {
    hide Core, Wider, Joined, Unpend, CancelFirst, CancelAll, WakeWaiter, Sched.Tick, UnpendAll, Expiring, Drop, Forget;
    var s' := Do(s, step);
    match step
    case Tick => TickOrder(s);
    case Handoff(q) => UnpendOrder(s, q);
    case HandoffWith(q, data) => UnpendOrder(s, q); if Waiters(s, q) == [] { CancelNone(s, q); }
    case CancelOne(q) =>
      if Waiters(s, q) == [] { CancelNone(s, q); WiderNone(s.ring); }
      else { CancelFirstWakes(s, q); WiderOne(s.ring, Waiters(s, q)[0]); }
    case CancelEvery(q) => CancelAllOrder(s, q);
    case Notify(q, t, data) => WakeWaiterWakes(s, q, t, data); WiderOne(s.ring, t);
    case Start(t) => StartWakes(s, t); WiderOne(s.ring, t);
    case Abort(x) => AbortOrder(s, x);
    case SetSwap(_) => WiderNone(s.ring);
  }

  lemma CancelNone(s: Sys, q: Id)
    requires Waiters(s, q) == []
    ensures CancelFirst(s, q) == s && Unpend(s, q) == s
  {
  }

  lemma UnpendOrder(s: Sys, q: Id)
    requires Core(s)
    ensures Unpend(s, q).ring == Wider(s.ring, First(Waiters(s, q))) && Unpend(s, q).current == s.current
  {
    hide Core, Wider, Joined, Unpend;
    if Waiters(s, q) == [] {
      CancelNone(s, q);
      WiderNone(s.ring);
    } else {
      UnpendWakes(s, q);
      WiderOne(s.ring, Waiters(s, q)[0]);
    }
  }

  lemma AbortOrder(s: Sys, x: Id)
    requires Inv(s) && Enabled(s, Abort(x)) && x != s.current
    ensures var s' := Do(s, Abort(x));
            s'.current == s.current && s'.ring == Wider(Rest(s, Abort(x)), Waiters(s, A.JoinQueue(x)))
  {
    hide Wider, Drop, UnpendAll, Core;
    A.HaltedKeeps(s, x);
    HaltedIs(s, x);
    HaltedRing(s, x);
    UnpendAllOrder(A.Halted(s, x), A.JoinQueue(x));
  }

  lemma HaltedRing(s: Sys, x: Id)
    requires Inv(s) && Enabled(s, Abort(x)) && x != s.current
    ensures var s1 := A.Halted(s, x); s1.queues == s.queues && s1.current == s.current && s1.ring == Rest(s, Abort(x))
  {
    hide TimeInv, QueueInv, IndexOf;
  }

  // ----- who runs -----

  /**
    While a READY thread runs, any step of the kernel that wakes threads lets it run on.  Of the
    threads woken, the last one is the first to run after it, then the one woken before that, and
    so on; after them come the threads that were READY already, in their order.
  */
  lemma WokenRunFirst(s: Sys, step: Step, k: nat)
    requires Inv(s) && Enabled(s, step) && Of(s, s.current).state.Ready? && step != Abort(s.current)
    requires !step.Yield? && !step.Block? && !step.Sleep?
    requires var w, r := WokenBy(s, step), Rest(s, step); 1 <= k < |w| + |r|
    ensures var w, r, t := WokenBy(s, step), Rest(s, step), Yields(Do(s, step), k).current;
            r != [] && r[0] == s.current && t == if k <= |w| then w[|w| - k] else r[k - |w|]
  {
    hide Inv, Do, Enabled, Rest, WokenBy, Of, Yields;
    var s', w, r := Do(s, step), WokenBy(s, step), Rest(s, step);
    StepKeeps(s, step);
    WokenInFront(s, step);
    RunsOn(s, step);
    FirstRuns(s');
    WiderAt(r, w, k);
    RoundRobin(s', k);
  }

  lemma WiderAt(r: seq<Id>, w: seq<Id>, k: nat)
    requires r != [] && 1 <= k < |w| + |r|
    ensures |Wider(r, w)| == |w| + |r| && Wider(r, w)[0] == r[0]
    ensures Wider(r, w)[k] == if k <= |w| then w[|w| - k] else r[k - |w|]
  {
    if w != [] {
      ReversedAt(w, if k <= |w| then k - 1 else 0);
    }
  }

  /** The running thread stays READY and first. */
  lemma RunsOn(s: Sys, step: Step)
    requires Inv(s) && Enabled(s, step) && Of(s, s.current).state.Ready? && step != Abort(s.current)
    requires !step.Yield? && !step.Block? && !step.Sleep?
    ensures var s' := Do(s, step); s'.current == s.current && Of(s', s'.current).state.Ready?
    ensures Rest(s, step) != [] && Rest(s, step)[0] == s.current
  {
    hide Do, Enabled, Core, WokenBy, Wider, IndexOf;
    FirstRuns(s);
    WokenInFront(s, step);
    StepKeeps(s, step);
    RestFirst(s, step);
    WiderFirst(Rest(s, step), WokenBy(s, step));
    InRing(Do(s, step));
  }

  lemma WiderFirst(r: seq<Id>, w: seq<Id>)
    ensures Wider(r, w) == [] <==> r == [] && w == []
    ensures Wider(r, w) != [] ==> Wider(r, w)[0] == if r != [] then r[0] else w[0]
  {
  }

  lemma InRing(s: Sys)
    requires Inv(s) && s.ring != []
    ensures s.ring[0] in s.tcbs && s.tcbs[s.ring[0]].state.Ready?
  {
    assert s.ring[0] in s.ring;
  }

  lemma RestFirst(s: Sys, step: Step)
    requires s.ring != [] && s.ring[0] == s.current && step != Abort(s.current)
    ensures Rest(s, step) != [] && Rest(s, step)[0] == s.current
  {
    if step.Abort? && step.t in s.ring {
      var k := IndexOf(s.ring, step.t);
      assert k > 0;
    }
  }

  /** Out of idling, the thread woken first runs next, and then the others, the last one first. */
  lemma WokenFromIdle(s: Sys, step: Step)
    requires Inv(s) && Enabled(s, step) && s.ring == [] && WokenBy(s, step) != [] && step != Abort(s.current)
    requires !step.Yield? && !step.Block? && !step.Sleep?
    ensures var w, s' := WokenBy(s, step), Do(Do(s, step), Yield);
            s'.current == w[0] && s'.ring == [w[0]] + Reversed(w[1..])
  {
    hide Do, Enabled, WokenBy, Core;
    WokenInFront(s, step);
    StepKeeps(s, step);
    EmptyRest(s, step);
    IdleYields(Do(s, step), s);
  }

  lemma EmptyRest(s: Sys, step: Step)
    requires s.ring == []
    ensures Rest(s, step) == []
  {
  }

  lemma IdleYields(s': Sys, s: Sys)
    requires Inv(s') && Inv(s) && s.ring == [] && s'.current == s.current && s'.ring != []
    ensures Do(s', Yield).current == s'.ring[0] && Do(s', Yield).ring == s'.ring
  {
    hide TimeInv, QueueInv;
  }

  /** When the running thread blocks or sleeps, the thread before it in the ring runs next, and the
      others stay in their order; with nobody else READY the idle thread runs. */
  lemma BlockHandsOver(s: Sys, step: Step)
    requires Inv(s) && Enabled(s, step) && (step.Block? || step.Sleep?)
    ensures var s', r := Do(s, step), s.ring;
            && r != [] && r[0] == s.current
            && if |r| == 1 then s'.ring == [] && s'.current == IDLE
               else s'.current == r[|r| - 1] && s'.ring == [r[|r| - 1]] + r[1..|r| - 1]
  {
    hide TimeInv, QueueInv, PendCurrentOn, PendCurrent;
    if step.Block? {
      PendOnKeeps(s, step.q, step.timeout);
    } else {
      PendCurrentPends(s, step.timeout);
    }
  }

  /** The threads that joined an aborted thread are READY, and their joins return 0. */
  lemma JoinersReleased(s: Sys, x: Id, t: Id)
    requires Inv(s) && Enabled(s, Abort(x)) && t in Waiters(s, A.JoinQueue(x))
    ensures var c := Of(Do(s, Abort(x)), t); c.state.Ready? && c.waiting == Null && ReturnCode(c) == 0
  {
    hide RingInv, TimeInv, QueueInv, UnpendAll, A.Halted;
    var s1, q := A.Halted(s, x), A.JoinQueue(x);
    WaiterPends(s, q, t);
    A.HaltedKeeps(s, x);
    HaltedQueues(s, x);
    UnpendAllOn(s1, q, t);
    JoinerApart(s, x, t);
    AbortIs(s, x);
    A.UnpendAllOnly(s1, q, x);
  }

  lemma HaltedQueues(s: Sys, x: Id)
    ensures A.Halted(s, x).queues == s.queues && A.Halted(s, x).current == s.current
  {
  }

  lemma JoinerApart(s: Sys, x: Id, t: Id)
    requires Inv(s) && Enabled(s, Abort(x)) && t in Waiters(s, A.JoinQueue(x))
    ensures t != x && t != s.current
  {
    WaiterPends(s, A.JoinQueue(x), t);
  }

  lemma AbortIs(s: Sys, x: Id)
    ensures var s2 := UnpendAll(A.Halted(s, x), A.JoinQueue(x));
            Sched.Abort(s, x) == if x == s.current then Scheduler(s2) else s2
  {
  }

  /** When the running thread stops itself, the thread before it in the ring runs next; with nobody
      else READY, the first thread that joined it, or else the idle thread. */
  lemma StopHandsOver(s: Sys)
    requires Inv(s) && Enabled(s, Abort(s.current)) && Of(s, s.current).state.Ready?
    ensures var t, r, w := Do(s, Abort(s.current)).current, s.ring, Waiters(s, A.JoinQueue(s.current));
            && r != [] && r[0] == s.current
            && t == if |r| > 1 then r[|r| - 1] else if w != [] then w[0] else IDLE
  {
    hide Core, UnpendAll, A.Halted, Wider;
    var x, q := s.current, A.JoinQueue(s.current);
    var s1 := A.Halted(s, x);
    FirstRuns(s);
    A.HaltedKeeps(s, x);
    HaltedQueues(s, x);
    HaltedSelf(s);
    UnpendAllOrder(s1, q);
    UnpendAllKeeps(s1, q);
    A.UnpendAllOnly(s1, q, x);
    AbortIs(s, x);
    StoppedNow(s, x);
    WiderFirst(s1.ring, Waiters(s, q));
    CursorFirst(UnpendAll(s1, q));
  }

  lemma HaltedSelf(s: Sys)
    requires Of(s, s.current).state.Ready? && s.ring != [] && s.ring[0] == s.current
    ensures A.Halted(s, s.current).ring == Backed(s.ring)
  {
    SuspendBacks(s);
  }

  /** The thread is stopped when z_yield looks for the next one. */
  lemma StoppedNow(s: Sys, x: Id)
    requires Inv(s) && Enabled(s, Abort(x)) && x == s.current
    ensures Of(UnpendAll(A.Halted(s, x), A.JoinQueue(x)), x).state.Stopped?
  {
    hide RingInv, TimeInv, QueueInv, UnpendAll, A.Halted;
    var s1, q := A.Halted(s, x), A.JoinQueue(x);
    A.HaltedKeeps(s, x);
    if x in Waiters(s1, q) {
      WaiterPends(s1, q, x);
    }
    A.UnpendAllOnly(s1, q, x);
  }

  lemma CursorFirst(s: Sys)
    requires Core(s)
    ensures s.cursor == if s.ring == [] then IDLE else s.ring[0]
  {
  }
}
