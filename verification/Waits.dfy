/**
  What happens to one blocked thread over a run of the scheduler: it is woken exactly
  once, the code its wait returns names the cause, and a timeout strikes at exactly the
  tick it was asked for.
*/
module Waits {
  import opened Links
  import opened DeltaQueue
  import opened Sched
  import opened SchedInv
  import A = Abort
  import opened SchedRuns
  import opened Errno

  datatype Cause = NotWoken | Timeout | Canceled | Given

  /** Whether the step makes the blocked thread t READY, and by what. */
  ghost function Woke(s: Sys, step: Step, t: Id): Cause {
    if !Of(s, t).state.Pending? || !Of(Do(s, step), t).state.Ready? then NotWoken
    else if step.Tick? then Timeout
    else if step.CancelOne? || step.CancelEvery? then Canceled
    else Given
  }

  /** What z_pend_current_on returns when the thread runs again. */
  function ReturnCode(c: Tcb): int {
    if c.expired then ETIMEDOUT else if c.canceled then ECANCELED else 0
  }

  function CodeOf(cause: Cause): int {
    match cause
    case Timeout => ETIMEDOUT
    case Canceled => ECANCELED
    case _ => 0
  }

  // ----- the effect of each step on one thread -----

  /** A thread with time left keeps it; the others are woken with the expired flag. */
  lemma {:induction false} DrainOn(s: Sys, t: Id)
    requires Core(s) && t in s.tcbs
    ensures t in Drain(s).tcbs
    ensures t in Times(s.timeouts) && Times(s.timeouts)[t] == 0 ==>
              Of(Drain(s), t) == s.tcbs[t].(state := Ready, wakeup := false, waiting := Null, expired := true, clean := s.tcbs[t].waiting == Null && s.tcbs[t].clean)
    ensures !(t in Times(s.timeouts) && Times(s.timeouts)[t] == 0) ==> Of(Drain(s), t) == s.tcbs[t]
    ensures t in Times(Drain(s).timeouts) <==> t in Times(s.timeouts) && Times(s.timeouts)[t] > 0
    ensures t in Times(Drain(s).timeouts) ==> Times(Drain(s).timeouts)[t] == Times(s.timeouts)[t]
    decreases |s.timeouts|
  {
    hide RingInv, QueueInv;
    var l := s.timeouts;
    if l != [] && l[0].left == 0 {
      var x := l[0].id;
      ExpireWakes(s);
      ExpireKeeps(s);
      var s1 := Expire(s);
      assert Forget(l, x) == l[1..];
      DrainOn(s1, t);
    } else if t in Times(l) {
      TimesMember(l, t);
      var i :| 0 <= i < |l| && l[i] == Due(t, Times(l)[t]);
      assert l[0].left <= l[i].left;
    }
  }

  /** The thread's control block and its time left are as they were. */
  ghost predicate Kept(s: Sys, s': Sys, t: Id) {
    && t in s'.tcbs && Of(s', t) == Of(s, t)
    && (t in Times(s'.timeouts) <==> t in Times(s.timeouts))
    && (t in Times(s.timeouts) ==> Times(s'.timeouts)[t] == Times(s.timeouts)[t])
  }

  lemma WokenOthers(s: Sys, x: Id, c: Tcb, t: Id)
    requires Core(s) && t in s.tcbs && t != x
    ensures Kept(s, Woken(s, x, c), t)
  {
    ForgetTimes(s.timeouts, x);
  }

  lemma PendedOthers(s: Sys, timeout: nat, c: Tcb, t: Id)
    requires Core(s) && t in s.tcbs && t != s.current && s.current !in Times(s.timeouts)
    ensures Kept(s, Pended(s, timeout, c), t)
  {
    InsertDueTimes(s.timeouts, s.current, timeout);
  }

  lemma CancelFirstOn(s: Sys, q: Id, t: Id)
    requires Core(s) && t in s.tcbs && Waiters(s, q) != []
    ensures if t == Waiters(s, q)[0]
            then Of(CancelFirst(s, q), t) == s.tcbs[t].(state := Ready, wakeup := false, waiting := Null, clean := true, canceled := true)
            else Kept(s, CancelFirst(s, q), t)
    ensures Waiters(CancelFirst(s, q), q) == Waiters(s, q)[1..]
  {
    CancelFirstWakes(s, q);
    var x := Waiters(s, q)[0];
    if t != x {
      WokenOthers(s, x, s.tcbs[x].(clean := true, canceled := true), t);
    }
  }

  lemma {:induction false} CancelAllOn(s: Sys, q: Id, t: Id)
    requires Core(s) && t in s.tcbs
    ensures t in Waiters(s, q) ==>
              Of(CancelAll(s, q), t) == s.tcbs[t].(state := Ready, wakeup := false, waiting := Null, clean := true, canceled := true)
    ensures t !in Waiters(s, q) ==> Kept(s, CancelAll(s, q), t)
    decreases |Waiters(s, q)|
  {
    if Waiters(s, q) != [] {
      CancelFirstOn(s, q, t);
      CancelFirstKeeps(s, q);
      CancelAllOn(CancelFirst(s, q), q, t);
    }
  }

  lemma UnpendOn(s: Sys, q: Id, t: Id)
    requires Core(s) && t in s.tcbs && Waiters(s, q) != []
    ensures if t == Waiters(s, q)[0]
            then Of(Unpend(s, q), t) == s.tcbs[t].(state := Ready, wakeup := false, waiting := Null, clean := true)
            else Kept(s, Unpend(s, q), t)
    ensures Waiters(Unpend(s, q), q) == Waiters(s, q)[1..]
  {
    UnpendWakes(s, q);
    var x := Waiters(s, q)[0];
    if t != x {
      WokenOthers(s, x, s.tcbs[x].(clean := true), t);
    }
  }

  lemma {:induction false} UnpendAllOn(s: Sys, q: Id, t: Id)
    requires Core(s) && t in s.tcbs
    ensures t in Waiters(s, q) ==>
              Of(UnpendAll(s, q), t) == s.tcbs[t].(state := Ready, wakeup := false, waiting := Null, clean := true)
    ensures t !in Waiters(s, q) ==> Kept(s, UnpendAll(s, q), t)
    decreases |Waiters(s, q)|
  {
    if Waiters(s, q) != [] {
      UnpendOn(s, q, t);
      UnpendKeeps(s, q);
      UnpendAllOn(Unpend(s, q), q, t);
    }
  }

  lemma SchedulerOthers(s: Sys, t: Id)
    requires t in s.tcbs && t != s.current
    ensures Kept(s, Scheduler(s), t)
  {
  }

  lemma HaltedOthers(s: Sys, x: Id, t: Id)
    requires Inv(s) && x in s.tcbs && t in s.tcbs && t != x
    ensures Kept(s, A.Halted(s, x), t)
  {
    if s.tcbs[x].state.Pending? {
      CancelWakeUpForgets(s, x);
      ForgetTimes(s.timeouts, x);
    }
  }

  lemma AbortOthers(s: Sys, x: Id, t: Id)
    requires Inv(s) && Enabled(s, Abort(x)) && t in s.tcbs && t != x && t != s.current
    ensures Kept(s, Do(s, Abort(x)), t) ||
            (s.tcbs[t].state.Pending? &&
             Of(Do(s, Abort(x)), t) == s.tcbs[t].(state := Ready, wakeup := false, waiting := Null, clean := true))
  {
    var s1, q := A.Halted(s, x), A.JoinQueue(x);
    var s2 := UnpendAll(s1, q);
    HaltedOthers(s, x, t);
    A.HaltedKeeps(s, x);
    UnpendAllOn(s1, q, t);
    if t in Waiters(s1, q) { WaiterPends(s1, q, t); }
    A.UnpendAllOnly(s1, q, t);
    if x == s.current { SchedulerOthers(s2, t); }
  }

  /** The effect of a tick on a blocked thread. */
  lemma TickOn(s: Sys, t: Id)
    requires Inv(s) && t in s.tcbs
    ensures t in Do(s, Tick).tcbs
    ensures var l, s' := s.timeouts, Do(s, Tick);
            if t in Times(l) && Times(l)[t] <= s.cfg.slice
            then Of(s', t) == s.tcbs[t].(state := Ready, wakeup := false, waiting := Null, expired := true, clean := s.tcbs[t].waiting == Null && s.tcbs[t].clean)
            else && Of(s', t) == s.tcbs[t] && (t in Times(s'.timeouts) <==> t in Times(l))
                 && (t in Times(l) ==> Times(s'.timeouts)[t] == Times(l)[t] - s.cfg.slice)
  {
    hide Age, Times, Drain, RingInv, QueueInv, Unique, Sorted;
    var s0 := s.(timeouts := Age(s.timeouts, s.cfg.slice));
    AgeKeeps(s, s.cfg.slice);
    assert t in Times(s0.timeouts) <==> t in Times(s.timeouts) by { AgeTimes(s.timeouts, s.cfg.slice); }
    assert t in Times(s.timeouts) ==> Times(s0.timeouts)[t] == Minus(Times(s.timeouts)[t], s.cfg.slice) by {
      AgeTimes(s.timeouts, s.cfg.slice);
    }
    DrainOn(s0, t);
  }

  /** One step, seen by a blocked thread that is not aborted. */
  lemma PendingStep(s: Sys, step: Step, t: Id)
    requires Inv(s) && Enabled(s, step) && t in s.tcbs && s.tcbs[t].state.Pending? && step != Abort(t)
    ensures var s', cause := Do(s, step), Woke(s, step, t);
            && (cause == NotWoken && !step.Tick? ==> Kept(s, s', t))
            && (cause == NotWoken && step.Tick? ==> Of(s', t) == s.tcbs[t])
            && (cause != NotWoken ==> Of(s', t).state.Ready? && ReturnCode(Of(s', t)) == CodeOf(cause))
  {
    match step
    case Yield => SchedulerOthers(s, t);
    case Block(q, tm) =>
      PendOnKeeps(s, q, tm);
      PendedOthers(s, tm, s.tcbs[s.current].(waiting := q, clean := false), t);
    case Sleep(tm) =>
      PendCurrentPends(s, tm);
      PendedOthers(s, tm, s.tcbs[s.current], t);
    case Tick => TickOn(s, t);
    case SetSwap(data) =>
    case Abort(x) => AbortOthers(s, x, t);
    case _ => PendingWake(s, step, t);
  }

  lemma PendingWake(s: Sys, step: Step, t: Id)
    requires Inv(s) && Enabled(s, step) && t in s.tcbs && s.tcbs[t].state.Pending?
    requires step.Handoff? || step.HandoffWith? || step.CancelOne? || step.CancelEvery? || step.Notify? || step.Start?
    ensures Woke(s, step, t) == NotWoken ==> Kept(s, Do(s, step), t)
    ensures Woke(s, step, t) != NotWoken ==> ReturnCode(Of(Do(s, step), t)) == CodeOf(Woke(s, step, t))
  {
    hide RingInv, TimeInv, QueueInv, Unpend, CancelFirst, CancelAll, WakeWaiter, Times, Drop, Forget;
    match step
    case Handoff(q) => if Waiters(s, q) != [] { UnpendOn(s, q, t); } else { UnpendThread(s, q); }
    case HandoffWith(q, data) => if Waiters(s, q) != [] { UnpendOn(s, q, t); UnpendWakes(s, q); }
    case CancelOne(q) => if Waiters(s, q) != [] { CancelFirstOn(s, q, t); } else { CancelStep(s, q); }
    case CancelEvery(q) => CancelAllOn(s, q, t);
    case Notify(q, x, data) =>
      WakeWaiterWakes(s, q, x, data);
      if x != t { WokenOthers(s, x, s.tcbs[x].(clean := false, swap := data), t); }
    case Start(x) =>
      StartWakes(s, x);
      WokenOthers(s, x, s.tcbs[x], t);
  }

  /** One step, seen by a thread that neither runs nor waits: READY, or stopped and not started. */
  lemma BystanderStep(s: Sys, step: Step, t: Id)
    requires Inv(s) && Enabled(s, step) && t in s.tcbs && (s.tcbs[t].state.Ready? || s.tcbs[t].state.Stopped?)
    requires t != s.current && step != Abort(t) && step != Start(t)
    ensures t in Do(s, step).tcbs && Of(Do(s, step), t) == s.tcbs[t]
  {
    hide RingInv, TimeInv, QueueInv, Unpend, CancelFirst, CancelAll, WakeWaiter, Drop, Forget, Sched.Abort, Sched.Tick, Drain, Age;
    NoTimeoutLeft(s, t);
    match step
    case Yield => SchedulerOthers(s, t);
    case Block(q, tm) => PendOnKeeps(s, q, tm);
    case Sleep(tm) => PendCurrentPends(s, tm);
    case Tick => TickOn(s, t);
    case SetSwap(data) =>
    case Abort(x) => AbortOthers(s, x, t);
    case _ => BystanderWake(s, step, t);
  }

  lemma NoTimeoutLeft(s: Sys, t: Id)
    requires Inv(s) && t in s.tcbs && !s.tcbs[t].state.Pending?
    ensures t !in Times(s.timeouts) && forall q :: t !in Waiters(s, q)
  {
    hide RingInv;
    forall q | t in Waiters(s, q) ensures false {
      WaiterPends(s, q, t);
    }
  }

  lemma BystanderWake(s: Sys, step: Step, t: Id)
    requires Inv(s) && Enabled(s, step) && t in s.tcbs && !s.tcbs[t].state.Pending? && step != Start(t)
    requires step.Handoff? || step.HandoffWith? || step.CancelOne? || step.CancelEvery? || step.Notify? || step.Start?
    ensures t in Do(s, step).tcbs && Of(Do(s, step), t) == s.tcbs[t]
  {
    hide RingInv, TimeInv, QueueInv, Unpend, CancelFirst, CancelAll, WakeWaiter, Times, Drop, Forget;
    NoTimeoutLeft(s, t);
    match step
    case Handoff(q) => if Waiters(s, q) != [] { UnpendOn(s, q, t); } else { UnpendThread(s, q); }
    case HandoffWith(q, data) => if Waiters(s, q) != [] { UnpendOn(s, q, t); UnpendWakes(s, q); }
    case CancelOne(q) => if Waiters(s, q) != [] { CancelFirstOn(s, q, t); } else { CancelStep(s, q); }
    case CancelEvery(q) => CancelAllOn(s, q, t);
    case Notify(q, x, data) =>
      WakeWaiterWakes(s, q, x, data);
      WokenOthers(s, x, s.tcbs[x].(clean := false, swap := data), t);
    case Start(x) =>
      StartWakes(s, x);
      WokenOthers(s, x, s.tcbs[x], t);
  }

  /** k_thread_abort of another thread changes nothing of it but that it is stopped: it goes on
      where it was when it is started again. */
  lemma AbortedThread(s: Sys, t: Id)
    requires Inv(s) && Enabled(s, Abort(t)) && t != s.current
    ensures t in Do(s, Abort(t)).tcbs && Of(Do(s, Abort(t)), t) == s.tcbs[t].(state := Stopped, wakeup := false)
  {
    hide RingInv, TimeInv, QueueInv, A.Halted;
    var s1, q := A.Halted(s, t), A.JoinQueue(t);
    A.HaltedKeeps(s, t);
    if t in Waiters(s1, q) {
      WaiterPends(s1, q, t);
    }
    A.UnpendAllOnly(s1, q, t);
    HaltedIs(s, t);
  }

  lemma HaltedIs(s: Sys, t: Id)
    requires t != s.current
    ensures Sched.Abort(s, t) == UnpendAll(A.Halted(s, t), A.JoinQueue(t))
  {
  }

  // ----- whole waits -----

  /** Step i of the run is a blocking call of t. */
  ghost predicate BlocksAt(ss: seq<Sys>, steps: seq<Step>, i: nat, t: Id) {
    Run(ss, steps) && i < |steps| && ss[i].current == t && (steps[i].Block? || steps[i].Sleep?)
  }

  /** From step i to state j the thread t does not run and is not aborted. */
  ghost predicate Away(ss: seq<Sys>, steps: seq<Step>, i: nat, j: nat, t: Id) {
    i < j < |ss| <= |steps| + 1 && forall k :: i < k < j ==> ss[k].current != t && steps[k] != Abort(t)
  }

  ghost predicate StillBlocked(ss: seq<Sys>, steps: seq<Step>, i: nat, j: nat, t: Id)
    requires i < j < |ss| <= |steps| + 1
  {
    && t in ss[j].tcbs && Of(ss[j], t).state.Pending?
    && forall k :: i < k < j ==> Woke(ss[k], steps[k], t) == NotWoken
  }

  /** Between steps i and j, step k and no other woke t, and the code t will return says why. */
  ghost predicate WokenOnceBy(ss: seq<Sys>, steps: seq<Step>, i: nat, j: nat, t: Id, k: nat)
    requires i < j < |ss| <= |steps| + 1
  {
    && i < k < j
    && Woke(ss[k], steps[k], t) != NotWoken
    && (forall m :: i < m < j && m != k ==> Woke(ss[m], steps[m], t) == NotWoken)
    && t in ss[j].tcbs && Of(ss[j], t).state.Ready?
    && ReturnCode(Of(ss[j], t)) == CodeOf(Woke(ss[k], steps[k], t))
  }

  lemma BlockedThen(s: Sys, step: Step)
    requires Inv(s) && Enabled(s, step) && (step.Block? || step.Sleep?)
    ensures var t, s' := s.current, Do(s, step);
            && t in s'.tcbs && Of(s', t).state.Pending? && s'.current != t
            && (step.timeout != s.cfg.forever ==> t in Times(s'.timeouts) && Times(s'.timeouts)[t] == step.timeout)
  {
    InsertDueTimes(s.timeouts, s.current, step.timeout);
    if step.Block? {
      PendOnKeeps(s, step.q, step.timeout);
    } else {
      PendCurrentPends(s, step.timeout);
    }
    BackedMembers(s.ring);
    var r := Backed(s.ring);
    assert r != [] ==> r[0] in r;
  }

  lemma BlockedStep(ss: seq<Sys>, steps: seq<Step>, i: nat, j: nat, t: Id)
    requires Run(ss, steps) && Away(ss, steps, i, j + 1, t) && i < j && StillBlocked(ss, steps, i, j, t)
    ensures StillBlocked(ss, steps, i, j + 1, t) || WokenOnceBy(ss, steps, i, j + 1, t, j)
  {
    RunInv(ss, steps, j);
    PendingStep(ss[j], steps[j], t);
    hide Do, Woke;
    assert ss[j + 1] == Do(ss[j], steps[j]);
  }

  lemma WokenStep(ss: seq<Sys>, steps: seq<Step>, i: nat, j: nat, t: Id, k: nat)
    requires Run(ss, steps) && Away(ss, steps, i, j + 1, t) && i < j && WokenOnceBy(ss, steps, i, j, t, k)
    ensures WokenOnceBy(ss, steps, i, j + 1, t, k)
  {
    hide Do;
    RunInv(ss, steps, j);
    BystanderStep(ss[j], steps[j], t);
    assert Woke(ss[j], steps[j], t) == NotWoken;
    hide Woke;
    assert ss[j + 1] == Do(ss[j], steps[j]);
  }

  lemma {:induction false} WaitGoesOn(ss: seq<Sys>, steps: seq<Step>, i: nat, j: nat, t: Id) returns (k: nat)
    requires BlocksAt(ss, steps, i, t) && Away(ss, steps, i, j, t)
    ensures StillBlocked(ss, steps, i, j, t) || WokenOnceBy(ss, steps, i, j, t, k)
    decreases j
  {
    hide Do, Woke;
    k := 0;
    if j == i + 1 {
      RunInv(ss, steps, i);
      BlockedThen(ss[i], steps[i]);
    } else {
      k := WaitGoesOn(ss, steps, i, j - 1, t);
      if StillBlocked(ss, steps, i, j - 1, t) {
        BlockedStep(ss, steps, i, j - 1, t);
        k := j - 1;
      } else {
        WokenStep(ss, steps, i, j - 1, t, k);
      }
    }
  }

  /** Every completed wait has exactly one cause, and its return code names it. */
  lemma WaitHasOneCause(ss: seq<Sys>, steps: seq<Step>, i: nat, j: nat, t: Id) returns (k: nat)
    requires BlocksAt(ss, steps, i, t) && Away(ss, steps, i, j, t) && ss[j].current == t
    ensures WokenOnceBy(ss, steps, i, j, t, k)
  {
    k := WaitGoesOn(ss, steps, i, j, t);
    RunInv(ss, steps, i);
    RunInv(ss, steps, j);
    assert t == IDLE || t in ss[j].ring;
  }

  // ----- the tick at which a timeout strikes -----

  function Ticks(steps: seq<Step>, i: nat, j: nat): nat
    requires i <= j <= |steps|
    decreases j
  {
    if i == j then 0 else Ticks(steps, i, j - 1) + if steps[j - 1].Tick? then 1 else 0
  }

  /** The number of scheduler entries a timeout lasts: one at least, and rounded up. */
  function WaitTicks(timeout: nat, slice: nat): nat
    requires slice >= 1
  {
    if timeout == 0 then 1 else (timeout + slice - 1) / slice
  }

  /** n slices of time. */
  function Spent(n: nat, slice: nat): nat {
    if n == 0 then 0 else Spent(n - 1, slice) + slice
  }

  lemma {:induction false} SpentIsProduct(n: nat, slice: nat)
    ensures Spent(n, slice) == n * slice
  {
    if n > 0 {
      SpentIsProduct(n - 1, slice);
      assert (n - 1) * slice + slice == n * slice;
    }
  }

  lemma {:induction false} SpentMonotone(n: nat, m: nat, slice: nat)
    requires n <= m
    ensures Spent(n, slice) <= Spent(m, slice)
    decreases m
  {
    if n < m {
      SpentMonotone(n, m - 1, slice);
    }
  }

  lemma WaitTicksBounds(timeout: nat, slice: nat)
    requires slice >= 1 && timeout >= 1
    ensures var d := WaitTicks(timeout, slice); d >= 1 && Spent(d - 1, slice) < timeout <= Spent(d, slice)
  {
    var m := timeout + slice - 1;
    var d := m / slice;
    assert d * slice <= m < d * slice + slice;
    assert d >= 1;
    SpentIsProduct(d, slice);
  }

  lemma RoundedUp(timeout: nat, slice: nat, n: nat)
    requires slice >= 1
    ensures n < WaitTicks(timeout, slice) <==> n == 0 || Spent(n, slice) < timeout
  {
    hide Spent, WaitTicks;
    if timeout > 0 {
      WaitTicksBounds(timeout, slice);
      var d := WaitTicks(timeout, slice);
      if n < d {
        SpentMonotone(n, d - 1, slice);
      } else {
        SpentMonotone(d, n, slice);
      }
    } else {
      NoTimeout(slice, n);
    }
  }

  lemma NoTimeout(slice: nat, n: nat)
    requires slice >= 1
    ensures WaitTicks(0, slice) == 1
  {
  }

  /** What is left to a blocked thread after n ticks. */
  lemma {:induction false} TimeLeft(ss: seq<Sys>, steps: seq<Step>, i: nat, j: nat, t: Id)
    requires BlocksAt(ss, steps, i, t) && Away(ss, steps, i, j, t) && StillBlocked(ss, steps, i, j, t)
    requires steps[i].timeout != ss[i].cfg.forever
    ensures var n, l := Ticks(steps, i + 1, j), ss[j].timeouts;
            && t in Times(l) && Times(l)[t] + Spent(n, ss[i].cfg.slice) == steps[i].timeout
            && (n == 0 || Times(l)[t] > 0)
    decreases j
  {
    hide Do, Woke, Inv, Enabled, Times;
    if j == i + 1 {
      RunInv(ss, steps, i);
      BlockedThen(ss[i], steps[i]);
    } else {
      var k := WaitGoesOn(ss, steps, i, j - 1, t);
      TimeLeft(ss, steps, i, j - 1, t);
      RunInv(ss, steps, j - 1);
      RunCfg(ss, steps, i, j - 1);
      LeftAfter(ss[j - 1], steps[j - 1], t);
    }
  }

  lemma LeftAfter(s: Sys, step: Step, t: Id)
    requires Inv(s) && Enabled(s, step) && t in s.tcbs && s.tcbs[t].state.Pending? && step != Abort(t)
    requires Woke(s, step, t) == NotWoken && t in Times(s.timeouts)
    ensures var l, l' := s.timeouts, Do(s, step).timeouts;
            && t in Times(l')
            && if step.Tick? then Times(l)[t] > s.cfg.slice && Times(l')[t] == Times(l)[t] - s.cfg.slice
               else Times(l')[t] == Times(l)[t]
  {
    PendingStep(s, step, t);
    if step.Tick? {
      TickOn(s, t);
    }
  }

  lemma SliceAtLeastOne(s: Sys)
    requires Inv(s)
    ensures s.cfg.slice >= 1
  {
  }

  /** A blocked thread that nobody releases becomes READY at exactly the tick its timeout
      asks for, whatever the other threads do meanwhile. */
  lemma ExpiresAtItsTick(ss: seq<Sys>, steps: seq<Step>, i: nat, j: nat, t: Id)
    requires BlocksAt(ss, steps, i, t) && Away(ss, steps, i, j, t) && StillBlocked(ss, steps, i, j, t)
    requires steps[i].timeout != ss[i].cfg.forever && j < |steps| && steps[j].Tick?
    ensures ss[i].cfg.slice >= 1
    ensures var n, due := Ticks(steps, i + 1, j) + 1, WaitTicks(steps[i].timeout, ss[i].cfg.slice);
            && n <= due
            && (Woke(ss[j], steps[j], t) == Timeout <==> n == due)
  {
    hide Do, Times, Core, Enabled, Spent, WaitTicks;
    RunInv(ss, steps, i);
    RunInv(ss, steps, j);
    RunCfg(ss, steps, i, j);
    TimeLeft(ss, steps, i, j, t);
    SliceAtLeastOne(ss[i]);
    TickOn(ss[j], t);
    LastTick(steps[i].timeout, ss[i].cfg.slice, Ticks(steps, i + 1, j), Times(ss[j].timeouts)[t]);
  }

  /** With `left` still to go after n ticks, the next tick is the last if and only if it covers that. */
  lemma LastTick(timeout: nat, slice: nat, n: nat, left: nat)
    requires slice >= 1 && left + Spent(n, slice) == timeout && (n == 0 || left > 0)
    ensures n + 1 <= WaitTicks(timeout, slice)
    ensures left <= slice <==> n + 1 == WaitTicks(timeout, slice)
  {
    hide WaitTicks;
    RoundedUp(timeout, slice, n);
    RoundedUp(timeout, slice, n + 1);
  }
}
