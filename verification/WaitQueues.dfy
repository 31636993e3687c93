/**
  What a kernel object may rely on: the steps that do not name its wait queue leave the
  queue alone, except that ticks take timed-out waiters out, in place.
*/
module WaitQueues {
  import opened Links
  import opened DeltaQueue
  import opened Sched
  import opened SchedInv
  import A = Abort
  import opened SchedRuns
  import opened Waits
  import opened Errno

  /** The step operates on the wait queue q. */
  predicate Names(step: Step, q: Id) {
    match step
    case Block(p, _) => p == q
    case Handoff(p) => p == q
    case HandoffWith(p, _) => p == q
    case CancelOne(p) => p == q
    case CancelEvery(p) => p == q
    case Notify(p, _, _) => p == q
    case Abort(t) => A.JoinQueue(t) == q
    case _ => false
  }

  /** The elements of w that are in k, in their order. */
  ghost function Keep(w: seq<Id>, k: set<Id>): seq<Id> {
    if w == [] then [] else if w[0] in k then [w[0]] + Keep(w[1..], k) else Keep(w[1..], k)
  }

  lemma {:induction false} KeepAll(w: seq<Id>, k: set<Id>)
    requires forall x :: x in w ==> x in k
    ensures Keep(w, k) == w
  {
    if w != [] {
      assert w[0] in w;
      KeepAll(w[1..], k);
    }
  }

  lemma {:induction false} KeepKeep(w: seq<Id>, k: set<Id>, k': set<Id>)
    ensures Keep(Keep(w, k), k') == Keep(w, k * k')
  {
    if w != [] {
      KeepKeep(w[1..], k, k');
      if w[0] in k {
        assert Keep(w, k)[1..] == Keep(w[1..], k);
      }
    }
  }

  lemma {:induction false} KeepMembers(w: seq<Id>, k: set<Id>)
    ensures forall x :: x in Keep(w, k) <==> x in w && x in k
  {
    if w != [] {
      KeepMembers(w[1..], k);
    }
  }

  lemma {:induction false} DropKeeps(w: seq<Id>, t: Id)
    requires Distinct(w) && t in w
    ensures Drop(w, t) == Keep(w, Elems(w) - {t})
  {
    hide IndexOf, Drop;
    var k := Elems(w) - {t};
    DropCons(w, t);
    if w[0] == t {
      KeepAll(w[1..], k);
    } else {
      DropKeeps(w[1..], t);
      KeepSame(w[1..], Elems(w[1..]) - {t}, k);
    }
  }

  lemma DropCons(w: seq<Id>, t: Id)
    requires t in w
    ensures Drop(w, t) == if w[0] == t then w[1..] else [w[0]] + Drop(w[1..], t)
  {
    hide IndexOf;
    IndexCons(w, t);
    if w[0] != t {
      TailWithout(w[0], w[1..], IndexOf(w[1..], t));
      assert [w[0]] + w[1..] == w;
    }
  }

  lemma IndexCons(w: seq<Id>, t: Id)
    requires t in w
    ensures w[0] == t ==> IndexOf(w, t) == 0
    ensures w[0] != t ==> t in w[1..] && IndexOf(w, t) == 1 + IndexOf(w[1..], t)
  {
  }

  lemma {:induction false} KeepSame(w: seq<Id>, k: set<Id>, k': set<Id>)
    requires forall x :: x in w ==> (x in k <==> x in k')
    ensures Keep(w, k) == Keep(w, k')
  {
    if w != [] {
      assert w[0] in w;
      KeepSame(w[1..], k, k');
    }
  }

  lemma ExpireThins(s: Sys, q: Id) returns (k: set<Id>)
    requires Core(s) && s.timeouts != [] && q in s.queues
    ensures q in Expire(s).queues && Waiters(Expire(s), q) == Keep(Waiters(s, q), k)
  {
    var t, w := s.timeouts[0].id, Waiters(s, q);
    ExpireWakes(s);
    k := Elems(w) - {t};
    if s.tcbs[t].waiting == q {
      DropKeeps(w, t);
    } else {
      KeepAll(w, k);
    }
  }

  lemma {:induction false} DrainThins(s: Sys, q: Id) returns (k: set<Id>)
    requires Core(s) && q in s.queues
    ensures Waiters(Drain(s), q) == Keep(Waiters(s, q), k)
    decreases |s.timeouts|
  {
    if s.timeouts != [] && s.timeouts[0].left == 0 {
      var k1 := ExpireThins(s, q);
      ExpireKeeps(s);
      var k2 := DrainThins(Expire(s), q);
      k := k1 * k2;
      KeepKeep(Waiters(s, q), k1, k2);
    } else {
      k := Elems(Waiters(s, q));
      KeepAll(Waiters(s, q), k);
    }
  }

  /** A tick removes waiters and never reorders or adds any. */
  lemma TickThins(s: Sys, q: Id) returns (k: set<Id>)
    requires Inv(s) && q in s.queues
    ensures Waiters(Do(s, Tick), q) == Keep(Waiters(s, q), k)
  {
    var s0 := s.(timeouts := Age(s.timeouts, s.cfg.slice));
    AgeKeeps(s, s.cfg.slice);
    k := DrainThins(s0, q);
  }

  lemma {:induction false} CancelAllElsewhere(s: Sys, p: Id, q: Id)
    requires Core(s) && p != q
    ensures Waiters(CancelAll(s, p), q) == Waiters(s, q)
    decreases |Waiters(s, p)|
  {
    if Waiters(s, p) != [] {
      CancelFirstWakes(s, p);
      WaiterPends(s, p, Waiters(s, p)[0]);
      CancelFirstKeeps(s, p);
      CancelAllElsewhere(CancelFirst(s, p), p, q);
    }
  }

  lemma UnpendElsewhere(s: Sys, p: Id, q: Id)
    requires Core(s) && p != q && Waiters(s, p) != []
    ensures Waiters(Unpend(s, p), q) == Waiters(s, q) && |Waiters(Unpend(s, p), p)| < |Waiters(s, p)|
  {
    UnpendWakes(s, p);
  }

  lemma {:induction false} UnpendAllElsewhere(s: Sys, p: Id, q: Id)
    requires Core(s) && p != q
    ensures Waiters(UnpendAll(s, p), q) == Waiters(s, q)
    decreases |Waiters(s, p)|
  {
    hide Core, Unpend, Woken;
    if Waiters(s, p) != [] {
      UnpendElsewhere(s, p, q);
      UnpendKeeps(s, p);
      UnpendAllElsewhere(Unpend(s, p), p, q);
    }
  }

  lemma WokenElsewhere(s: Sys, x: Id, c: Tcb, q: Id)
    requires x in s.tcbs && s.tcbs[x].waiting != q
    ensures Waiters(Woken(s, x, c), q) == Waiters(s, q)
  {
  }

  lemma AbortElsewhere(s: Sys, t: Id, q: Id)
    requires Inv(s) && Enabled(s, Abort(t)) && A.JoinQueue(t) != q
    ensures Waiters(Do(s, Abort(t)), q) == Waiters(s, q)
  {
    hide UnpendAll, Core, Running, Times;
    A.HaltedKeeps(s, t);
    UnpendAllElsewhere(A.Halted(s, t), A.JoinQueue(t), q);
  }

  lemma WakeElsewhere(s: Sys, step: Step, q: Id)
    requires Inv(s) && Enabled(s, step) && !Names(step, q)
    requires step.Handoff? || step.HandoffWith? || step.CancelOne? || step.Notify?
    ensures Waiters(Do(s, step), q) == Waiters(s, q)
  {
    hide Woken, Unpend, UnpendSwap, CancelFirst, WakeWaiter;
    var p := step.q;
    if step.Notify? {
      WaiterPends(s, p, step.t);
      WakeWaiterWakes(s, p, step.t, step.data);
      WokenElsewhere(s, step.t, s.tcbs[step.t].(clean := false, swap := step.data), q);
    } else if Waiters(s, p) == [] {
      NobodyWaits(s, step);
    } else {
      var t := Waiters(s, p)[0];
      WaiterPends(s, p, t);
      if step.Handoff? {
        UnpendWakes(s, p);
        WokenElsewhere(s, t, s.tcbs[t].(clean := true), q);
      } else if step.HandoffWith? {
        UnpendSwapWakes(s, p, step.data);
        WokenElsewhere(s, t, s.tcbs[t].(clean := true, swap := step.data), q);
      } else {
        CancelFirstWakes(s, p);
        WokenElsewhere(s, t, s.tcbs[t].(clean := true, canceled := true), q);
      }
    }
  }

  lemma NobodyWaits(s: Sys, step: Step)
    requires step.Handoff? || step.HandoffWith? || step.CancelOne? || step.CancelEvery?
    requires Waiters(s, step.q) == []
    ensures Do(s, step) == s
  {
  }

  lemma OtherStep(s: Sys, step: Step, q: Id)
    requires Inv(s) && Enabled(s, step) && !Names(step, q) && !step.Tick?
    ensures Waiters(Do(s, step), q) == Waiters(s, q)
  {
    hide RingInv, TimeInv, QueueInv, Unpend, CancelFirst, CancelAll, WakeWaiter;
    match step
    case Yield =>
    case SetSwap(_) =>
    case Start(_) =>
    case Block(p, tm) => PendOnKeeps(s, p, tm);
    case Sleep(tm) => PendCurrentPends(s, tm);
    case CancelEvery(p) => CancelAllElsewhere(s, p, q);
    case Abort(t) => AbortElsewhere(s, t, q);
    case _ => WakeElsewhere(s, step, q);
  }

  /** Over every step that does not name it, a wait queue only loses waiters, in place, and
      the waiters that stay are still blocked with the data they came with. */
  lemma QueueThins(s: Sys, step: Step, q: Id) returns (k: set<Id>)
    requires Inv(s) && Enabled(s, step) && !Names(step, q) && q in s.queues
    ensures Waiters(Do(s, step), q) == Keep(Waiters(s, q), k)
    ensures forall t :: t in Waiters(Do(s, step), q) ==> Of(Do(s, step), t) == Of(s, t)
  {
    hide Do;
    var w := Waiters(s, q);
    k := Elems(w);
    if step.Tick? {
      k := TickThins(s, q);
    } else {
      OtherStep(s, step, q);
      KeepAll(w, k);
    }
    KeepMembers(w, k);
    StepKeeps(s, step);
    forall t | t in Waiters(Do(s, step), q) ensures Of(Do(s, step), t) == Of(s, t) {
      StayedBlocked(s, step, q, t);
    }
  }

  lemma StayedBlocked(s: Sys, step: Step, q: Id, t: Id)
    requires Inv(s) && Enabled(s, step) && !Names(step, q)
    requires t in Waiters(s, q) && t in Waiters(Do(s, step), q)
    ensures Of(Do(s, step), t) == Of(s, t)
  {
    hide Do;
    WaiterPends(s, q, t);
    StepKeeps(s, step);
    WaiterPends(Do(s, step), q, t);
    if step == Abort(t) {
      A.AbortKeeps(s, t);
      assert false;
    }
    PendingStep(s, step, t);
  }

  // ----- the steps that do name the queue -----

  /** The running thread joins the queue at its end. */
  lemma BlockOn(s: Sys, q: Id, timeout: nat)
    requires Inv(s) && Enabled(s, Block(q, timeout))
    ensures var s' := Do(s, Block(q, timeout));
            && Inv(s') && q in s'.queues && Waiters(s', q) == Waiters(s, q) + [s.current]
            && s.current !in Waiters(s, q) && s.current in s.tcbs && Of(s', s.current).swap == Of(s, s.current).swap
            && forall t :: t in Waiters(s, q) ==> Of(s', t).swap == Of(s, t).swap
  {
    hide RingInv, TimeInv, TcbInv, InsertDue;
    PendOnKeeps(s, q, timeout);
    BlockerNotWaiting(s, q);
  }

  lemma BlockerNotWaiting(s: Sys, q: Id)
    requires Inv(s) && Of(s, s.current).state.Ready?
    ensures s.current !in Waiters(s, q)
  {
    if s.current in Waiters(s, q) {
      WaiterPends(s, q, s.current);
      assert false;
    }
  }

  /** The first waiter, if any, leaves the queue READY; the others are untouched. */
  lemma HandoffOn(s: Sys, q: Id, step: Step)
    requires Inv(s) && q in s.queues && (step == Handoff(q) || (step.HandoffWith? && step.q == q))
    ensures var w, s' := Waiters(s, q), Do(s, step);
            && Inv(s') && q in s'.queues
            && (w == [] ==> s' == s)
            && (w != [] ==> && Waiters(s', q) == w[1..] && w[0] in s'.tcbs && Of(s', w[0]).state.Ready?
                            && Woke(s, step, w[0]) == Given
                            && Of(s', w[0]).swap == (if step.Handoff? then Of(s, w[0]).swap else step.data)
                            && forall t :: t in w[1..] ==> Of(s', t) == Of(s, t))
  {
    hide Inv, Core, Unpend, Times;
    StepKeeps(s, step);
    SoundCore(s, q);
    UnpendThread(s, q);
    var w := Waiters(s, q);
    if w != [] {
      WaiterPends(s, q, w[0]);
      UnpendOn(s, q, w[0]);
      forall t | t in w[1..] ensures t != w[0] && Of(Unpend(s, q), t) == Of(s, t) {
        WaiterPends(s, q, t);
        UnpendOn(s, q, t);
      }
    }
  }

  lemma SoundCore(s: Sys, q: Id)
    requires Inv(s)
    ensures Core(s) && Distinct(Waiters(s, q))
  {
  }

  /** Every waiter leaves the queue, canceled. */
  lemma CancelOn(s: Sys, q: Id)
    requires Inv(s) && q in s.queues
    ensures var s' := Do(s, CancelEvery(q)); Inv(s') && q in s'.queues && Waiters(s', q) == []
    ensures forall t :: t in Waiters(s, q) ==>
              Woke(s, CancelEvery(q), t) == Canceled && ReturnCode(Of(Do(s, CancelEvery(q)), t)) == ECANCELED
  {
    hide Core, Running, CancelFirst;
    StepKeeps(s, CancelEvery(q));
    CancelAllEmpties(s, q);
    forall t | t in Waiters(s, q)
      ensures Woke(s, CancelEvery(q), t) == Canceled && ReturnCode(Of(Do(s, CancelEvery(q)), t)) == ECANCELED
    {
      WaiterPends(s, q, t);
      CancelAllOn(s, q, t);
      PendingStep(s, CancelEvery(q), t);
    }
  }

  lemma {:induction false} CancelAllEmpties(s: Sys, q: Id)
    requires Core(s) && q in s.queues
    ensures q in CancelAll(s, q).queues && Waiters(CancelAll(s, q), q) == []
    decreases |Waiters(s, q)|
  {
    hide Core, CancelFirst;
    if Waiters(s, q) != [] {
      CancelStep(s, q);
      CancelFirstKeeps(s, q);
      CancelAllEmpties(CancelFirst(s, q), q);
    }
  }

  // ----- wait queues do not come or go -----

  lemma WokenQueues(s: Sys, x: Id, c: Tcb)
    requires Core(s) && x in s.tcbs
    ensures Woken(s, x, c).queues.Keys == s.queues.Keys
  {
  }

  lemma {:induction false} DrainQueues(s: Sys)
    requires Core(s)
    ensures Drain(s).queues.Keys == s.queues.Keys
    decreases |s.timeouts|
  {
    hide Core, Woken, Expire;
    if s.timeouts != [] && s.timeouts[0].left == 0 {
      ExpireWakes(s);
      var t := s.timeouts[0].id;
      WokenQueues(s, t, s.tcbs[t].(expired := true, clean := s.tcbs[t].waiting == Null && s.tcbs[t].clean));
      ExpireKeeps(s);
      ExpireShorter(s);
      DrainQueues(Expire(s));
    }
  }

  lemma ExpireShorter(s: Sys)
    requires s.timeouts != []
    ensures |Expire(s).timeouts| < |s.timeouts|
  {
  }

  lemma {:induction false} CancelAllQueues(s: Sys, q: Id)
    requires Core(s)
    ensures CancelAll(s, q).queues.Keys == s.queues.Keys
    decreases |Waiters(s, q)|
  {
    hide Core, Woken, CancelFirst;
    if Waiters(s, q) != [] {
      CancelFirstWakes(s, q);
      WokenQueues(s, Waiters(s, q)[0], s.tcbs[Waiters(s, q)[0]].(clean := true, canceled := true));
      CancelStep(s, q);
      CancelFirstKeeps(s, q);
      CancelAllQueues(CancelFirst(s, q), q);
    }
  }

  lemma {:induction false} UnpendAllQueues(s: Sys, q: Id)
    requires Core(s)
    ensures UnpendAll(s, q).queues.Keys == s.queues.Keys
    decreases |Waiters(s, q)|
  {
    hide Core, Woken, Unpend;
    if Waiters(s, q) != [] {
      UnpendWakes(s, q);
      WokenQueues(s, Waiters(s, q)[0], s.tcbs[Waiters(s, q)[0]].(clean := true));
      UnpendThread(s, q);
      UnpendKeeps(s, q);
      UnpendAllQueues(Unpend(s, q), q);
    }
  }

  lemma AbortQueues(s: Sys, t: Id)
    requires Inv(s) && Enabled(s, Abort(t))
    ensures Do(s, Abort(t)).queues.Keys == s.queues.Keys
  {
    hide UnpendAll, Core, Running, Times;
    A.HaltedKeeps(s, t);
    UnpendAllQueues(A.Halted(s, t), A.JoinQueue(t));
  }

  lemma TickQueues(s: Sys)
    requires Inv(s)
    ensures Do(s, Tick).queues.Keys == s.queues.Keys
  {
    hide Core, Running, Drain, Age;
    AgeKeeps(s, s.cfg.slice);
    DrainQueues(s.(timeouts := Age(s.timeouts, s.cfg.slice)));
  }

  lemma StepQueues(s: Sys, step: Step)
    requires Inv(s) && Enabled(s, step)
    ensures Do(s, step).queues.Keys == s.queues.Keys
  {
    match step
    case Yield =>
    case SetSwap(_) =>
    case Start(_) =>
    case Tick => TickQueues(s);
    case Abort(t) => AbortQueues(s, t);
    case CancelEvery(q) => CancelAllQueues(s, q);
    case Block(q, tm) => PendOnKeeps(s, q, tm);
    case Sleep(tm) => PendCurrentPends(s, tm);
    case Handoff(q) => UnpendQueues(s, q);
    case HandoffWith(q, _) => UnpendQueues(s, q);
    case CancelOne(q) => UnpendQueues(s, q);
    case Notify(q, t, data) => WakeWaiterWakes(s, q, t, data); WokenQueues(s, t, s.tcbs[t].(clean := false, swap := data));
  }

  lemma UnpendQueues(s: Sys, q: Id)
    requires Core(s)
    ensures Unpend(s, q).queues.Keys == s.queues.Keys
  {
    if Waiters(s, q) != [] {
      UnpendWakes(s, q);
      WokenQueues(s, Waiters(s, q)[0], s.tcbs[Waiters(s, q)[0]].(clean := true));
    }
  }

  // ----- for the objects: a queue under the rest of the system -----

  /** One step of the rest of the system, as the owner of the queue q sees it. */
  lemma Elsewhere(s: Sys, step: Step, q: Id) returns (k: set<Id>)
    requires Inv(s) && Enabled(s, step) && !Names(step, q) && q in s.queues
    ensures Inv(Do(s, step)) && q in Do(s, step).queues
    ensures Waiters(Do(s, step), q) == Keep(Waiters(s, q), k)
    ensures forall t :: t in Waiters(Do(s, step), q) ==> t in Waiters(s, q) && Of(Do(s, step), t) == Of(s, t)
  {
    hide Do, Inv, Enabled, Names, Keep;
    StepKeeps(s, step);
    StepQueues(s, step);
    k := QueueThins(s, step, q);
    KeepMembers(Waiters(s, q), k);
  }

  lemma KeepNone(s: Sys, step: Step, q: Id, k: set<Id>)
    requires Waiters(Do(s, step), q) == Keep(Waiters(s, q), k)
    ensures Waiters(s, q) == [] ==> Waiters(Do(s, step), q) == []
  {
    hide Do;
  }

  lemma BlockEnabled(s: Sys, q: Id, timeout: nat)
    requires Of(s, s.current).state.Ready? && q in s.queues && 0 < timeout <= s.cfg.forever
    ensures Enabled(s, Block(q, timeout))
  {
  }

  /** What a kernel object needs to call into the kernel. */
  lemma CallFacts(s: Sys, q: Id)
    requires Inv(s) && q in s.queues
    ensures Core(s) && s.current in s.tcbs && Null !in Waiters(s, q)
    ensures Do(s, Handoff(q)) == Unpend(s, q) && Do(s, CancelEvery(q)) == CancelAll(s, q)
    ensures Waiters(s, q) == [] ==> Unpend(s, q) == s
  {
    hide RingInv, TimeInv, CancelAll;
    assert forall t :: t in Waiters(s, q) ==> t.Thread?;
  }

  lemma HandoffFacts(s: Sys, q: Id, data: Swap)
    ensures Do(s, HandoffWith(q, data)) == UnpendSwap(s, q, data)
    ensures Waiters(s, q) == [] ==> UnpendSwap(s, q, data) == s
  {
  }

  /** The running thread sets its swap_data. */
  lemma SwapOn(s: Sys, data: Swap)
    requires Inv(s)
    ensures var s' := Do(s, SetSwap(data));
            && Inv(s') && s'.queues == s.queues && s'.current == s.current && s'.cfg == s.cfg
            && Of(s', s.current) == Of(s, s.current).(swap := data)
            && forall t :: t != s.current ==> Of(s', t) == Of(s, t)
  {
    StepKeeps(s, SetSwap(data));
  }

  lemma RunningNotWaiting(s: Sys, q: Id)
    requires Inv(s)
    ensures s.current !in Waiters(s, q)
  {
    if s.current in Waiters(s, q) {
      WaiterPends(s, q, s.current);
      assert false;
    }
  }
}
