/**
  k_thread_abort (src/avrtos/kernel.c) and when it leaves the scheduler sound.

  `z_suspend` takes a thread out of the run ring or out of the timeout queue, but never
  out of a wait queue, and it moves the cursor only when the running thread suspends
  itself.  So abort is sound exactly for the threads of `Abortable`.
*/
module Abort {
  import opened Links
  import opened DeltaQueue
  import opened Sched
  import opened SchedInv

  /** The thread stands in no wait queue, and the cursor does not point to it unless it
      runs or is the last one ready. */
  predicate Abortable(s: Sys, t: Id) {
    && Of(s, t).waiting == Null
    && (Of(s, t).state.Ready? ==> t == s.current || s.cursor != t || |s.ring| == 1)
  }

  function JoinQueue(t: Id): Id {
    Join(if t.Thread? then t.n else 0)
  }

  /** The state in which the waiters on the aborted thread are released. */
  function Halted(s: Sys, t: Id): Sys {
    Put(Suspend(s, t), t, Of(Suspend(s, t), t).(state := Stopped))
  }

  lemma RingDrop(tcbs: map<Id, Tcb>, ring: seq<Id>, cursor: Id, t: Id, c: Tcb)
    requires RingInv(tcbs, ring, cursor) && t in ring && (t != ring[0] || |ring| == 1) && !c.state.Ready?
    ensures RingInv(tcbs[t := c], Drop(ring, t), if |ring| == 1 then IDLE else cursor)
  {
    DropMembers(ring, t);
    if |ring| > 1 {
      assert Drop(ring, t)[0] == ring[0];
    }
  }

  lemma HaltedKeeps(s: Sys, t: Id)
    requires Inv(s) && t in s.tcbs && t != IDLE && !s.tcbs[t].state.Stopped? && Abortable(s, t)
    ensures Core(Halted(s, t)) && Tidy(Halted(s, t)) && (t != s.current ==> Running(Halted(s, t)))
    ensures Halted(s, t).tcbs == s.tcbs[t := s.tcbs[t].(state := Stopped, wakeup := false)]
    ensures Halted(s, t).current == s.current
  {
    hide RingInv, TimeInv, QueueInv;
    var c := s.tcbs[t].(state := Stopped, wakeup := false);
    var s' := Halted(s, t);
    assert s'.tcbs == s.tcbs[t := c] && s'.queues == s.queues && TimeInv(s'.tcbs, s'.timeouts, s.cfg.forever)
           && RingInv(s'.tcbs, s'.ring, s'.cursor) && (t != s.current ==> Running(s')) by {
      if s.tcbs[t].state.Pending? {
        HaltedSleeper(s, t);
      } else {
        HaltedReady(s, t);
      }
    }
    QueueSame(s.tcbs, s.queues, t, c);
    assert TcbInv(t, c);
  }

  lemma HaltedSleeper(s: Sys, t: Id)
    requires Inv(s) && t in s.tcbs && s.tcbs[t].state.Pending?
    ensures var c, s' := s.tcbs[t].(state := Stopped, wakeup := false), Halted(s, t);
            && s'.tcbs == s.tcbs[t := c] && s'.queues == s.queues && TimeInv(s'.tcbs, s'.timeouts, s.cfg.forever)
            && RingInv(s'.tcbs, s'.ring, s'.cursor) && Running(s')
  {
    hide Times, Unique, Sorted, Forget, QueueInv, TcbInv, Distinct;
    var c := s.tcbs[t].(state := Stopped, wakeup := false);
    CancelWakeUpForgets(s, t);
    Overwritten(s.tcbs, t, s.tcbs[t].(wakeup := false), c);
    TimeDrop(s.tcbs, s.timeouts, s.cfg.forever, t, c);
  }

  lemma HaltedReady(s: Sys, t: Id)
    requires Inv(s) && t in s.tcbs && s.tcbs[t].state.Ready? && Abortable(s, t)
    ensures var c, s' := s.tcbs[t].(state := Stopped, wakeup := false), Halted(s, t);
            && s'.tcbs == s.tcbs[t := c] && s'.queues == s.queues && TimeInv(s'.tcbs, s'.timeouts, s.cfg.forever)
            && RingInv(s'.tcbs, s'.ring, s'.cursor) && (t != s.current ==> Running(s'))
  {
    var c := s.tcbs[t].(state := Stopped, wakeup := false);
    TimeSame(s.tcbs, s.timeouts, s.cfg.forever, t, c);
    if t == s.current {
      SuspendBacks(s);
      RingBack(s.tcbs, s.ring, s.cursor, c);
    } else {
      RingDrop(s.tcbs, s.ring, s.cursor, t, c);
      assert Suspend(s, t).ring == Drop(s.ring, t);
    }
  }

  /** Releasing a queue touches its waiters and nothing before the cursor. */
  lemma {:induction false} UnpendAllOnly(s: Sys, q: Id, x: Id)
    ensures x !in Waiters(s, q) ==> Of(UnpendAll(s, q), x) == Of(s, x)
    ensures s.ring != [] ==> UnpendAll(s, q).ring != [] && UnpendAll(s, q).ring[0] == s.ring[0]
    ensures s.ring != [] ==> UnpendAll(s, q).cursor == s.cursor
    ensures UnpendAll(s, q).current == s.current
    ensures x in s.tcbs ==> x in UnpendAll(s, q).tcbs
    decreases |Waiters(s, q)|
  {
    hide Forget, Times;
    if Waiters(s, q) != [] {
      UnpendOnly(s, q, x);
      hide Unpend;
      UnpendAllOnly(Unpend(s, q), q, x);
    }
  }

  lemma UnpendOnly(s: Sys, q: Id, x: Id)
    requires Waiters(s, q) != []
    ensures var s' := Unpend(s, q);
            && (x != Waiters(s, q)[0] ==> Of(s', x) == Of(s, x))
            && (s.ring != [] ==> s'.ring != [] && s'.ring[0] == s.ring[0] && s'.cursor == s.cursor)
            && s'.current == s.current && (x in s.tcbs ==> x in s'.tcbs)
            && Waiters(s', q) == Waiters(s, q)[1..]
  {
  }

  /** A released thread ends up READY. */
  lemma {:induction false} UnpendAllWakes(s: Sys, q: Id, x: Id)
    requires x in Waiters(s, q)
    ensures Of(UnpendAll(s, q), x).state.Ready?
    decreases |Waiters(s, q)|
  {
    var s' := Unpend(s, q);
    assert Waiters(s', q) == Waiters(s, q)[1..];
    if x in Waiters(s', q) {
      UnpendAllWakes(s', q, x);
    } else {
      UnpendAllOnly(s', q, x);
    }
  }

  lemma AbortKeeps(s: Sys, t: Id)
    requires Inv(s) && t in s.tcbs && t != IDLE && !s.tcbs[t].state.Stopped? && Abortable(s, t)
    ensures Inv(Sched.Abort(s, t)) && Of(Sched.Abort(s, t), t).state.Stopped?
  {
    var s1 := Halted(s, t);
    HaltedKeeps(s, t);
    var s2 := UnpendAll(s1, JoinQueue(t));
    UnpendAllKeeps(s1, JoinQueue(t));
    assert t !in Waiters(s1, JoinQueue(t));
    UnpendAllOnly(s1, JoinQueue(t), t);
    if t == s.current {
      var c := s2.tcbs[t].(expired := false, canceled := false);
      TweakKeeps(s2, t, c);
      CursorRuns(Put(s2, t, c));
    }
  }

  /** Switching to the cursor is sound whoever ran before. */
  lemma CursorRuns(s: Sys)
    requires Core(s) && Tidy(s)
    ensures Inv(s.(current := s.cursor))
  {
    if s.ring != [] {
      assert s.ring[0] in s.ring;
    }
  }

  /** Abort stops the thread and keeps the scheduler sound if and only if it is abortable. */
  lemma AbortExact(s: Sys, t: Id)
    requires Inv(s) && t in s.tcbs && t != IDLE && !s.tcbs[t].state.Stopped?
    ensures Inv(Sched.Abort(s, t)) && Of(Sched.Abort(s, t), t).state.Stopped? <==> Abortable(s, t)
  {
    if Abortable(s, t) {
      AbortKeeps(s, t);
    } else {
      var s1 := Halted(s, t);
      var q := JoinQueue(t);
      UnpendAllOnly(s1, q, t);
      if t in Waiters(s1, q) {
        UnpendAllWakes(s1, q, t);
        assert t != s.current;
      } else if s.tcbs[t].waiting != Null {
        assert Of(Sched.Abort(s, t), t).waiting != Null;
      } else {
        assert t == s.ring[0] && t != s.current && |s.ring| > 1;
        DropMembers(s.ring, t);
        assert s1.ring == Drop(s.ring, t) && s1.ring[0] in s1.ring && s1.cursor == t;
      }
    }
  }
}
