/** Every step of the scheduler keeps its invariant, piece by piece. */
module SchedInv {
  import opened Links
  import opened DeltaQueue
  import opened Sched

  // ----- sequences without repetition -----

  lemma DropMembers(r: seq<Id>, t: Id)
    requires Distinct(r)
    ensures Distinct(Drop(r, t))
    ensures forall x :: x in Drop(r, t) <==> x in r && x != t
  {
    hide IndexOf, Distinct, Without;
    if t in r {
      WithoutDistinct(r, IndexOf(r, t));
      WithoutMembers(r, IndexOf(r, t));
    }
  }

  lemma WithoutDistinct(r: seq<Id>, k: nat)
    requires Distinct(r) && k < |r|
    ensures Distinct(Without(r, k))
  {
  }

  lemma WithoutMembers(r: seq<Id>, k: nat)
    requires Distinct(r) && k < |r|
    ensures forall x :: x in Without(r, k) <==> x in r && x != r[k]
  {
    var d := Without(r, k);
    forall x | x in r && x != r[k] ensures x in d {
      var i :| 0 <= i < |r| && r[i] == x;
      var j := if i < k then i else i - 1;
      assert i != k && d[j] == x;
    }
    forall x | x in d ensures x in r && x != r[k] {
      var i :| 0 <= i < |d| && d[i] == x;
      var j := if i < k then i else i + 1;
      assert r[j] == x && j != k;
    }
  }

  lemma RotatedMembers(r: seq<Id>, k: nat)
    requires Distinct(r) && k <= |r|
    ensures Distinct(r[k..] + r[..k])
    ensures forall x :: x in r[k..] + r[..k] <==> x in r
  {
    assert r == r[..k] + r[k..];
  }

  lemma AddedMembers(r: seq<Id>, t: Id)
    requires Distinct(r) && t !in r && r != []
    ensures Distinct([r[0], t] + r[1..])
    ensures forall x :: x in [r[0], t] + r[1..] <==> x in r || x == t
  {
    assert r == [r[0]] + r[1..];
  }

  lemma Overwritten(m: map<Id, Tcb>, t: Id, c: Tcb, c': Tcb)
    ensures m[t := c][t := c'] == m[t := c']
  {
  }

  // ----- the pieces of the invariant -----

  lemma RingAdd(tcbs: map<Id, Tcb>, ring: seq<Id>, cursor: Id, t: Id, c: Tcb)
    requires RingInv(tcbs, ring, cursor) && t !in ring && c.state.Ready?
    ensures RingInv(tcbs[t := c], Joined(ring, t), if ring == [] then t else cursor)
  {
    if ring != [] {
      AddedMembers(ring, t);
    }
  }

  lemma TimeDrop(tcbs: map<Id, Tcb>, timeouts: seq<Due>, forever: nat, t: Id, c: Tcb)
    requires TimeInv(tcbs, timeouts, forever) && !c.wakeup
    ensures TimeInv(tcbs[t := c], Forget(timeouts, t), forever)
  {
    ForgetTimes(timeouts, t);
    ForgetSorted(timeouts, t);
  }

  lemma QueueDrop(tcbs: map<Id, Tcb>, queues: map<Id, seq<Id>>, t: Id, c: Tcb)
    requires QueueInv(tcbs, queues) && t in tcbs && c.waiting == Null
    ensures var w := tcbs[t].waiting;
            QueueInv(tcbs[t := c], if w == Null then queues else queues[w := Drop(queues[w], t)])
  {
    hide Distinct, Drop;
    var w := tcbs[t].waiting;
    if w != Null {
      DropMembers(queues[w], t);
    }
  }

  lemma WokenKeeps(s: Sys, t: Id, c: Tcb)
    requires Core(s) && t in s.tcbs && (s.tcbs[t].state.Pending? || s.tcbs[t].state.Stopped?)
    requires !(c.expired && c.canceled)
    ensures Core(Woken(s, t, c))
    ensures Running(s) ==> Running(Woken(s, t, c))
    ensures Tidy(s) ==> Tidy(Woken(s, t, c))
  {
    hide Times, Unique, Sorted, Distinct, Forget;
    var c' := c.(state := Ready, wakeup := false, waiting := Null);
    var s' := Woken(s, t, c);
    assert t !in s.ring && t != IDLE;
    assert RingInv(s'.tcbs, s'.ring, s'.cursor) by { RingAdd(s.tcbs, s.ring, s.cursor, t, c'); }
    assert TimeInv(s'.tcbs, s'.timeouts, s.cfg.forever) by { TimeDrop(s.tcbs, s.timeouts, s.cfg.forever, t, c'); }
    assert QueueInv(s'.tcbs, s'.queues) by { QueueDrop(s.tcbs, s.queues, t, c'); }
    assert forall x :: x in s'.tcbs ==> TcbInv(x, s'.tcbs[x]);
  }

  // ----- each way of waking up is such a wake-up -----

  lemma CancelWakeUpForgets(s: Sys, t: Id)
    requires Core(s) && t in s.tcbs
    ensures CancelWakeUp(s, t) == s.(tcbs := s.tcbs[t := s.tcbs[t].(wakeup := false)], timeouts := Forget(s.timeouts, t))
  {
    hide Core, Forget, Times, Unique;
    Wakeups(s, t);
    if !s.tcbs[t].wakeup {
      ForgetAbsent(s.timeouts, t);
      assert s.tcbs == s.tcbs[t := s.tcbs[t].(wakeup := false)];
    }
  }

  lemma Wakeups(s: Sys, t: Id)
    requires Core(s) && t in s.tcbs
    ensures Unique(s.timeouts) && (s.tcbs[t].wakeup <==> t in Times(s.timeouts))
  {
  }

  /** A waiter that leaves its queue and is woken up. */
  lemma UnlinkWakes(s: Sys, q: Id, t: Id, clean: bool)
    requires t in s.tcbs && q != Null && s.tcbs[t].waiting == q && (s.tcbs[t].wakeup || t !in Times(s.timeouts))
    ensures WakeUp(Unlink(s, q, t, clean), t) == Woken(s, t, s.tcbs[t].(clean := clean))
  {
    var s1, s' := Unlink(s, q, t, clean), Woken(s, t, s.tcbs[t].(clean := clean));
    if !s.tcbs[t].wakeup {
      ForgetAbsent(s.timeouts, t);
    }
    assert CancelWakeUp(s1, t).timeouts == Forget(s.timeouts, t);
    assert WakeUp(s1, t).tcbs == s'.tcbs;
    assert WakeUp(s1, t).queues == s'.queues;
  }

  lemma WaiterPends(s: Sys, q: Id, t: Id)
    requires Core(s) && t in Waiters(s, q)
    ensures t in s.tcbs && q != Null && s.tcbs[t].waiting == q && s.tcbs[t].state.Pending?
    ensures s.tcbs[t].wakeup <==> t in Times(s.timeouts)
  {
  }

  lemma UnpendWakes(s: Sys, q: Id)
    requires Core(s) && Waiters(s, q) != []
    ensures var t := Waiters(s, q)[0];
            t in s.tcbs && s.tcbs[t].waiting == q && s.tcbs[t].state.Pending? &&
            Unpend(s, q) == Woken(s, t, s.tcbs[t].(clean := true))
  {
    WaiterPends(s, q, Waiters(s, q)[0]);
    UnlinkWakes(s, q, Waiters(s, q)[0], true);
  }

  lemma UnpendSwapWakes(s: Sys, q: Id, data: Swap)
    requires Core(s) && Waiters(s, q) != []
    ensures var t := Waiters(s, q)[0];
            t in s.tcbs && UnpendSwap(s, q, data) == Woken(s, t, s.tcbs[t].(clean := true, swap := data))
  {
    UnpendWakes(s, q);
    var t := Waiters(s, q)[0];
    assert UnpendSwap(s, q, data).tcbs == Woken(s, t, s.tcbs[t].(clean := true, swap := data)).tcbs;
  }

  lemma CancelFirstWakes(s: Sys, q: Id)
    requires Core(s) && Waiters(s, q) != []
    ensures var t := Waiters(s, q)[0];
            t in s.tcbs && s.tcbs[t].state.Pending? &&
            CancelFirst(s, q) == Woken(s, t, s.tcbs[t].(clean := true, canceled := true))
  {
    UnpendWakes(s, q);
    var t := Waiters(s, q)[0];
    assert CancelFirst(s, q).tcbs == Woken(s, t, s.tcbs[t].(clean := true, canceled := true)).tcbs;
  }

  lemma WakeWaiterWakes(s: Sys, q: Id, t: Id, data: Swap)
    requires Core(s) && t in Waiters(s, q)
    ensures t in s.tcbs && s.tcbs[t].state.Pending? &&
            WakeWaiter(s, q, t, data) == Woken(s, t, s.tcbs[t].(clean := false, swap := data))
  {
    WaiterPends(s, q, t);
    var c := s.tcbs[t].(swap := data);
    var s0 := Put(s, t, c);
    UnlinkWakes(s0, q, t, false);
    Overwritten(s.tcbs, t, c, c.(clean := false, state := Ready, wakeup := false, waiting := Null));
  }

  lemma ExpireWakes(s: Sys)
    requires Core(s) && s.timeouts != []
    ensures var t := s.timeouts[0].id;
            && t in s.tcbs && s.tcbs[t].state.Pending? && s.tcbs[t].wakeup
            && Expire(s) == Woken(s, t, s.tcbs[t].(expired := true, clean := s.tcbs[t].waiting == Null && s.tcbs[t].clean))
  {
    var t := s.timeouts[0].id;
    assert t in Times(s.timeouts);
    var s' := Woken(s, t, s.tcbs[t].(expired := true, clean := s.tcbs[t].waiting == Null && s.tcbs[t].clean));
    assert Expire(s).tcbs == s'.tcbs;
    assert Expire(s).queues == s'.queues;
  }

  lemma StartWakes(s: Sys, t: Id)
    requires Core(s) && t in s.tcbs && s.tcbs[t].state.Stopped?
    ensures Schedule(s, t) == Woken(s, t, s.tcbs[t])
  {
    ForgetAbsent(s.timeouts, t);
  }

  /** Flags and data that the queues do not depend on. */
  lemma TweakKeeps(s: Sys, t: Id, c: Tcb)
    requires Core(s) && t in s.tcbs && TcbInv(t, c)
    requires c.state == s.tcbs[t].state && c.wakeup == s.tcbs[t].wakeup && c.waiting == s.tcbs[t].waiting
    ensures Core(Put(s, t, c))
    ensures Running(s) ==> Running(Put(s, t, c))
    ensures Tidy(s) && c.clean == s.tcbs[t].clean ==> Tidy(Put(s, t, c))
  {
    hide RingInv, TimeInv, QueueInv, TcbInv;
    RingSame(s.tcbs, s.ring, s.cursor, t, c);
    TimeSame(s.tcbs, s.timeouts, s.cfg.forever, t, c);
    QueueSame(s.tcbs, s.queues, t, c);
  }

  lemma RingSame(tcbs: map<Id, Tcb>, ring: seq<Id>, cursor: Id, t: Id, c: Tcb)
    requires RingInv(tcbs, ring, cursor) && t in tcbs && tcbs[t].state == c.state
    ensures RingInv(tcbs[t := c], ring, cursor)
  {
  }

  // ----- blocking and switching -----

  lemma PendCurrentPends(s: Sys, timeout: nat)
    requires s.current in s.tcbs && s.tcbs[s.current].state.Ready? && s.ring != [] && s.ring[0] == s.current
    ensures PendCurrent(s, timeout) == Pended(s, timeout, s.tcbs[s.current])
  {
    var t, c := s.current, s.tcbs[s.current];
    var s1 := Suspend(s, t);
    assert s1 == s.(ring := Backed(s.ring), cursor := if |s.ring| == 1 then IDLE else Backed(s.ring)[0]) by {
      SuspendBacks(s);
    }
    var s2 := ScheduleWakeUp(s1, timeout);
    var c2 := Of(s2, t).(state := Pending);
    var c3 := c2.(expired := false, canceled := false);
    Overwritten(s.tcbs, t, c2, c3);
    if timeout != s.cfg.forever {
      Overwritten(s.tcbs, t, c.(wakeup := true), c2);
    }
    assert Put(s2, t, c2).tcbs == s.tcbs[t := c2];
    assert Scheduler(Put(s2, t, c2)).tcbs == s.tcbs[t := c3];
  }

  lemma SuspendBacks(s: Sys)
    requires Of(s, s.current).state.Ready? && s.ring != [] && s.ring[0] == s.current
    ensures Suspend(s, s.current) ==
            s.(ring := Backed(s.ring), cursor := if |s.ring| == 1 then IDLE else Backed(s.ring)[0])
  {
    var r := Without(s.ring, 0);
    assert r == s.ring[1..];
    if r != [] {
      assert r[|r| - 1..] == [r[|r| - 1]] && r[..|r| - 1] == s.ring[1..|s.ring| - 1];
    }
  }

  lemma BackedMembers(r: seq<Id>)
    requires Distinct(r) && r != []
    ensures Distinct(Backed(r))
    ensures forall x :: x in Backed(r) <==> x in r && x != r[0]
  {
    if |r| > 1 {
      assert r == [r[0]] + r[1..|r| - 1] + [r[|r| - 1]];
    }
  }

  lemma RingBack(tcbs: map<Id, Tcb>, ring: seq<Id>, cursor: Id, c: Tcb)
    requires RingInv(tcbs, ring, cursor) && ring != [] && !c.state.Ready?
    ensures RingInv(tcbs[ring[0] := c], Backed(ring), if Backed(ring) == [] then IDLE else Backed(ring)[0])
    ensures Backed(ring) != [] ==> Backed(ring)[0] in tcbs
  {
    BackedMembers(ring);
    assert Backed(ring) != [] ==> Backed(ring)[0] in Backed(ring);
  }

  lemma TimeAdd(tcbs: map<Id, Tcb>, timeouts: seq<Due>, forever: nat, t: Id, c: Tcb, timeout: nat)
    requires TimeInv(tcbs, timeouts, forever) && t in tcbs && !tcbs[t].wakeup && c.wakeup && timeout <= forever
    ensures TimeInv(tcbs[t := c], InsertDue(timeouts, t, timeout), forever)
  {
    var l := InsertDue(timeouts, t, timeout);
    assert Times(l) == Times(timeouts)[t := timeout] && Unique(l) by { InsertDueTimes(timeouts, t, timeout); }
    assert forall d :: d in l ==> d.left <= forever by { InsertDueMembers(timeouts, t, timeout); }
    assert Sorted(l) by { var k := InsertDueSplits(timeouts, t, timeout); }
  }

  lemma TimeSame(tcbs: map<Id, Tcb>, timeouts: seq<Due>, forever: nat, t: Id, c: Tcb)
    requires TimeInv(tcbs, timeouts, forever) && t in tcbs && tcbs[t].wakeup == c.wakeup
    ensures TimeInv(tcbs[t := c], timeouts, forever)
  {
  }

  lemma QueueAdd(tcbs: map<Id, Tcb>, queues: map<Id, seq<Id>>, t: Id, c: Tcb, q: Id)
    requires QueueInv(tcbs, queues) && t in tcbs && tcbs[t].waiting == Null && q in queues && c.waiting == q
    ensures QueueInv(tcbs[t := c], queues[q := queues[q] + [t]])
  {
    hide Distinct;
    assert t !in queues[q];
    AppendedMembers(queues[q], t);
  }

  lemma AppendedMembers(w: seq<Id>, t: Id)
    requires Distinct(w) && t !in w
    ensures Distinct(w + [t]) && forall x :: x in w + [t] <==> x in w || x == t
  {
  }

  /** The running thread blocks; c is its control block, linked in the queues or not. */
  lemma PendedKeeps(s: Sys, s1: Sys, timeout: nat, c: Tcb)
    requires Core(s) && Running(s) && s.tcbs[s.current].state.Ready? && timeout <= s.cfg.forever
    requires s1 == s.(tcbs := s.tcbs[s.current := c], queues := s1.queues)
    requires QueueInv(s1.tcbs, s1.queues) && !c.wakeup
    ensures Core(Pended(s1, timeout, c)) && Running(Pended(s1, timeout, c))
    ensures Tidy(s) ==> (Tidy(Pended(s1, timeout, c)) <==> timeout == s.cfg.forever || c.waiting != Null || c.clean)
  {
    hide RingInv, TimeInv, QueueInv;
    var s', t := Pended(s1, timeout, c), s.current;
    var c' := s'.tcbs[t];
    Overwritten(s.tcbs, t, c, c');
    RingBack(s.tcbs, s.ring, s.cursor, c');
    assert TimeInv(s'.tcbs, s'.timeouts, s.cfg.forever) by {
      if timeout != s.cfg.forever {
        TimeAdd(s.tcbs, s.timeouts, s.cfg.forever, t, c', timeout);
      } else {
        TimeSame(s.tcbs, s.timeouts, s.cfg.forever, t, c');
      }
    }
    QueueSame(s1.tcbs, s1.queues, t, c');
    assert s'.current in s'.tcbs;
    assert forall x :: x in s'.tcbs ==> TcbInv(x, s'.tcbs[x]);
  }

  lemma QueueSame(tcbs: map<Id, Tcb>, queues: map<Id, seq<Id>>, t: Id, c: Tcb)
    requires QueueInv(tcbs, queues) && t in tcbs && tcbs[t].waiting == c.waiting
    ensures QueueInv(tcbs[t := c], queues)
  {
  }

  lemma PendOnKeeps(s: Sys, q: Id, timeout: nat)
    requires Inv(s) && s.tcbs[s.current].state.Ready? && q in s.queues && timeout <= s.cfg.forever
    ensures Inv(PendCurrentOn(s, q, timeout))
    ensures PendCurrentOn(s, q, timeout) ==
            Pended(s, timeout, s.tcbs[s.current].(waiting := q, clean := false)).(queues := s.queues[q := s.queues[q] + [s.current]])
  {
    var c := s.tcbs[s.current].(waiting := q, clean := false);
    var s1 := s.(tcbs := s.tcbs[s.current := c], queues := s.queues[q := s.queues[q] + [s.current]]);
    QueueAdd(s.tcbs, s.queues, s.current, c, q);
    PendCurrentPends(s1, timeout);
    PendedKeeps(s, s1, timeout, c);
    Overwritten(s.tcbs, s.current, c, Pended(s, timeout, c).tcbs[s.current]);
  }

  /** Sleeping keeps everything but `Tidy`, and that if and only if the tick will not wake the
      thread or its node is harmless.  `Tidy` is what a caller can answer for; whether the tick
      does damage is decided by the pointers at that time. */
  lemma SleepKeeps(s: Sys, timeout: nat)
    requires Inv(s) && s.tcbs[s.current].state.Ready? && timeout <= s.cfg.forever
    ensures Core(PendCurrent(s, timeout)) && Running(PendCurrent(s, timeout))
    ensures Inv(PendCurrent(s, timeout)) <==> timeout == s.cfg.forever || s.tcbs[s.current].clean
  {
    PendCurrentPends(s, timeout);
    assert s.tcbs == s.tcbs[s.current := s.tcbs[s.current]];
    PendedKeeps(s, s, timeout, s.tcbs[s.current]);
  }

  lemma SchedulerKeeps(s: Sys)
    requires Inv(s)
    ensures Inv(Scheduler(s))
  {
    var c := s.tcbs[s.current].(expired := false, canceled := false);
    TweakKeeps(s, s.current, c);
    if s.tcbs[s.current].state.Ready? {
      RotatedMembers(s.ring, 1);
      assert s.ring[..1] == [s.ring[0]];
    }
  }

  // ----- loops -----

  lemma AgeKeeps(s: Sys, time: nat)
    requires Core(s)
    ensures Core(s.(timeouts := Age(s.timeouts, time))) && (Tidy(s) ==> Tidy(s.(timeouts := Age(s.timeouts, time))))
  {
    AgeTimes(s.timeouts, time);
  }

  lemma ExpireKeeps(s: Sys)
    requires Core(s) && s.timeouts != []
    ensures Core(Expire(s)) && (Running(s) ==> Running(Expire(s))) && (Tidy(s) ==> Tidy(Expire(s)))
  {
    ExpireWakes(s);
    var t := s.timeouts[0].id;
    WokenKeeps(s, t, s.tcbs[t].(expired := true, clean := s.tcbs[t].waiting == Null && s.tcbs[t].clean));
  }

  lemma {:induction false} DrainKeeps(s: Sys)
    requires Core(s)
    ensures Core(Drain(s)) && (Running(s) ==> Running(Drain(s))) && (Tidy(s) ==> Tidy(Drain(s)))
    decreases |s.timeouts|
  {
    if s.timeouts != [] && s.timeouts[0].left == 0 {
      ExpireKeeps(s);
      DrainKeeps(Expire(s));
    }
  }

  lemma UnpendKeeps(s: Sys, q: Id)
    requires Core(s)
    ensures Core(Unpend(s, q)) && (Running(s) ==> Running(Unpend(s, q))) && (Tidy(s) ==> Tidy(Unpend(s, q)))
  {
    if Waiters(s, q) != [] {
      UnpendWakes(s, q);
      WokenKeeps(s, Waiters(s, q)[0], s.tcbs[Waiters(s, q)[0]].(clean := true));
    }
  }

  lemma {:induction false} UnpendAllKeeps(s: Sys, q: Id)
    requires Core(s)
    ensures Core(UnpendAll(s, q)) && (Running(s) ==> Running(UnpendAll(s, q))) && (Tidy(s) ==> Tidy(UnpendAll(s, q)))
    decreases |Waiters(s, q)|
  {
    if Waiters(s, q) != [] {
      UnpendKeeps(s, q);
      UnpendAllKeeps(Unpend(s, q), q);
    }
  }

  lemma CancelFirstKeeps(s: Sys, q: Id)
    requires Core(s)
    ensures Core(CancelFirst(s, q)) && (Running(s) ==> Running(CancelFirst(s, q))) && (Tidy(s) ==> Tidy(CancelFirst(s, q)))
  {
    if Waiters(s, q) != [] {
      CancelFirstWakes(s, q);
      WokenKeeps(s, Waiters(s, q)[0], s.tcbs[Waiters(s, q)[0]].(clean := true, canceled := true));
    }
  }

  lemma {:induction false} CancelAllKeeps(s: Sys, q: Id)
    requires Core(s)
    ensures Core(CancelAll(s, q)) && (Running(s) ==> Running(CancelAll(s, q))) && (Tidy(s) ==> Tidy(CancelAll(s, q)))
    decreases |Waiters(s, q)|
  {
    if Waiters(s, q) != [] {
      CancelFirstKeeps(s, q);
      CancelAllKeeps(CancelFirst(s, q), q);
    }
  }

  /** The queue itself under z_unpend_first_thread. */
  lemma UnpendThread(s: Sys, q: Id)
    requires Core(s)
    ensures q in s.queues ==> q in Unpend(s, q).queues
    ensures Waiters(s, q) == [] ==> Unpend(s, q) == s
    ensures Waiters(s, q) != [] ==> Waiters(s, q)[0] in Unpend(s, q).tcbs && Waiters(Unpend(s, q), q) == Waiters(s, q)[1..]
  {
    if Waiters(s, q) != [] {
      UnpendWakes(s, q);
    }
  }

  /** One round of z_cancel_all_pending. */
  lemma CancelStep(s: Sys, q: Id)
    requires Core(s)
    ensures q in s.queues ==> q in CancelFirst(s, q).queues
    ensures CancelAll(CancelFirst(s, q), q) == CancelAll(s, q)
    ensures Waiters(s, q) == [] ==> CancelFirst(s, q) == s && CancelAll(s, q) == s
    ensures Waiters(s, q) != [] ==> Waiters(CancelFirst(s, q), q) == Waiters(s, q)[1..]
  {
    if Waiters(s, q) != [] {
      CancelFirstWakes(s, q);
      WaiterPends(s, q, Waiters(s, q)[0]);
    }
  }
}
