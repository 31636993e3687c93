/**
  The pointer code of src/avrtos/kernel.c.

  Two memories hold the nodes: `ties` the union `tie` of every thread, which is a node of
  the run ring or an item of the timeout queue; `waits` the wait-queue node of every
  thread and the heads of the wait queues.  `s` is the state of the scheduler that the
  pointers represent.  Every method is proved to compute the function of `Sched` that
  specifies it.
*/
module Kernel {
  import opened Links
  import opened DeltaQueue
  import opened TimeQueue
  import opened Sched
  import opened SchedInv
  import opened KernelRep
  import A = Abort
  import opened SchedRuns
  import opened Waits
  import opened Errno

  /** A uint8_t counter. */
  function Byte(n: nat): nat {
    n % 256
  }

  lemma ByteNext(n: nat)
    ensures Byte(Byte(n) + 1) == Byte(n + 1) && Byte(0) == 0
  {
  }

  lemma ByteCast(n: nat)
    ensures Int8(Byte(n)) == Int8(n)
  {
  }

  class Kernel {
    const ties: Memory
    const waits: Memory
    const timeouts: TQueue
    const slice: nat
    var flags: map<Id, Bits>
    var swap: map<Id, Swap>
    var current: Id
    var runQueue: Id
    var readyCount: nat
    ghost var s: Sys

    ghost function Now(): Image
      reads this, ties, waits, timeouts
    {
      Image(flags, swap, current, runQueue, readyCount, ties.cells, waits.cells, timeouts.root, timeouts.q)
    }

    ghost predicate Valid()
      reads this, ties, waits, timeouts
    {
      Wired() && Rep(Now(), s)
    }

    ghost predicate Wired()
      reads this
    {
      ties != waits && timeouts.mem == ties && timeouts.max == s.cfg.forever && s.cfg.slice == slice <= s.cfg.forever
    }

    /** The initialisers of z_ker and of the main thread, dlist_init for every wait queue, and
        z_init_threads, which links the auto-started threads behind the main thread. */
    constructor (cfg: Config, ready: seq<Id>, others: set<Id>, queues: seq<Id>)
      requires 1 <= cfg.slice <= cfg.forever && |ready| + |others| <= 254 && Join(0) in queues && Join(1) in queues
      requires Distinct([MAIN] + ready) && IDLE !in ready
      requires forall t :: t in others ==> t.Thread? && Join(t.n) in queues
      requires forall t :: t in ready ==> t.Thread? && Join(t.n) in queues
      requires forall q :: q in queues ==> q.Queue? || q.Join?
      ensures Valid() && fresh(ties) && fresh(waits) && fresh(timeouts)
      ensures Inv(s) && s == Boot(cfg, ready, others, Elems(queues))
      ensures forall t: Id :: t.Thread? ==> At(waits.cells, t) == Node(Null, Null)
    {
      hide Inv, Rep, FlagsRep, QueueInv, QueuesRep, TiesRep, Apart, Ring, Boot, BootFlags, BootSwap, Elems;
      var t := new Memory();
      var w := new Memory();
      ties, waits, slice := t, w, cfg.slice;
      var tq := new TQueue(t, cfg.forever);
      timeouts := tq;
      flags, swap := BootFlags(ready, others), BootSwap(ready, others);
      current, runQueue, readyCount := MAIN, MAIN, 1;
      s := Boot(cfg, ready, others, Elems(queues));
      new;
      BootInv(cfg, ready, others, Elems(queues));
      BootRep(cfg, ready, others, Elems(queues));
      ties.Init(MAIN);
      LinkAll(ready);
      InitQueues(queues);
      BootQueues(waits.cells, cfg, ready, others, Elems(queues));
      BootImage(Now(), cfg, ready, others, Elems(queues));
    }

    /** The loop of z_init_threads. */
    method LinkAll(ready: seq<Id>)
      requires Ring(ties.cells, [MAIN]) && runQueue == MAIN && readyCount == 1 && Distinct([MAIN] + ready) && Null !in ready
      modifies this`readyCount, ties
      ensures Ring(ties.cells, [MAIN] + ready) && readyCount == 1 + |ready|
    {
      hide Ring;
      assert [MAIN] + ready[..0] == [MAIN];
      for i := 0 to |ready|
        invariant Ring(ties.cells, [MAIN] + ready[..i]) && readyCount == 1 + i
      {
        readyCount := readyCount + 1;
        NextFresh(ready, i);
        ties.Append(runQueue, ready[i], ready[..i]);
        assert [MAIN] + ready[..i] + [ready[i]] == [MAIN] + ready[..i + 1];
      }
      assert ready[..|ready|] == ready;
    }

    /** dlist_init for each of the wait queues. */
    method InitQueues(queues: seq<Id>)
      requires Null !in queues
      modifies waits
      ensures forall q :: q in queues ==> Ring(waits.cells, [q])
      ensures Frame(old(waits.cells), waits.cells, Elems(queues)) && (Null in waits.cells <==> Null in old(waits.cells))
    {
      for i := 0 to |queues|
        invariant forall k :: 0 <= k < i ==> Ring(waits.cells, [queues[k]])
        invariant Frame(old(waits.cells), waits.cells, Elems(queues)) && (Null in waits.cells <==> Null in old(waits.cells))
      {
        ghost var c := waits.cells;
        assert queues[i] in queues;
        waits.Init(queues[i]);
        forall k | 0 <= k < i ensures Ring(waits.cells, [queues[k]]) {
          if queues[k] != queues[i] {
            RingFramed(c, waits.cells, [queues[k]], {queues[i]});
          }
        }
      }
    }

    /** The part of z_schedule that links the tie into the run ring. */
    method LinkReady(t: Id)
      requires t != Null && t !in s.ring && readyCount == |s.ring| && RingRep(ties.cells, s.ring)
      requires s.ring != [] ==> runQueue == s.ring[0]
      modifies this`runQueue, ties
      ensures Ring(ties.cells, Joined(s.ring, t)) && Frame(old(ties.cells), ties.cells, Elems(s.ring) + {t})
      ensures runQueue == if s.ring == [] then t else old(runQueue)
    {
      if readyCount == 0 {
        ties.Init(t);
        runQueue := t;
      } else {
        assert s.ring == [s.ring[0]] + s.ring[1..];
        ties.Prepend(runQueue, t, s.ring[1..]);
      }
    }

    /** z_schedule. */
    method Schedule(t: Id)
      requires Valid() && t in s.tcbs && t !in s.ring && t !in Items(timeouts.q) && |s.ring| < 255
      requires s.ring != [] ==> s.cursor == s.ring[0]
      modifies this, ties
      ensures Valid() && s == Sched.Schedule(old(s), t)
    {
      hide Rep, Items, Sched.Schedule;
      ScheduleOver(t, waits.cells);
    }

    /** The same when only w, in place of the wait queues' memory, represents the state. */
    method ScheduleOver(t: Id, ghost w: Cells)
      requires Wired() && Rep(Now().(waits := w), s)
      requires t in s.tcbs && t !in s.ring && t !in Items(timeouts.q) && |s.ring| < 255
      requires s.ring != [] ==> s.cursor == s.ring[0]
      modifies this, ties
      ensures Wired() && Rep(Now().(waits := w), s) && s == Sched.Schedule(old(s), t)
    {
      hide Rep, RingRep, Ring;
      ghost var m := Now().(waits := w);
      RepFacts(m, s);
      RepThread(m, s, t);
      flags := flags[t := flags[t].(state := Ready)];
      LinkReady(t);
      readyCount := readyCount + 1;
      ScheduleRep(m, s, t, ties.cells);
      s := Sched.Schedule(s, t);
    }

    /** z_cancel_scheduled_wake_up. */
    method CancelScheduledWakeUp(t: Id)
      requires Valid() && t in s.tcbs
      modifies this, ties, timeouts
      ensures Valid() && s == CancelWakeUp(old(s), t)
      ensures timeouts.q == if old(s.tcbs[t].wakeup) then Delete(old(timeouts.q), t) else old(timeouts.q)
    {
      hide Rep, Ring, RingRep, Seg, Items, Dues, Forget, Delete;
      ghost var m := Now();
      RepFacts(m, s);
      RepThread(m, s, t);
      if flags[t].wakeup {
        flags := flags[t := flags[t].(wakeup := false)];
        DeleteItems(timeouts.q, t);
        DeleteMeans(timeouts.q, t, 0);
        var ret := timeouts.Remove(t);
        ghost var c := s.tcbs[t].(wakeup := false);
        BitsRep(m, s, t, c);
        TimeoutsRep(m.(flags := flags), Put(s, t, c), ties.cells, timeouts.root, timeouts.q);
        s := CancelWakeUp(s, t);
      }
    }

    /** z_suspend of a READY thread: the ring closes over it. */
    method LeaveRing(t: Id)
      requires Valid() && t in s.ring && s.ring != [] && s.cursor == s.ring[0] && Distinct(s.ring)
      requires t == current ==> t == s.ring[0]
      requires Of(s, t).state.Ready?
      modifies this, ties
      ensures Valid() && s == Sched.Suspend(old(s), t)
    {
      hide Rep, Ring, Seg, Dues, Sched.Suspend, Without, Distinct, IndexOf, Unlinked, SameMemory, Adjacent, Frame, Of, Items, UniqueItems, Total;
      ghost var m := Now();
      ghost var k := IndexOf(s.ring, t);
      RepFacts(m, s);
      ties.Remove(t, s.ring, k);
      readyCount := readyCount - 1;
      if readyCount == 0 {
        runQueue := IDLE;
      } else if t == current {
        runQueue := Prev(ties.cells, Next(ties.cells, t));
      }
      LeaveRep(m, s, t, ties.cells, runQueue);
      s := Sched.Suspend(s, t);
    }

    /** z_suspend. */
    method Suspend(t: Id)
      requires Valid() && t in s.tcbs && (s.tcbs[t].state.Pending? || s.tcbs[t].state.Ready?)
      requires s.tcbs[t].state.Ready? ==> t in s.ring && s.cursor == s.ring[0] && Distinct(s.ring) && (t == current ==> t == s.ring[0])
      modifies this, ties, timeouts
      ensures Valid() && s == Sched.Suspend(old(s), t)
      ensures old(s.tcbs[t].state.Ready?) ==> timeouts.q == old(timeouts.q)
    {
      hide Rep, Items;
      RepThread(Now(), s, t);
      if flags[t].state.Pending? {
        CancelScheduledWakeUp(t);
      } else {
        LeaveRing(t);
      }
    }

    /** z_schedule_wake_up. */
    method ScheduleWakeUp(timeout: nat)
      requires Valid() && current in s.tcbs && current !in s.ring && current !in Items(timeouts.q)
      requires timeout <= s.cfg.forever
      modifies this, ties, timeouts
      ensures Valid() && s == Sched.ScheduleWakeUp(old(s), timeout)
    {
      hide Rep, Seg, Items, Dues, Insert, InsertDue;
      ghost var m := Now();
      RepFacts(m, s);
      RepThread(m, s, current);
      if timeout != timeouts.max {
        flags := flags[current := flags[current].(wakeup := true)];
        timeouts.Schedule(current, timeout);
        ghost var c := s.tcbs[current].(wakeup := true);
        BitsRep(m, s, current, c);
        ScheduledRep(m.(flags := flags), Put(s, current, c), current, timeout, ties.cells, timeouts.root);
      }
      s := Sched.ScheduleWakeUp(s, timeout);
    }

    /** z_scheduler. */
    method Scheduler() returns (prev: Id)
      requires Valid() && current in s.tcbs
      requires s.tcbs[current].state.Ready? ==> s.ring != [] && s.cursor == s.ring[0]
      modifies this
      ensures Valid() && s == Sched.Scheduler(old(s)) && prev == old(current)
    {
      hide Rep, Ring, Items;
      ghost var m := Now();
      RepFacts(m, s);
      RepThread(m, s, current);
      prev := current;
      flags := flags[prev := flags[prev].(expired := false, canceled := false)];
      ghost var s1 := Put(s, current, s.tcbs[current].(expired := false, canceled := false));
      BitsRep(m, s, current, s1.tcbs[current]);
      if flags[prev].state.Ready? {
        ghost var r := s.ring[1..] + [s.ring[0]];
        RotateRep(Now(), s1);
        runQueue := Next(ties.cells, runQueue);
        s1 := s1.(ring := r, cursor := r[0]);
      }
      CurrentRep(Now(), s1, runQueue);
      current := runQueue;
      s := Sched.Scheduler(s);
    }

    /** z_pend_current: suspends the running thread, arms its timeout and switches. */
    method PendCurrent(timeout: nat)
      requires Valid() && current in s.tcbs && s.tcbs[current].state.Ready? && timeout <= s.cfg.forever
      requires s.ring != [] && s.ring[0] == current && s.cursor == current && Distinct(s.ring)
      modifies this, ties, timeouts
      ensures Valid() && s == Sched.PendCurrent(old(s), timeout)
    {
      hide Rep, Items, InsertDue, Backed, Sched.Suspend;
      ghost var t := current;
      RepFacts(Now(), s);
      SuspendBacks(s);
      BackedMembers(s.ring);
      assert t in s.ring && t !in Items(timeouts.q);
      Suspend(current);
      RepFacts(Now(), s);
      ScheduleWakeUp(timeout);
      RepFacts(Now(), s);
      SetState(current, Pending);
      RepFacts(Now(), s);
      var prev := Scheduler();
    }

    /** z_pend_current_on, up to the switch. */
    method PendCurrentOn(q: Id, timeout: nat) returns (r: Outcome)
      requires Valid() && Inv(s) && q in s.queues && timeout <= s.cfg.forever
      requires timeout > 0 ==> s.tcbs[current].state.Ready?
      modifies this, ties, waits, timeouts
      ensures Valid() && Inv(s) && r == (if timeout == 0 then Done(EAGAIN) else Blocked)
      ensures s == if timeout != 0 then Sched.PendCurrentOn(old(s), q, timeout) else old(s)
      ensures Frame(old(waits.cells), waits.cells, Elems([q] + old(s.queues[q])) + {old(s).current})
    {
      hide Rep, Inv, QueueInv, Ring, Sched.PendCurrent;
      if timeout == 0 {
        return Done(EAGAIN);
      }
      ghost var m, w, t := Now(), s.queues[q], s.current;
      RepFacts(m, s);
      BlockFacts(m, s, q);
      ghost var c := s.tcbs[t].(waiting := q, clean := false);
      RepNull(m, s);
      waits.Append(q, current, w);
      assert [q] + w + [t] == [q] + (w + [t]);
      WaitsRep(m, s, waits.cells, q, t, c, w + [t]);
      PendOnKeeps(s, q, timeout);
      s := Put(s, t, c).(queues := s.queues[q := w + [t]]);
      PendCurrent(timeout);
      return Blocked;
    }

    /** The end of z_pend_current_on, when the thread runs again. */
    method WaitResult() returns (err: int)
      requires Valid() && current in s.tcbs
      ensures err == ReturnCode(s.tcbs[current])
    {
      hide Rep;
      RepThread(Now(), s, current);
      if flags[current].expired {
        err := ETIMEDOUT;
      } else if flags[current].canceled {
        err := ECANCELED;
      } else {
        err := 0;
      }
    }

    /** z_wake_up. */
    method WakeUp(t: Id)
      requires Valid() && t in s.tcbs && t !in s.ring && |s.ring| < 255 && (s.ring != [] ==> s.cursor == s.ring[0])
      requires s.tcbs[t].wakeup || t !in Items(timeouts.q)
      modifies this, ties, timeouts
      ensures Valid() && s == Sched.WakeUp(old(s), t)
    {
      hide Rep, Items, Forget, Delete;
      RepFacts(Now(), s);
      DeleteItems(timeouts.q, t);
      CancelScheduledWakeUp(t);
      Schedule(t);
    }

    /** z_unpend_first_thread: Null when nobody waits. */
    method UnpendFirst(q: Id) returns (t: Id)
      requires Valid() && q in s.queues && (s.queues[q] != [] ==> Core(s))
      modifies this, ties, waits, timeouts
      ensures Valid() && (old(Core(s)) ==> Core(s)) && s == Unpend(old(s), q)
      ensures t == if old(s.queues[q]) == [] then Null else old(s.queues[q])[0]
    {
      hide Rep, Core, Items, Ring, Sched.WakeUp, Drop;
      ghost var m, w := Now(), s.queues[q];
      RepQueue(m, s, q);
      if Core(s) {
        UnpendKeeps(s, q);
      }
      RepNull(m, s);
      t := waits.Get(q, w);
      if t == q {
        SameWaits(m, s, waits.cells);
        t := Null;
      } else {
        ghost var c := waits.cells;
        waits.Init(t);
        RingFramed(c, waits.cells, [q] + w[1..], {t});
        UnlinkRep(m, s, q, waits.cells);
        UnpendFacts(m, s, q);
        s := Unlink(s, q, t, true);
        WakeUp(t);
      }
    }

    /** z_unpend_first_and_swap. */
    method UnpendFirstAndSwap(q: Id, data: Swap) returns (t: Id)
      requires Valid() && Core(s) && q in s.queues
      modifies this, ties, waits, timeouts
      ensures Valid() && s == UnpendSwap(old(s), q, data)
      ensures t == if old(s.queues[q]) == [] then Null else old(s.queues[q])[0]
    {
      hide Rep, Core, Items, Unpend;
      RepQueue(Now(), s, q);
      UnpendThread(s, q);
      t := UnpendFirst(q);
      if t != Null {
        SwapRep(Now(), s, t, data);
        swap := swap[t := data];
        s := Put(s, t, s.tcbs[t].(swap := data));
      }
    }

    /** z_cancel_first_pending. */
    method CancelFirstPending(q: Id) returns (t: Id)
      requires Valid() && Core(s) && q in s.queues
      modifies this, ties, waits, timeouts
      ensures Valid() && Core(s) && s == CancelFirst(old(s), q)
      ensures t == if old(s.queues[q]) == [] then Null else old(s.queues[q])[0]
    {
      hide Rep, Core, Items, Unpend;
      RepQueue(Now(), s, q);
      UnpendThread(s, q);
      CancelFirstKeeps(s, q);
      t := UnpendFirst(q);
      if t != Null {
        RepThread(Now(), s, t);
        BitsRep(Now(), s, t, s.tcbs[t].(canceled := true));
        flags := flags[t := flags[t].(canceled := true)];
        s := Put(s, t, s.tcbs[t].(canceled := true));
      }
    }

    /** z_cancel_all_pending: the number of canceled threads, counted in a byte. */
    method CancelAllPending(q: Id) returns (count: nat)
      requires Valid() && Core(s) && q in s.queues
      modifies this, ties, waits, timeouts
      ensures Valid() && Core(s) && s == CancelAll(old(s), q) && Waiters(s, q) == []
      ensures count == Byte(|old(s.queues[q])|)
    {
      hide Rep, Core, Items, CancelFirst, CancelAll, Byte;
      count := 0;
      ByteNext(0);
      ghost var n := 0;
      while true
        invariant Valid() && Core(s) && q in s.queues && CancelAll(s, q) == CancelAll(old(s), q)
        invariant n + |s.queues[q]| == |old(s.queues[q])| && count == Byte(n)
        decreases |s.queues[q]|
      {
        RepQueue(Now(), s, q);
        CancelStep(s, q);
        var t := CancelFirstPending(q);
        if t == Null {
          break;
        }
        ByteNext(n);
        count := Byte(count + 1);
        n := n + 1;
      }
    }

    /** dlist_remove of the wait-queue node of a thread that waits. */
    method LeaveWaitQueue(t: Id)
      requires Valid() && t in s.tcbs && s.tcbs[t].waiting in s.queues && t in s.queues[s.tcbs[t].waiting]
      modifies this, waits
      ensures Valid() && s == Unlink(old(s), old(s).tcbs[t].waiting, t, false)
      ensures Unlinked(old(waits.cells), waits.cells, t) && At(waits.cells, t) == At(old(waits.cells), t)
    {
      hide Rep, Ring, Without, Drop, Unlinked;
      ghost var m, q := Now(), s.tcbs[t].waiting;
      RepWaiter(m, s, q, t);
      RepNull(m, s);
      LeaveFrame(waits.cells, [q] + s.queues[q], 1 + IndexOf(s.queues[q], t));
      ConsWithout(q, s.queues[q], t);
      RingReal(waits.cells, [q] + s.queues[q]);
      waits.Remove(t, [q] + s.queues[q], 1 + IndexOf(s.queues[q], t));
      UnlinkStaleRep(m, s, q, t, waits.cells);
      s := Unlink(s, q, t, false);
    }

    /**
      One round of the loop of z_sched_enter, after an item was popped.  The wait-queue node of
      the thread is unlinked whether it waits or not, and the pointers represent the new state if
      and only if that does no damage.
    */
    method ExpireOne(t: Id, ghost m: Image, ghost s0: Sys)
      requires Rep(m, s0) && Core(s0) && m.q != [] && m.q[0].delay == 0 && m.q[0].id == t
      requires s0 == s && Now() == m.(root := timeouts.root, q := m.q[1..]) && Seg(m.ties, timeouts.root, m.q[1..], Null)
      requires Wired()
      modifies this, ties, waits
      ensures Wired() && s0.timeouts != [] && t == s0.timeouts[0].id && s == Expire(s0)
      ensures Valid() <==> Expirable(old(waits.cells), s0)
      ensures Unlinked(old(waits.cells), waits.cells, t) && (Of(s0, t).waiting != Null ==> At(waits.cells, t) == At(old(waits.cells), t))
      ensures Null in waits.cells <==> Null in {Prev(old(waits.cells), t), Next(old(waits.cells), t)}
    {
      hide Rep, Core, Items, Seg, Drop, Unlinked, Unlinkable, Ring, Without, SameMemory, Adjacent, IndexOf;
      ExpireFacts(m, s);
      RepThread(m, s, t);
      RepNull(m, s);
      PopRep(m, s, timeouts.root);
      flags := flags[t := flags[t].(expired := true, wakeup := false)];
      ghost var c := s.tcbs[t].(expired := true, wakeup := false);
      s := Put(s, t, c).(timeouts := s.timeouts[1..]);
      ghost var m1, w, q := Now(), waits.cells, c.waiting;
      ghost var r, k := if q == Null then [] else [q] + s.queues[q], if q == Null then 0 else 1 + IndexOf(s.queues[q], t);
      if q != Null {
        QueueNeighbours(m1, s, t);
        RepWaiter(m1, s, q, t);
        ConsWithout(q, s.queues[q], t);
      }
      waits.Remove(t, r, k);
      if q != Null {
        UnlinkStaleRep(m1, s, q, t, waits.cells);
        s := Unlink(s, q, t, false);
        w := waits.cells;
      }
      ScheduleOver(t, w);
      if q == Null {
        UnlinkIdleRep(Now().(waits := w), s, t, waits.cells);
        Overwritten(s0.tcbs, t, c, s.tcbs[t]);
        UnlinkableSame(w, s0, t, s.tcbs[t]);
      }
    }

    /** One round of the loop of z_sched_enter: false when no thread is due. */
    method ExpireNext() returns (more: bool)
      requires Valid() && Core(s)
      modifies this, ties, waits, timeouts
      ensures more == (old(s).timeouts != [] && old(s).timeouts[0].left == 0)
      ensures !more ==> Valid() && s == old(s)
      ensures more ==> Wired() && Core(s) && s == Expire(old(s)) && (Valid() <==> Expirable(old(waits.cells), old(s)))
      ensures more ==> var t := old(s).timeouts[0].id;
                       && Unlinked(old(waits.cells), waits.cells, t)
                       && (Of(old(s), t).waiting != Null ==> At(waits.cells, t) == At(old(waits.cells), t))
                       && (Null in waits.cells <==> Null in {Prev(old(waits.cells), t), Next(old(waits.cells), t)})
    {
      hide Rep, Core, Items, Seg, Dues, Unlinked, Unlinkable, Expirable, Expire;
      ghost var m := Now();
      RepFacts(m, s);
      HeadLeft(m, s);
      var t := timeouts.Pop();
      if t == Null {
        return false;
      }
      ExpireKeeps(s);
      ExpireOne(t, m, s);
      return true;
    }

    /** z_sched_enter up to its loop: a slice of time has passed. */
    method Elapse()
      requires Valid()
      modifies this`s, ties, timeouts
      ensures Valid() && s == old(s).(timeouts := Age(old(s).timeouts, slice))
      ensures old(Core(s)) ==> Core(s)
    {
      hide Rep, Core, Items, Seg, Shift, Dues, Age;
      if Core(s) {
        AgeKeeps(s, slice);
      }
      ghost var m := Now();
      RepFacts(m, s);
      ShiftItems(timeouts.q, slice);
      ShiftTotal(timeouts.q, slice);
      ShiftMeans(timeouts.q, slice, 0);
      timeouts.Elapse(slice);
      TimeoutsRep(m, s, ties.cells, timeouts.root, timeouts.q);
      s := s.(timeouts := Age(s.timeouts, slice));
    }

    /** z_sched_enter, as far as threads are concerned. */
    method SchedEnter()
      requires Valid() && Inv(s)
      modifies this, ties, waits, timeouts
      ensures Valid() && Inv(s) && s == Sched.Tick(old(s))
    {
      hide Rep, Core, Items, Seg, Running, Tidy, Age, Drain, Expire, Unlinked, Unlinkable;
      StepKeeps(s, Step.Tick);
      AgeKeeps(s, slice);
      Elapse();
      while true
        invariant Valid() && Core(s) && Tidy(s) && Drain(s) == Sched.Tick(old(s))
        decreases |s.timeouts|
      {
        DrainStep(s);
        TidyExpires(Now(), s);
        var more := ExpireNext();
        if !more {
          break;
        }
      }
    }

    /** k_thread_start. */
    method ThreadStart(t: Id) returns (ret: int)
      requires Valid() && Inv(s) && t in s.tcbs
      modifies this, ties
      ensures Valid() && Inv(s)
      ensures if old(s.tcbs[t].state.Stopped?) then ret == 0 && s == Sched.Schedule(old(s), t)
              else ret == EAGAIN && s == old(s)
    {
      hide Rep, Items, RingInv, TimeInv, QueueInv;
      RepThread(Now(), s, t);
      if flags[t].state != Stopped {
        return EAGAIN;
      }
      StartFacts(Now(), s, t);
      StepKeeps(s, Start(t));
      Schedule(t);
      return 0;
    }

    /** The loop of k_thread_abort over the threads that join. */
    method WakeAll(q: Id)
      requires Valid() && q in s.queues && (s.queues[q] != [] ==> Core(s))
      modifies this, ties, waits, timeouts
      ensures Valid() && s == UnpendAll(old(s), q)
    {
      hide Rep, Core, Items, Unpend, UnpendAll;
      while true
        invariant Valid() && q in s.queues && (s.queues[q] != [] ==> Core(s)) && UnpendAll(s, q) == UnpendAll(old(s), q)
        decreases |s.queues[q]|
      {
        RepQueue(Now(), s, q);
        if s.queues[q] == [] {
          NobodyJoins(s, q);
        } else {
          UnpendStep(s, q);
        }
        var waiter := UnpendFirst(q);
        if waiter == Null {
          break;
        }
      }
    }

    /** k_thread_abort of an abortable thread, or of any thread that nobody joins: the invariant
        survives if and only if the thread is abortable. */
    method ThreadAbort(t: Id) returns (ret: int)
      requires Valid() && Inv(s) && t in s.tcbs && t != IDLE
      requires s.tcbs[t].state.Stopped? || A.Abortable(s, t) || Waiters(s, A.JoinQueue(t)) == []
      modifies this, ties, waits, timeouts
      ensures Valid()
      ensures if old(s.tcbs[t].state.Stopped?) then ret == EINVAL && s == old(s)
              else ret == 0 && s == Sched.Abort(old(s), t) && Of(s, t).state.Stopped? && (Inv(s) <==> A.Abortable(old(s), t))
    {
      hide Rep, Inv, Core, Items, A.Halted, Unpend, UnpendAll, Running, Sched.Abort, Sched.Suspend;
      RepFacts(Now(), s);
      RepThread(Now(), s, t);
      if flags[t].state == Stopped {
        return EINVAL;
      }
      ghost var s0, q := s, A.JoinQueue(t);
      A.AbortExact(s, t);
      AbortFacts(s, t);
      AbortStops(s, t);
      Suspend(t);
      SetState(t, Stopped);
      WakeAll(Join(t.n));
      A.UnpendAllOnly(A.Halted(s0, t), q, t);
      RepFacts(Now(), s);
      if t == current {
        var prev := Scheduler();
      }
      return 0;
    }

    /** z_set_thread_state. */
    method SetState(t: Id, state: State)
      requires Valid() && t in s.tcbs
      modifies this
      ensures Valid() && s == Put(old(s), t, old(s).tcbs[t].(state := state))
    {
      hide Rep;
      ghost var c := s.tcbs[t].(state := state);
      RepThread(Now(), s, t);
      BitsRep(Now(), s, t, c);
      flags := flags[t := flags[t].(state := state)];
      s := Put(s, t, c);
    }

    /** k_yield. */
    method Yield()
      requires Valid() && Inv(s)
      modifies this
      ensures Valid() && Inv(s) && s == Sched.Scheduler(old(s))
    {
      hide Rep, Sched.Scheduler, RingInv, TimeInv, QueueInv, TcbInv;
      RepFacts(Now(), s);
      YieldFacts(s);
      StepKeeps(s, Step.Yield);
      var prev := Scheduler();
    }

    /** k_sleep: the invariant survives if and only if the tick will not wake the thread or
        its wait-queue node is harmless. */
    method Sleep(timeout: nat)
      requires Valid() && Inv(s) && s.tcbs[current].state.Ready? && timeout <= s.cfg.forever
      modifies this, ties, timeouts
      ensures Valid() && Core(s) && Running(s) && s == Sched.PendCurrent(old(s), timeout)
      ensures Inv(s) <==> timeout == s.cfg.forever || old(s.tcbs[current].clean)
    {
      hide Rep, Sched.PendCurrent, RingInv, TimeInv, QueueInv, TcbInv;
      RepFacts(Now(), s);
      YieldFacts(s);
      SleepKeeps(s, timeout);
      PendCurrent(timeout);
    }

    /** The wake-up of k_flags_notify: dlist_remove on the waiter's node, then z_wake_up. */
    method NotifyWaiter(q: Id, t: Id, data: Swap)
      requires Valid() && Inv(s) && q in s.queues && t in s.queues[q]
      modifies this, ties, waits, timeouts
      ensures Valid() && Inv(s) && s == WakeWaiter(old(s), q, t, data)
      ensures At(waits.cells, t) == At(old(waits.cells), t)
    {
      hide Rep, Items, RingInv, TimeInv, QueueInv, TcbInv, Drop, Times;
      ghost var m := Now();
      WaiterPends(s, q, t);
      StepKeeps(s, Notify(q, t, data));
      NotifyFacts(m, s, q, t);
      RepThread(m, s, t);
      SwapRep(m, s, t, data);
      swap := swap[t := data];
      s := Put(s, t, s.tcbs[t].(swap := data));
      LeaveWaitQueue(t);
      WakeUp(t);
    }

    /** A thread's swap_data, read by the code that wakes it. */
    method SwapData(t: Id) returns (data: Swap)
      requires Valid() && t in s.tcbs
      ensures data == s.tcbs[t].swap
    {
      hide Rep;
      RepThread(Now(), s, t);
      data := swap[t];
    }

    /** The running thread sets its own swap_data. */
    method SetSwapData(data: Swap)
      requires Valid() && Inv(s)
      modifies this
      ensures Valid() && Inv(s) && s == Do(old(s), SetSwap(data)) && current == old(current)
    {
      hide Rep, RingInv, TimeInv, QueueInv, TcbInv;
      CurrentIs();
      StepKeeps(s, SetSwap(data));
      SwapRep(Now(), s, current, data);
      swap := swap[current := data];
      s := Put(s, current, s.tcbs[current].(swap := data));
    }

    /** The pointers of a wait queue, as a loop over it reads them. */
    lemma QueueLinks(q: Id, passed: seq<Id>, ws: seq<Id>)
      requires Valid() && q in s.queues && s.queues[q] == passed + ws
      ensures q !in ws
      ensures passed == [] ==> Next(waits.cells, q) == if ws == [] then q else ws[0]
      ensures ws != [] ==> Next(waits.cells, ws[0]) == if |ws| == 1 then q else ws[1]
    {
      hide Rep;
      RepQueue(Now(), s, q);
      var r := [q] + (passed + ws);
      assert r[0] == q && forall i :: 0 <= i < |ws| ==> r[1 + |passed| + i] == ws[i];
    }

    lemma CurrentIs()
      requires Valid()
      ensures current == s.current
    {
      hide Rep;
      RepFacts(Now(), s);
    }
  }
}
