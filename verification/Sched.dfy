/**
  The scheduler of src/avrtos/kernel.c as a state machine.

  Every section that the kernel runs with interrupts disabled is one step.  The state
  holds the run ring in the order of its links, starting at the node that
  `z_ker.run_queue` points to; the timeout queue as the time left to each sleeper; and
  each wait queue in order.  `Kernel` shows that the pointer code computes these steps.
*/
module Sched {
  import opened Links
  import opened DeltaQueue

  datatype State = Stopped | Ready | Pending | Idle

  /** What `swap_data` carries: nothing, the two bytes of a flags request,
      the message behind the pointer, or a pointer. */
  datatype Swap = Nothing | Word(w: bv16) | Data(v: int) | Ptr(p: Id)

  /** A thread control block: the bits of `flags`, the wait queue it is linked in (or Null),
      and whether its wait-queue node is harmless to unlink while it is in no queue. */
  datatype Tcb = Tcb(state: State, expired: bool, canceled: bool, wakeup: bool,
                     waiting: Id, clean: bool, swap: Swap)

  /** FOREVER is the largest value of k_delta_t, `slice` the ticks between two scheduler entries. */
  datatype Config = Config(forever: nat, slice: nat)

  datatype Sys = Sys(cfg: Config, tcbs: map<Id, Tcb>, ring: seq<Id>, cursor: Id,
                     timeouts: seq<Due>, queues: map<Id, seq<Id>>, current: Id)

  const IDLE := Thread(0)
  const MAIN := Thread(1)

  function Of(s: Sys, t: Id): Tcb {
    if t in s.tcbs then s.tcbs[t] else Tcb(Stopped, false, false, false, Null, false, Nothing)
  }

  function Put(s: Sys, t: Id, c: Tcb): Sys {
    s.(tcbs := s.tcbs[t := c])
  }

  function Waiters(s: Sys, q: Id): seq<Id> {
    if q in s.queues then s.queues[q] else []
  }

  function IndexOf(r: seq<Id>, t: Id): (k: nat)
    requires t in r
    ensures k < |r| && r[k] == t
  {
    if r[0] == t then 0 else 1 + IndexOf(r[1..], t)
  }

  /** The sequence without (the first occurrence of) t. */
  function Drop(r: seq<Id>, t: Id): seq<Id> {
    if t in r then Without(r, IndexOf(r, t)) else r
  }

  lemma TailWithout(q: Id, w: seq<Id>, i: nat)
    requires i < |w|
    ensures Without([q] + w, 1 + i) == [q] + Without(w, i)
  {
    assert ([q] + w)[..1 + i] == [q] + w[..i];
    assert ([q] + w)[i + 2..] == w[i + 1..];
  }

  /** The ring after t was linked in behind the cursor. */
  function Joined(r: seq<Id>, t: Id): (r': seq<Id>)
    ensures r' != []
  {
    if r == [] then [t] else [r[0], t] + r[1..]
  }

  // ----- the functions of kernel.c -----

  /** z_schedule: the thread becomes READY, right behind the cursor. */
  function Schedule(s: Sys, t: Id): Sys {
    Put(s, t, Of(s, t).(state := Ready))
    .(ring := Joined(s.ring, t), cursor := if s.ring == [] then t else s.cursor)
  }

  /** z_cancel_scheduled_wake_up. */
  function CancelWakeUp(s: Sys, t: Id): Sys {
    if Of(s, t).wakeup
    then Put(s, t, Of(s, t).(wakeup := false)).(timeouts := Forget(s.timeouts, t))
    else s
  }

  /** z_suspend: a READY thread leaves the ring; when it is the running one the cursor
      goes back to its predecessor. */
  function Suspend(s: Sys, t: Id): Sys {
    if Of(s, t).state.Pending? then CancelWakeUp(s, t)
    else if t !in s.ring then s
    else
      var k := IndexOf(s.ring, t);
      var r := Without(s.ring, k);
      if r == [] then s.(ring := [], cursor := IDLE)
      else if t == s.current then
        var p := if k == 0 then |r| - 1 else k - 1;
        s.(ring := r[p..] + r[..p], cursor := r[p])
      else s.(ring := r)
  }

  /** z_schedule_wake_up, for the running thread. */
  function ScheduleWakeUp(s: Sys, timeout: nat): Sys {
    if timeout == s.cfg.forever then s
    else Put(s, s.current, Of(s, s.current).(wakeup := true))
         .(timeouts := InsertDue(s.timeouts, s.current, timeout))
  }

  /** z_scheduler: a READY thread goes to the end of the ring. */
  function Scheduler(s: Sys): Sys {
    var s' := Put(s, s.current, Of(s, s.current).(expired := false, canceled := false));
    if Of(s, s.current).state.Ready? && s.ring != [] then
      var r := s.ring[1..] + [s.ring[0]];
      s'.(ring := r, cursor := r[0], current := r[0])
    else
      s'.(current := s.cursor)
  }

  /** z_pend_current. */
  function PendCurrent(s: Sys, timeout: nat): Sys {
    var s1 := ScheduleWakeUp(Suspend(s, s.current), timeout);
    Scheduler(Put(s1, s.current, Of(s1, s.current).(state := Pending)))
  }

  /** The blocking part of z_pend_current_on. */
  function PendCurrentOn(s: Sys, q: Id, timeout: nat): Sys {
    var s1 := s.(queues := s.queues[q := Waiters(s, q) + [s.current]]);
    PendCurrent(Put(s1, s.current, Of(s, s.current).(waiting := q, clean := false)), timeout)
  }

  /** z_wake_up. */
  function WakeUp(s: Sys, t: Id): Sys {
    Schedule(CancelWakeUp(s, t), t)
  }

  /** The waiter t leaves the queue q, its node being re-initialised or not. */
  function Unlink(s: Sys, q: Id, t: Id, clean: bool): Sys {
    Put(s, t, Of(s, t).(waiting := Null, clean := clean))
    .(queues := s.queues[q := Drop(Waiters(s, q), t)])
  }

  /** z_unpend_first_thread. */
  function Unpend(s: Sys, q: Id): Sys {
    if Waiters(s, q) == [] then s
    else WakeUp(Unlink(s, q, Waiters(s, q)[0], true), Waiters(s, q)[0])
  }

  /** z_unpend_first_and_swap. */
  function UnpendSwap(s: Sys, q: Id, data: Swap): Sys {
    if Waiters(s, q) == [] then s
    else
      var t, s' := Waiters(s, q)[0], Unpend(s, q);
      Put(s', t, Of(s', t).(swap := data))
  }

  /** z_cancel_first_pending. */
  function CancelFirst(s: Sys, q: Id): Sys {
    if Waiters(s, q) == [] then s
    else
      var t, s' := Waiters(s, q)[0], Unpend(s, q);
      Put(s', t, Of(s', t).(canceled := true))
  }

  /** z_cancel_all_pending. */
  function CancelAll(s: Sys, q: Id): Sys
    decreases |Waiters(s, q)|
  {
    if Waiters(s, q) == [] then s else CancelAll(CancelFirst(s, q), q)
  }

  /** The loop of k_thread_abort that releases the threads joined on it. */
  function UnpendAll(s: Sys, q: Id): Sys
    decreases |Waiters(s, q)|
  {
    if Waiters(s, q) == [] then s else UnpendAll(Unpend(s, q), q)
  }

  /** One round of the loop of z_sched_enter: the first sleeper has no time left. */
  function Expire(s: Sys): Sys
    requires s.timeouts != []
  {
    var t := s.timeouts[0].id;
    var c := Of(s, t);
    var s1 := Put(s, t, c.(expired := true, wakeup := false)).(timeouts := s.timeouts[1..]);
    Schedule(if c.waiting == Null then s1 else Unlink(s1, c.waiting, t, false), t)
  }

  function Drain(s: Sys): Sys
    decreases |s.timeouts|
  {
    if s.timeouts == [] || s.timeouts[0].left > 0 then s else Drain(Expire(s))
  }

  /** z_sched_enter, without the timers and events it goes on to process. */
  function Tick(s: Sys): Sys {
    Drain(s.(timeouts := Age(s.timeouts, s.cfg.slice)))
  }

  /** The wake-up in the loop of k_flags_notify: any waiter may leave the queue. */
  function WakeWaiter(s: Sys, q: Id, t: Id, data: Swap): Sys {
    WakeUp(Unlink(Put(s, t, Of(s, t).(swap := data)), q, t, false), t)
  }

  /** k_thread_abort. */
  function Abort(s: Sys, t: Id): Sys {
    var s1 := Suspend(s, t);
    var s2 := UnpendAll(Put(s1, t, Of(s1, t).(state := Stopped)), Join(if t.Thread? then t.n else 0));
    if t == s.current then Scheduler(s2) else s2
  }

  /** What every wake-up amounts to: t leaves the timeout queue and its wait queue, enters
      the ring, and has c for its control block. */
  function Woken(s: Sys, t: Id, c: Tcb): Sys {
    var w := Of(s, t).waiting;
    s.(tcbs := s.tcbs[t := c.(state := Ready, wakeup := false, waiting := Null)],
       timeouts := Forget(s.timeouts, t),
       queues := if w == Null then s.queues else s.queues[w := Drop(Waiters(s, w), t)],
       ring := Joined(s.ring, t),
       cursor := if s.ring == [] then t else s.cursor)
  }

  /** The ring after its first thread left it; the cursor went back to the last. */
  function Backed(r: seq<Id>): seq<Id> {
    if |r| <= 1 then [] else [r[|r| - 1]] + r[1..|r| - 1]
  }

  /** What blocking amounts to: the running thread, first in the ring, leaves it and the
      thread before it in the ring runs on. */
  function Pended(s: Sys, timeout: nat, c: Tcb): Sys {
    var r := Backed(s.ring);
    var next := if r == [] then IDLE else r[0];
    s.(tcbs := s.tcbs[s.current := c.(state := Pending, expired := false, canceled := false,
                                      wakeup := c.wakeup || timeout != s.cfg.forever)],
       timeouts := if timeout == s.cfg.forever then s.timeouts else InsertDue(s.timeouts, s.current, timeout),
       ring := r, cursor := next, current := next)
  }

  // ----- the invariant -----

  /** The READY threads are exactly the nodes of the run ring, each once. */
  ghost predicate RingInv(tcbs: map<Id, Tcb>, ring: seq<Id>, cursor: Id) {
    && Distinct(ring)
    && (forall t :: t in ring <==> t in tcbs && tcbs[t].state.Ready?)
    && cursor == if ring == [] then IDLE else ring[0]
  }

  /** The threads with a scheduled wake-up are exactly the items of the timeout queue. */
  ghost predicate TimeInv(tcbs: map<Id, Tcb>, timeouts: seq<Due>, forever: nat) {
    && Unique(timeouts)
    && Sorted(timeouts)
    && (forall d :: d in timeouts ==> d.left <= forever)
    && (forall t :: t in Times(timeouts) <==> t in tcbs && tcbs[t].wakeup)
  }

  /** A thread is linked in the wait queue it is waiting on, once, and in no other. */
  ghost predicate QueueInv(tcbs: map<Id, Tcb>, queues: map<Id, seq<Id>>) {
    && Null !in queues
    && (forall t :: t in tcbs ==> t.Thread? && Join(t.n) in queues && (tcbs[t].waiting == Null || tcbs[t].waiting in queues))
    && (forall q :: q in queues ==> !q.Thread? && Distinct(queues[q]))
    && (forall q, t :: q in queues ==> (t in queues[q] <==> t in tcbs && tcbs[t].waiting == q))
  }

  /** The states and flags of one thread agree with each other. */
  ghost predicate TcbInv(t: Id, c: Tcb) {
    && (c.state.Idle? <==> t == IDLE)
    && (c.wakeup || c.waiting != Null ==> c.state.Pending?)
    && (c.state.Pending? ==> !c.expired && !c.canceled)
    && !(c.expired && c.canceled)
  }

  /** Everything but who is running. */
  ghost predicate Core(s: Sys) {
    && s.cfg.slice >= 1
    && IDLE in s.tcbs
    && (forall t :: t in s.tcbs ==> TcbInv(t, s.tcbs[t]))
    && RingInv(s.tcbs, s.ring, s.cursor)
    && TimeInv(s.tcbs, s.timeouts, s.cfg.forever)
    && QueueInv(s.tcbs, s.queues)
  }

  /** The running thread is the idle thread or stands at the cursor. */
  ghost predicate Running(s: Sys) {
    s.current in s.tcbs && (s.current == IDLE || (s.ring != [] && s.current == s.ring[0]))
  }

  /** A thread that sleeps on no queue, for the tick to wake, has a harmless wait-queue node. */
  ghost predicate Tidy(s: Sys) {
    forall t :: t in s.tcbs && s.tcbs[t].wakeup && s.tcbs[t].waiting == Null ==> s.tcbs[t].clean
  }

  ghost predicate Inv(s: Sys) {
    Core(s) && Running(s) && Tidy(s)
  }

  /**
    The kernel at start: the main thread runs, the auto-started threads follow it in the
    ring, the idle thread stands by, the other threads are stopped and nobody waits.  No
    wait-queue node points anywhere yet.
  */
  function Boot(cfg: Config, ready: seq<Id>, others: set<Id>, queues: set<Id>): Sys {
    Sys(cfg, BootTcbs(ready, others), [MAIN] + ready, MAIN, [], map q | q in queues :: [], MAIN)
  }

  function BootTcbs(ready: seq<Id>, others: set<Id>): map<Id, Tcb> {
    (map t | t in others :: Fresh(Stopped)) + (map t | t in [MAIN] + ready :: Fresh(Ready)) + map[IDLE := Fresh(Idle)]
  }

  lemma BootTcb(ready: seq<Id>, others: set<Id>, t: Id)
    ensures t in BootTcbs(ready, others) <==> t in others || t in [MAIN] + ready || t == IDLE
    ensures t in BootTcbs(ready, others) ==> BootTcbs(ready, others)[t] == Fresh(BootState(ready, t))
  {
  }

  function BootState(ready: seq<Id>, t: Id): State {
    if t == IDLE then Idle else if t in [MAIN] + ready then Ready else Stopped
  }

  function Fresh(state: State): Tcb {
    Tcb(state, false, false, false, Null, false, Nothing)
  }

  lemma BootInv(cfg: Config, ready: seq<Id>, others: set<Id>, queues: set<Id>)
    requires cfg.slice >= 1 && Join(0) in queues && Join(1) in queues && Distinct([MAIN] + ready) && IDLE !in ready
    requires forall t :: t in others ==> t.Thread? && Join(t.n) in queues
    requires forall t :: t in ready ==> t.Thread? && Join(t.n) in queues
    requires forall q :: q in queues ==> q.Queue? || q.Join?
    ensures Inv(Boot(cfg, ready, others, queues))
  {
    hide BootTcbs;
    var s := Boot(cfg, ready, others, queues);
    forall t ensures t in s.tcbs <==> t in others || t in s.ring || t == IDLE {
      BootTcb(ready, others, t);
    }
    forall t | t in s.tcbs ensures s.tcbs[t] == Fresh(BootState(ready, t)) {
      BootTcb(ready, others, t);
    }
    assert QueueInv(s.tcbs, s.queues);
  }
}
