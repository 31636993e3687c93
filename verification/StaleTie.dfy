/**
  The wait-queue node of a thread that sleeps on no queue.

  A tick unlinks the node of every thread it wakes, whether the thread waits on an object
  or only sleeps.  `KernelRep.UnlinkExact` says exactly when that does no damage.  Here
  are two runs of the kernel in which it does: the node was never set, and the node still
  points into a queue that the thread has left.
*/
module StaleTie {
  import opened Links
  import opened DeltaQueue
  import opened Sched
  import opened SchedInv
  import opened SchedRuns
  import opened KernelRep
  import opened Kernel

  const Q := Queue(0)
  const B := Thread(2)
  const QUEUES := [Q, Join(0), Join(1), Join(2)]

  /** The kernel of the two runs: the main thread, B, and the queue Q. */
  function Pair(cfg: Config, main: Tcb, b: Tcb, ring: seq<Id>, timeouts: seq<Due>, waiters: seq<Id>): Sys {
    var cursor := if ring == [] then IDLE else ring[0];
    Sys(cfg, map[IDLE := Fresh(Idle), MAIN := main, B := b], ring, cursor, timeouts,
        map[Q := waiters, Join(0) := [], Join(1) := [], Join(2) := []], cursor)
  }

  const ready := Fresh(Ready)

  lemma Begin(cfg: Config)
    ensures Boot(cfg, [B], {}, Elems(QUEUES)) == Pair(cfg, ready, ready, [MAIN, B], [], [])
  {
    hide BootTcbs;
    var s, s' := Boot(cfg, [B], {}, Elems(QUEUES)), Pair(cfg, ready, ready, [MAIN, B], [], []);
    forall t ensures (t in s.tcbs <==> t in s'.tcbs) && (t in s.tcbs ==> s.tcbs[t] == s'.tcbs[t]) {
      BootTcb([B], {}, t);
    }
    assert s.tcbs == s'.tcbs;
    assert s.queues == s'.queues;
  }

  /** The main thread sleeps for one unit, on no queue. */
  lemma MainSleeps(cfg: Config, main: Tcb, b: Tcb, ring: seq<Id>, waiters: seq<Id>)
    requires cfg.forever > 1 && main.state.Ready? && !main.wakeup && !main.canceled
    requires ring == [MAIN, B] || ring == [MAIN]
    ensures PendCurrent(Pair(cfg, main, b, ring, [], waiters), 1) ==
            Pair(cfg, main.(state := Pending, wakeup := true, expired := false), b, ring[1..], [Due(MAIN, 1)], waiters)
  {
    var s := Pair(cfg, main, b, ring, [], waiters);
    PendCurrentPends(s, 1);
    assert Backed(ring) == ring[1..];
    assert InsertDue([], MAIN, 1) == [Due(MAIN, 1)];
  }

  lemma MainBlocks(cfg: Config)
    requires cfg.forever > 1
    ensures PendCurrentOn(Pair(cfg, ready, ready, [MAIN, B], [], []), Q, 1) ==
            Pair(cfg, ready.(state := Pending, wakeup := true, waiting := Q), ready, [B], [Due(MAIN, 1)], [MAIN])
  {
    hide PendCurrent;
    var s := Pair(cfg, ready.(waiting := Q), ready, [MAIN, B], [], [MAIN]);
    var s0 := Pair(cfg, ready, ready, [MAIN, B], [], []);
    assert Waiters(s0, Q) + [MAIN] == [MAIN];
    assert Put(s0.(queues := s0.queues[Q := [MAIN]]), MAIN, ready.(waiting := Q)) == s;
    MainSleeps(cfg, ready.(waiting := Q), ready, [MAIN, B], [MAIN]);
  }

  lemma OneUnitLeft(cfg: Config)
    requires cfg.slice >= 1
    ensures Age([Due(MAIN, 1)], cfg.slice) == [Due(MAIN, 0)]
  {
  }

  const timedOut := ready.(expired := true)

  lemma MainExpires(cfg: Config)
    ensures Expire(Pair(cfg, ready.(state := Pending, wakeup := true, waiting := Q), ready, [B], [Due(MAIN, 0)], [MAIN])) ==
            Pair(cfg, timedOut, ready, [B, MAIN], [], [])
  {
    var s := Pair(cfg, ready.(state := Pending, wakeup := true, waiting := Q), ready, [B], [Due(MAIN, 0)], [MAIN]);
    assert Drop([MAIN], MAIN) == [];
    assert Expire(s).tcbs == Pair(cfg, timedOut, ready, [B, MAIN], [], []).tcbs;
    assert Expire(s).queues == Pair(cfg, timedOut, ready, [B, MAIN], [], []).queues;
  }

  lemma SecondBlocks(cfg: Config)
    ensures PendCurrentOn(Pair(cfg, timedOut, ready, [B, MAIN], [], []), Q, cfg.forever) ==
            Pair(cfg, timedOut, ready.(state := Pending, waiting := Q), [MAIN], [], [B])
  {
    hide PendCurrent;
    var s0 := Pair(cfg, timedOut, ready, [B, MAIN], [], []);
    var s := Pair(cfg, timedOut, ready.(waiting := Q), [B, MAIN], [], [B]);
    assert Waiters(s0, Q) + [B] == [B];
    assert Put(s0.(queues := s0.queues[Q := [B]]), B, ready.(waiting := Q)) == s;
    PendCurrentPends(s, cfg.forever);
    assert Backed([B, MAIN]) == [MAIN];
    assert Pended(s, cfg.forever, ready.(waiting := Q)).tcbs == Pair(cfg, timedOut, ready.(state := Pending, waiting := Q), [MAIN], [], [B]).tcbs;
  }

  /** The tick that expires the main thread and nobody else. */
  lemma FirstTick(cfg: Config)
    requires cfg.slice >= 1 && cfg.forever > 1 && Inv(Pair(cfg, ready, ready, [MAIN, B], [], []))
    ensures Inv(Pair(cfg, timedOut, ready, [B, MAIN], [], []))
  {
    hide Inv, Expire, PendCurrentOn;
    var s0 := Pair(cfg, ready, ready, [MAIN, B], [], []);
    MainBlocks(cfg);
    assert Enabled(s0, Block(Q, 1));
    StepKeeps(s0, Block(Q, 1));
    OneUnitLeft(cfg);
    MainExpires(cfg);
    var s1 := Do(s0, Block(Q, 1));
    var s2 := s1.(timeouts := Age(s1.timeouts, cfg.slice));
    StepKeeps(s1, Step.Tick);
    DrainStep(s2);
    DrainStep(Expire(s2));
  }

  /** A thread that never waited sleeps: the tick that wakes it stores through a null pointer. */
  method NullNode(cfg: Config) returns (k: Kernel)
    requires 1 <= cfg.slice <= cfg.forever && cfg.forever > 1
    ensures Null in k.waits.cells && !k.Valid()
    ensures k.s.cfg == cfg && Of(k.s, MAIN).state.Ready? && Of(k.s, MAIN).expired
  {
    hide Inv, Core, Rep, PendCurrent, Expire, Age, Boot, Unlinked;
    k := new Kernel(cfg, [B], {}, QUEUES);
    Begin(cfg);
    k.CurrentIs();
    MainSleeps(cfg, ready, ready, [MAIN, B], []);
    k.Sleep(1);
    OneUnitLeft(cfg);
    k.Elapse();
    SleeperExpires(cfg, ready, ready, [B], []);
    var more := k.ExpireNext();
    NoNullStored(k.Now(), k.s);
  }

  lemma NoNullStored(m: Image, s: Sys)
    ensures Rep(m, s) ==> Null !in m.waits
  {
  }

  /** The tick that wakes the main thread from its sleep. */
  lemma SleeperExpires(cfg: Config, main: Tcb, b: Tcb, ring: seq<Id>, waiters: seq<Id>)
    requires ring == [B] || ring == []
    ensures Expire(Pair(cfg, main.(state := Pending, wakeup := true, expired := false, waiting := Null), b, ring, [Due(MAIN, 0)], waiters)) ==
            Pair(cfg, main.(state := Ready, wakeup := false, expired := true, waiting := Null), b, Joined(ring, MAIN), [], waiters)
              .(current := if ring == [] then IDLE else B)
  {
    var s := Pair(cfg, main.(state := Pending, wakeup := true, expired := false, waiting := Null), b, ring, [Due(MAIN, 0)], waiters);
    assert Expire(s).tcbs == Pair(cfg, main.(state := Ready, wakeup := false, expired := true, waiting := Null), b, Joined(ring, MAIN), [], waiters).tcbs;
  }

  /** The main thread times out on Q and its node goes on pointing to Q. */
  method TimesOut(cfg: Config) returns (k: Kernel)
    requires 1 <= cfg.slice <= cfg.forever && cfg.forever > 1
    ensures fresh(k) && fresh(k.ties) && fresh(k.waits) && fresh(k.timeouts)
    ensures k.Valid() && Inv(k.s) && k.s == Pair(cfg, timedOut, ready, [B, MAIN], [], [])
    ensures At(k.waits.cells, MAIN) == Node(Q, Q)
  {
    hide Inv, Core, Rep, PendCurrentOn, Expire, Age, Boot, Unlinked, Pended;
    k := new Kernel(cfg, [B], {}, QUEUES);
    Begin(cfg);
    k.CurrentIs();
    FirstTick(cfg);
    MainBlocks(cfg);
    var r := k.PendCurrentOn(Q, 1);
    InQueue(k.Now(), k.s, Q, MAIN);
    InvCore(k.s);
    OneUnitLeft(cfg);
    k.Elapse();
    MainExpires(cfg);
    var more := k.ExpireNext();
  }

  lemma InvCore(s: Sys)
    requires Inv(s)
    ensures Core(s)
  {
  }

  /** B waits on Q; the node of the main thread is not touched. */
  method SecondWaits(k: Kernel, cfg: Config)
    requires k.Valid() && Inv(k.s) && k.s == Pair(cfg, timedOut, ready, [B, MAIN], [], []) && cfg.forever > 1
    modifies k, k.ties, k.waits, k.timeouts
    ensures k.Valid() && Inv(k.s) && k.s == Pair(cfg, timedOut, ready.(state := Pending, waiting := Q), [MAIN], [], [B])
    ensures At(k.waits.cells, MAIN) == At(old(k.waits.cells), MAIN) && Next(k.waits.cells, Q) == B
  {
    hide Inv, Core, Rep, PendCurrentOn;
    k.CurrentIs();
    SecondBlocks(cfg);
    var r := k.PendCurrentOn(Q, cfg.forever);
    InQueue(k.Now(), k.s, Q, B);
  }

  /**
    The main thread times out on Q, B starts to wait on Q, and then the main thread sleeps and
    its sleep expires.  B still waits, and in memory Q is empty.
  */
  method WaiterLost(cfg: Config) returns (k: Kernel)
    requires 1 <= cfg.slice <= cfg.forever && cfg.forever > 1
    ensures Q in k.s.queues && k.s.queues[Q] == [B] && Of(k.s, B).state.Pending?
    ensures Ring(k.waits.cells, [Q]) && !k.Valid()
  {
    hide Inv, Core, Rep, PendCurrent, Expire, Age, Ring, Unlinked;
    k := TimesOut(cfg);
    SecondWaits(k, cfg);
    k.CurrentIs();
    MainSleeps(cfg, timedOut, ready.(state := Pending, waiting := Q), [MAIN], [B]);
    k.Sleep(1);
    OneUnitLeft(cfg);
    k.Elapse();
    SleeperExpires(cfg, timedOut, ready.(state := Pending, waiting := Q), [], [B]);
    ghost var w := k.waits.cells;
    var more := k.ExpireNext();
    HeadAlone(w, k.waits.cells);
  }

  /** A queue of one waiter. */
  lemma InQueue(m: Image, s: Sys, q: Id, t: Id)
    requires Rep(m, s) && q in s.queues && s.queues[q] == [t]
    ensures At(m.waits, t) == Node(q, q) && Next(m.waits, q) == t
  {
    hide Rep;
    RepQueue(m, s, q);
    var r := [q] + [t];
    assert r == [q, t] && Adjacent(m.waits, r[0], r[1]) && Adjacent(m.waits, r[1], r[0]);
  }

  lemma HeadAlone(w: Cells, w': Cells)
    requires Unlinked(w, w', MAIN) && At(w, MAIN) == Node(Q, Q)
    ensures Ring(w', [Q])
  {
  }
}
