/**
  The mutex of src/avrtos/mutex.c.

  An unlock wakes the first waiter but leaves `owner` as it is; the waiter writes `owner`
  when it runs again.  In between, the old owner's calls are still taken for the owner's.
  Mutual exclusion is proved for every run in which no call falls into that gap, relocks
  without reentrancy or locks for the 256th time.  Such a call always leaves the fields
  at odds with the threads inside, and each of the three leads to two threads inside.
*/
module Mutex {
  import opened Links
  import opened Sched
  import opened SchedInv
  import opened SchedRuns
  import opened Waits
  import opened WaitQueues
  import opened Handoffs
  import opened Errno
  import K = Kernel

  /** `reentrant` is CONFIG_KERNEL_REENTRANCY. */
  datatype Object = Object(q: Id, reentrant: bool)

  /**
    The mutex in its system.  `holds` counts, for every thread inside the lock, its
    successful locks not yet undone; `handed` are the threads an unlock has woken and that
    have not run since.
  */
  datatype World = World(s: Sys, lock: nat, owner: Id, holds: map<Id, nat>, handed: set<Id>)

  datatype Op = Lock(timeout: nat) | Unlock | CancelWait | Other(step: Step)

  ghost function Depth(w: World, t: Id): nat {
    if t in w.holds then w.holds[t] else 0
  }

  /** One lock of c is undone; with its last lock the thread is outside. */
  ghost function Undone(holds: map<Id, nat>, c: Id): map<Id, nat> {
    if c in holds && holds[c] > 1 then holds[c := holds[c] - 1] else holds - {c}
  }

  /** A call blocks only a READY thread. */
  ghost predicate Allowed(o: Object, w: World, op: Op) {
    match op
    case Lock(t) =>
      && t <= w.s.cfg.forever
      && (w.lock != 0 && w.owner != w.s.current && t > 0 ==> Of(w.s, w.s.current).state.Ready?)
    case Other(step) => Enabled(w.s, step) && !Names(step, o.q)
    case _ => true
  }

  /** What k_mutex_lock answers up to the switch. */
  ghost function LockAnswer(w: World, timeout: nat): Outcome {
    if w.lock == 0 || w.owner == w.s.current then Done(0) else if timeout == 0 then Done(EAGAIN) else Blocked
  }

  /** An unlock gives the mutex to the first waiter, which it returns. */
  ghost predicate Gives(o: Object, w: World) {
    w.owner == w.s.current && !(o.reentrant && w.lock > 1) && Waiters(w.s, o.q) != []
  }

  ghost function GivenTo(o: Object, w: World): Id {
    if Gives(o, w) then Waiters(w.s, o.q)[0] else Null
  }

  /** What a call does to the kernel and to the fields, up to the switch. */
  ghost function Effect(o: Object, w: World, op: Op): World {
    var c := w.s.current;
    match op
    case Lock(t) =>
      if w.lock == 0 then w.(lock := 1, owner := c)
      else if w.owner == c then w.(lock := if o.reentrant then (w.lock + 1) % 256 else w.lock)
      else if t == 0 then w
      else w.(s := Do(w.s, Block(o.q, t)))
    case Unlock =>
      if w.owner != c then w
      else if o.reentrant && w.lock > 1 then w.(lock := w.lock - 1)
      else if Waiters(w.s, o.q) != [] then w.(s := Do(w.s, Handoff(o.q)))
      else w.(lock := 0, owner := Null)
    case CancelWait => w.(s := Do(w.s, CancelEvery(o.q)))
    case Other(step) => w.(s := Do(w.s, step))
  }

  /** The effect, with the threads inside and on their way kept from what is called and what it
      answers: a lock that answers 0 lets its caller in, and an unlock undoes one lock of its. */
  ghost function Call(o: Object, w: World, op: Op): World {
    var c := w.s.current;
    Effect(o, w, op).(
      holds := if op.Lock? && LockAnswer(w, op.timeout) == Done(0) then w.holds[c := Depth(w, c) + 1]
               else if op.Unlock? then Undone(w.holds, c) else w.holds,
      handed := if op.Unlock? && Gives(o, w) then w.handed + {GivenTo(o, w)} else w.handed)
  }

  /** A woken waiter that runs again finishes its k_mutex_lock before anything else can run. */
  ghost function Settle(w: World): World {
    if w.s.current in w.handed then
      w.(owner := w.s.current, handed := w.handed - {w.s.current},
         holds := w.holds[w.s.current := Depth(w, w.s.current) + 1])
    else w
  }

  ghost function Apply(o: Object, w: World, op: Op): World {
    Settle(Call(o, w, op))
  }

  /** The threads that have the mutex, or have been given it. */
  ghost function Users(w: World): set<Id> {
    w.holds.Keys + w.handed
  }

  /** At most one thread has the mutex, and the fields say so. */
  ghost predicate Exclusive(o: Object, w: World) {
    && (forall a, b :: a in Users(w) && b in Users(w) ==> a == b)
    && (w.lock == 0 <==> Users(w) == {})
    && (forall h :: h in w.holds ==> w.owner == h && w.holds[h] == w.lock)
    && (w.handed != {} ==> w.lock == 1 && w.holds == map[])
    && w.lock < 256 && (!o.reentrant ==> w.lock <= 1)
    && (w.lock == 0 ==> w.owner == Null && Waiters(w.s, o.q) == [])
  }

  /** Holds also between a switch to a woken waiter and the end of its k_mutex_lock. */
  ghost predicate Between(o: Object, w: World) {
    && Inv(w.s) && o.q in w.s.queues
    && (forall t :: t in w.handed ==> OnItsWay(w.s, t))
    && Exclusive(o, w)
  }

  ghost predicate Sound(o: Object, w: World) {
    Between(o, w) && w.s.current !in w.handed
  }

  /** What a caller of lock or unlock has to keep to, and knows: it is not taken for the
      owner unless it is inside the lock, it relocks only with reentrancy, and not when the
      lock count is at its end. */
  ghost predicate Disciplined(o: Object, w: World, op: Op) {
    var c := w.s.current;
    match op
    case Lock(_) => w.owner == c ==> c in w.holds && o.reentrant && w.lock < 255
    case Unlock => w.owner == c ==> c in w.holds
    case _ => true
  }

  // ----- one step -----

  lemma LockExact(o: Object, w: World, timeout: nat)
    requires Sound(o, w) && (w.lock == 0 || w.owner == w.s.current)
    ensures Exclusive(o, Call(o, w, Lock(timeout))) <==> Disciplined(o, w, Lock(timeout))
  {
    hide Inv, Waiters, Do, Enabled;
    var c, w' := w.s.current, Call(o, w, Lock(timeout));
    CurrentReal(w.s);
    assert c in Users(w');
    if w.lock != 0 && w.handed != {} {
      var t :| t in w.handed;
      assert t in Users(w') && t in Users(w);
    } else if w.lock != 0 {
      var h :| h in Users(w);
      assert h == c && Users(w') == Users(w);
    }
  }

  lemma CurrentReal(s: Sys)
    requires Inv(s)
    ensures s.current != Null && s.current in s.tcbs
  {
  }

  lemma UnlockExact(o: Object, w: World)
    requires Sound(o, w) && w.owner == w.s.current
    ensures Exclusive(o, Call(o, w, Unlock)) <==> Disciplined(o, w, Unlock)
  {
    hide Inv, Do;
    var c, w', q := w.s.current, Call(o, w, Unlock), o.q;
    CurrentReal(w.s);
    HandoffOn(w.s, q, Handoff(q));
    if w.handed != {} {
      var t :| t in w.handed;
      assert OnItsWay(w.s, t) && t in Users(w') && t in Users(w);
      if Waiters(w.s, q) != [] {
        WaiterPending(w.s, q, Waiters(w.s, q)[0]);
        assert Waiters(w.s, q)[0] in Users(w');
      }
    } else {
      var h :| h in Users(w);
      assert h == c && w.holds.Keys == {c};
      assert (w.holds - {c}).Keys == {};
      assert w.lock > 1 ==> Undone(w.holds, c).Keys == {c};
      assert w.lock == 1 ==> Undone(w.holds, c) == w.holds - {c};
    }
  }

  lemma WaiterPending(s: Sys, q: Id, t: Id)
    requires Inv(s) && t in Waiters(s, q)
    ensures t in s.tcbs && s.tcbs[t].state.Pending?
  {
    WaiterPends(s, q, t);
  }

  /** The handed threads stay on their way over a step of anybody else. */
  lemma StillOnTheirWay(o: Object, w: World, step: Step)
    requires Sound(o, w) && Enabled(w.s, step)
    ensures forall t :: t in w.handed ==> OnItsWay(Do(w.s, step), t)
  {
    hide Do, Enabled, Exclusive, Inv;
    forall t | t in w.handed ensures OnItsWay(Do(w.s, step), t) {
      StaysOnItsWay(w.s, step, t);
    }
  }

  lemma SettleKeeps(o: Object, w: World)
    requires Between(o, w)
    ensures Sound(o, Settle(w))
  {
    hide Inv, Waiters, ReturnCode;
    var c := w.s.current;
    if c in w.handed {
      assert c in Users(w) && forall t :: t in Users(w) ==> t == c;
      assert w.handed - {c} == {};
    }
  }

  /** A step of a sound mutex keeps it sound exactly when the caller is disciplined. */
  lemma StepExact(o: Object, w: World, op: Op)
    requires Sound(o, w) && Allowed(o, w, op)
    ensures Sound(o, Apply(o, w, op)) <==> Disciplined(o, w, op)
  {
    hide Do, Inv, Enabled, Names, Exclusive, ReturnCode;
    match op
    case Lock(t) => LockStep(o, w, t);
    case Unlock => UnlockStep(o, w);
    case CancelWait =>
      CancelOn(w.s, o.q);
      HandoffEnabled(w.s, o.q, Nothing);
      StillOnTheirWay(o, w, CancelEvery(o.q));
      SameFields(o, w, Do(w.s, CancelEvery(o.q)));
      SettleKeeps(o, Call(o, w, op));
    case Other(step) =>
      var k := Elsewhere(w.s, step, o.q);
      KeepNone(w.s, step, o.q, k);
      StillOnTheirWay(o, w, step);
      SameFields(o, w, Do(w.s, step));
      SettleKeeps(o, Call(o, w, op));
  }

  /** Exclusion does not depend on the rest of the system as long as nobody queues up for a free mutex. */
  lemma SameFields(o: Object, w: World, s': Sys)
    requires Exclusive(o, w) && (Waiters(w.s, o.q) == [] ==> w.lock != 0 || Waiters(s', o.q) == [])
    ensures Exclusive(o, w.(s := s'))
  {
    hide Waiters;
    assert Users(w.(s := s')) == Users(w);
  }

  lemma LockStep(o: Object, w: World, timeout: nat)
    requires Sound(o, w) && Allowed(o, w, Lock(timeout))
    ensures Sound(o, Apply(o, w, Lock(timeout))) <==> Disciplined(o, w, Lock(timeout))
  {
    hide Do, Inv, Enabled, Exclusive, ReturnCode;
    if w.lock == 0 || w.owner == w.s.current {
      LockExact(o, w, timeout);
    } else if timeout > 0 {
      BlockEnabled(w.s, o.q, timeout);
      BlockOn(w.s, o.q, timeout);
      StillOnTheirWay(o, w, Block(o.q, timeout));
      SameFields(o, w, Do(w.s, Block(o.q, timeout)));
      SettleKeeps(o, Call(o, w, Lock(timeout)));
    }
  }

  lemma UnlockStep(o: Object, w: World)
    requires Sound(o, w)
    ensures Sound(o, Apply(o, w, Unlock)) <==> Disciplined(o, w, Unlock)
  {
    hide Do, Inv, Enabled, ReturnCode;
    if w.owner != w.s.current {
      assert w.s.current !in w.holds && w.holds - {w.s.current} == w.holds;
    } else {
      hide Exclusive;
      UnlockExact(o, w);
      if !(o.reentrant && w.lock > 1) && Waiters(w.s, o.q) != [] {
        HandoffOn(w.s, o.q, Handoff(o.q));
        HandedOver(w.s, o.q, Handoff(o.q));
        HandoffEnabled(w.s, o.q, Nothing);
        StillOnTheirWay(o, w, Handoff(o.q));
      }
    }
  }

  // ----- runs -----

  ghost predicate Run(o: Object, ws: seq<World>, ops: seq<Op>) {
    && |ws| == |ops| + 1
    && Inv(ws[0].s) && o.q in ws[0].s.queues && Waiters(ws[0].s, o.q) == []
    && ws[0].lock == 0 && ws[0].owner == Null && ws[0].holds == map[] && ws[0].handed == {}
    && forall i :: 0 <= i < |ops| ==> Allowed(o, ws[i], ops[i]) && ws[i + 1] == Apply(o, ws[i], ops[i])
  }

  /** A run stays exclusive throughout exactly when every caller in it is disciplined. */
  lemma ExclusionExact(o: Object, ws: seq<World>, ops: seq<Op>)
    requires Run(o, ws, ops)
    ensures (forall i :: 0 <= i < |ws| ==> Sound(o, ws[i])) <==> (forall i :: 0 <= i < |ops| ==> Disciplined(o, ws[i], ops[i]))
  {
    hide Apply, Allowed, Sound, Disciplined;
    if forall i :: 0 <= i < |ops| ==> Disciplined(o, ws[i], ops[i]) {
      forall i | 0 <= i < |ws| ensures Sound(o, ws[i]) {
        StaysSound(o, ws, ops, i);
      }
    }
    if forall i :: 0 <= i < |ws| ==> Sound(o, ws[i]) {
      forall i | 0 <= i < |ops| ensures Disciplined(o, ws[i], ops[i]) {
        StepExact(o, ws[i], ops[i]);
        assert Sound(o, ws[i + 1]);
      }
    }
  }

  lemma {:induction false} StaysSound(o: Object, ws: seq<World>, ops: seq<Op>, i: nat)
    requires Run(o, ws, ops) && i < |ws|
    requires forall j :: 0 <= j < |ops| ==> Disciplined(o, ws[j], ops[j])
    ensures Sound(o, ws[i])
  {
    hide Apply, Allowed, Disciplined;
    if i > 0 {
      StaysSound(o, ws, ops, i - 1);
      StepExact(o, ws[i - 1], ops[i - 1]);
    }
  }

  /** In a disciplined run no two threads are ever inside the lock, nor is one inside while
      another has been given it; the lock is nonzero exactly when there is such a thread,
      and counts the locks of the one inside. */
  lemma MutualExclusion(o: Object, ws: seq<World>, ops: seq<Op>, i: nat)
    requires Run(o, ws, ops) && i < |ws|
    requires forall j :: 0 <= j < |ops| ==> Disciplined(o, ws[j], ops[j])
    ensures forall a, b :: a in Users(ws[i]) && b in Users(ws[i]) ==> a == b
    ensures ws[i].lock != 0 <==> Users(ws[i]) != {}
    ensures forall h :: h in ws[i].holds ==> ws[i].owner == h && ws[i].holds[h] == ws[i].lock
  {
    hide Apply, Allowed, Disciplined, Inv;
    StaysSound(o, ws, ops, i);
  }

  /** From every sound state with a waiter: the holder unlocks and locks again at once.  Both
      calls succeed, and when the waiter runs, two threads are inside. */
  lemma HandoffGap(o: Object, w: World, timeout: nat, step: Step)
    requires Sound(o, w) && w.lock == 1 && w.s.current in w.holds && Waiters(w.s, o.q) != []
    ensures var t := Waiters(w.s, o.q)[0];
            var w1 := Apply(o, w, Unlock);
            var w2 := Apply(o, w1, Lock(timeout));
            && Sound(o, w1) && w.s.current != t
            && w.s.current in w2.holds && t in w2.handed && w2.s == w1.s
            && (Do(w2.s, step).current == t ==> w.s.current in Apply(o, w2, Other(step)).holds && t in Apply(o, w2, Other(step)).holds)
  {
    hide Do, Inv, ReturnCode;
    assert w.owner == w.s.current;
    UnlockStep(o, w);
    HandedOver(w.s, o.q, Handoff(o.q));
    Emptied(w.holds, w.s.current);
  }

  lemma Emptied(holds: map<Id, nat>, c: Id)
    requires c in holds && holds[c] == 1
    ensures Undone(holds, c) == holds - {c} && c !in Undone(holds, c)
  {
  }

  /** Without reentrancy, from every sound state in which the running thread holds a mutex that
      nobody waits for: it locks again, unlocks once, and is still inside when the mutex is
      free; the next thread that runs and locks is inside with it. */
  lemma RelockGap(o: Object, w: World, t1: nat, step: Step, t2: nat)
    requires Sound(o, w) && !o.reentrant && w.s.current in w.holds && Waiters(w.s, o.q) == []
    ensures var w2 := Apply(o, Apply(o, w, Lock(t1)), Unlock);
            var w4 := Apply(o, Apply(o, w2, Other(step)), Lock(t2));
            && w2.lock == 0 && w.s.current in w2.holds
            && (Do(w2.s, step).current != w.s.current ==> w.s.current in w4.holds && Do(w2.s, step).current in w4.holds)
  {
    hide Do, Inv, ReturnCode, Waiters, OnItsWay;
    var c := w.s.current;
    assert w.owner == c && w.holds[c] == 1 && w.handed == {};
    var w1 := Apply(o, w, Lock(t1));
    assert w1.holds == w.holds[c := 2] && w1.handed == {};
    var w2 := Apply(o, w1, Unlock);
    assert w2.holds == w1.holds[c := 1] && w2.handed == {} && w2.s == w.s;
  }

  /** The same when somebody waits: the waiter is given the mutex while the thread is inside. */
  lemma RelockGapWaiting(o: Object, w: World, t1: nat)
    requires Sound(o, w) && !o.reentrant && w.s.current in w.holds && Waiters(w.s, o.q) != []
    ensures var w2 := Apply(o, Apply(o, w, Lock(t1)), Unlock);
            w.s.current in w2.holds && Waiters(w.s, o.q)[0] in w2.handed && Waiters(w.s, o.q)[0] != w.s.current
  {
    hide Do, Inv, ReturnCode, OnItsWay;
    var c := w.s.current;
    assert w.owner == c && w.holds[c] == 1 && w.handed == {};
    HandedOver(w.s, o.q, Handoff(o.q));
    var w1 := Apply(o, w, Lock(t1));
    assert w1.holds == w.holds[c := 2] && w1.handed == {} && w1.s == w.s;
    assert Undone(w1.holds, c) == w1.holds[c := 1];
  }

  /** From every sound state in the gap, the old owner unlocks once more: a second waiter is given
      the mutex, or it is free while a thread has been given it. */
  lemma UnlockGap(o: Object, w: World)
    requires Sound(o, w) && w.owner == w.s.current && w.s.current !in w.holds
    ensures var w1, waiters := Apply(o, w, Unlock), Waiters(w.s, o.q);
            if waiters == [] then w1.lock == 0 && w1.handed != {}
            else exists a, b :: a in w1.handed && b in w1.handed && a != b
  {
    hide Do, Inv, ReturnCode;
    var c := w.s.current;
    CurrentReal(w.s);
    assert w.handed != {};
    var t :| t in w.handed;
    assert OnItsWay(w.s, t);
    if Waiters(w.s, o.q) != [] {
      HandedOver(w.s, o.q, Handoff(o.q));
      var x, w1 := Waiters(w.s, o.q)[0], Apply(o, w, Unlock);
      assert x in w1.handed && t in w1.handed && x != t;
    }
  }

  /** With reentrancy, from every sound state in which the running thread has locked 255 times:
      one more lock leaves the mutex free, and the next thread that runs and locks is inside
      with it. */
  lemma CountGap(o: Object, w: World, t1: nat, step: Step, t2: nat)
    requires Sound(o, w) && o.reentrant && w.s.current in w.holds && w.lock == 255
    ensures var w1 := Apply(o, w, Lock(t1));
            var w3 := Apply(o, Apply(o, w1, Other(step)), Lock(t2));
            && w1.lock == 0 && w.s.current in w1.holds
            && (Do(w1.s, step).current != w.s.current ==> w.s.current in w3.holds && Do(w1.s, step).current in w3.holds)
  {
    hide Do, Inv, ReturnCode, Waiters, OnItsWay;
    var c := w.s.current;
    assert w.owner == c && w.handed == {};
    var w1 := Apply(o, w, Lock(t1));
    assert w1.handed == {} && w1.s == w.s;
  }

  class Mutex {
    const k: K.Kernel
    const q: Id
    const reentrant: bool
    var lock: nat
    var owner: Id
    ghost var holds: map<Id, nat>
    ghost var handed: set<Id>

    ghost function Conf(): Object {
      Object(q, reentrant)
    }

    ghost function W(): World
      reads this, k
    {
      World(k.s, lock, owner, holds, handed)
    }

    ghost predicate Valid()
      reads this, k, k.ties, k.waits, k.timeouts
    {
      k.Valid() && Inv(k.s) && q in k.s.queues && lock < 256
    }

    /** k_mutex_init. */
    constructor (k: K.Kernel, q: Id, reentrant: bool)
      requires k.Valid() && Inv(k.s) && q in k.s.queues && Waiters(k.s, q) == []
      ensures Valid() && this.k == k && this.q == q && this.reentrant == reentrant && Sound(Conf(), W()) && lock == 0
    {
      hide Inv, K.Kernel.Valid;
      this.k, this.q, this.reentrant := k, q, reentrant;
      lock, owner, holds, handed := 0, Null, map[], {};
    }

    /** k_mutex_lock, up to the switch. */
    method Lock(timeout: nat) returns (r: Outcome)
      requires Valid() && Allowed(Conf(), W(), Op.Lock(timeout))
      modifies this, k, k.ties, k.waits, k.timeouts
      ensures r == if old(lock == 0 || owner == k.s.current) then Done(0) else if timeout == 0 then Done(EAGAIN) else Blocked
      ensures r == Done(0) ==> owner == k.s.current && (old(lock) == 0 ==> lock == 1)
      ensures r == Blocked ==> Waiters(k.s, q) == old(Waiters(k.s, q)) + [old(k.s.current)]
      ensures Valid() && W() == Call(Conf(), old(W()), Op.Lock(timeout))
    {
      hide Inv, Core, K.Kernel.Valid, PendCurrentOn;
      k.CurrentIs();
      CurrentReal(k.s);
      BlockKeepsQueue(k.s, q, timeout);
      ghost var c := k.s.current;
      if lock == 0 {
        lock := 1;
        owner := k.current;
        holds := holds[c := Depth(W(), c) + 1];
        r := Done(0);
      } else if owner == k.current {
        if reentrant {
          lock := (lock + 1) % 256;
        }
        holds := holds[c := Depth(W(), c) + 1];
        r := Done(0);
      } else {
        r := k.PendCurrentOn(q, timeout);
      }
    }

    /** The end of k_mutex_lock, when the woken waiter runs again. */
    method Resume() returns (ret: int)
      requires Valid() && Between(Conf(), W()) && k.s.current in handed
      modifies this
      ensures Valid() && W() == Settle(old(W())) && Sound(Conf(), W()) && ret == 0 && owner == k.s.current
    {
      hide Inv, K.Kernel.Valid, Exclusive, Sound;
      k.CurrentIs();
      SettleKeeps(Conf(), W());
      ret := k.WaitResult();
      if ret == 0 {
        owner := k.current;
        holds := holds[k.s.current := Depth(W(), k.s.current) + 1];
        handed := handed - {k.s.current};
      }
    }

    /** k_mutex_unlock. */
    method Unlock() returns (thread: Id)
      requires Valid()
      modifies this, k, k.ties, k.waits, k.timeouts
      ensures thread == GivenTo(Conf(), old(W()))
      ensures Valid() && W() == Call(Conf(), old(W()), Op.Unlock)
    {
      hide Inv, Core, K.Kernel.Valid, Unpend, CancelAll, Do, Woke;
      k.CurrentIs();
      CurrentReal(k.s);
      CallFacts(k.s, q);
      HandoffOn(k.s, q, Handoff(q));
      ghost var c := k.s.current;
      thread := Null;
      holds := Undone(holds, c);
      if owner != k.current {
        return;
      } else if reentrant && lock > 1 {
        lock := lock - 1;
        return;
      }
      thread := k.UnpendFirst(q);
      if thread == Null {
        lock := 0;
        owner := Null;
      } else {
        handed := handed + {thread};
      }
    }

    /** k_mutex_cancel_wait. */
    method CancelWait() returns (canceled: int)
      requires Valid()
      modifies this, k, k.ties, k.waits, k.timeouts
      ensures Waiters(k.s, q) == [] && forall t :: t in old(Waiters(k.s, q)) ==> ReturnCode(Of(k.s, t)) == ECANCELED
      ensures Valid() && W() == Call(Conf(), old(W()), Op.CancelWait) && canceled == Int8(|old(Waiters(k.s, q))|)
    {
      hide Inv, Core, K.Kernel.Valid, Unpend, CancelAll, Int8, K.Byte, ReturnCode;
      CallFacts(k.s, q);
      CancelOn(k.s, q);
      var n := k.CancelAllPending(q);
      K.ByteCast(|old(Waiters(k.s, q))|);
      canceled := Int8(n);
    }
  }

  lemma BlockKeepsQueue(s: Sys, q: Id, timeout: nat)
    requires Inv(s) && q in s.queues
    ensures Do(s, Block(q, timeout)) == PendCurrentOn(s, q, timeout)
    ensures Of(s, s.current).state.Ready? && 0 < timeout <= s.cfg.forever ==>
              && Inv(PendCurrentOn(s, q, timeout)) && q in PendCurrentOn(s, q, timeout).queues
              && Waiters(PendCurrentOn(s, q, timeout), q) == Waiters(s, q) + [s.current]
  {
    hide Inv, PendCurrentOn;
    if Of(s, s.current).state.Ready? && 0 < timeout <= s.cfg.forever {
      BlockEnabled(s, q, timeout);
      BlockOn(s, q, timeout);
    }
  }
}
