/** The counting semaphore of src/avrtos/semaphore.c: units are conserved over every run. */
module Semaphore {
  import opened Links
  import opened Sched
  import opened SchedRuns
  import opened Waits
  import opened WaitQueues
  import opened Handoffs
  import opened Errno
  import K = Kernel

  datatype Object = Object(q: Id, limit: nat, initial: nat)

  /**
    The semaphore in its system, with its history: gives that had an effect, takes that
    returned success, and threads woken by a give that have not run since.
  */
  datatype World = World(s: Sys, count: nat, given: nat, returned: nat, handed: set<Id>)

  datatype Op = Take(timeout: nat) | Give | CancelWait | Other(step: Step)

  ghost predicate Allowed(o: Object, w: World, op: Op) {
    match op
    case Take(t) => t <= w.s.cfg.forever && (w.count == 0 && t > 0 ==> Of(w.s, w.s.current).state.Ready?)
    case Other(step) => Enabled(w.s, step) && !Names(step, o.q)
    case _ => true
  }

  /** What k_sem_take answers up to the switch. */
  ghost function TakeAnswer(w: World, timeout: nat): Outcome {
    if w.count > 0 then Done(0) else if timeout == 0 then Done(EAGAIN) else Blocked
  }

  /** A give counts unless nobody waits and the count is at the limit. */
  ghost predicate Counts(o: Object, w: World) {
    Waiters(w.s, o.q) != [] || w.count < o.limit
  }

  /** What a call does to the kernel and to the count, up to the switch. */
  ghost function Effect(o: Object, w: World, op: Op): World {
    match op
    case Take(t) =>
      if w.count > 0 then w.(count := w.count - 1)
      else if t == 0 then w
      else w.(s := Do(w.s, Block(o.q, t)))
    case Give =>
      if Waiters(w.s, o.q) != [] then w.(s := Do(w.s, Handoff(o.q)))
      else if w.count < o.limit then w.(count := w.count + 1)
      else w
    case CancelWait => w.(s := Do(w.s, CancelEvery(o.q)))
    case Other(step) => w.(s := Do(w.s, step))
  }

  /** The effect, with the history kept from what is called and what it answers. */
  ghost function Call(o: Object, w: World, op: Op): World {
    Effect(o, w, op).(
      given := w.given + if op.Give? && Counts(o, w) then 1 else 0,
      returned := w.returned + if op.Take? && TakeAnswer(w, op.timeout) == Done(0) then 1 else 0,
      handed := w.handed + if op.Give? && Waiters(w.s, o.q) != [] then {Waiters(w.s, o.q)[0]} else {})
  }

  /** A woken waiter that runs again returns from k_sem_take before anything else can run. */
  ghost function Settle(w: World): World {
    if w.s.current in w.handed then w.(returned := w.returned + 1, handed := w.handed - {w.s.current}) else w
  }

  ghost function Apply(o: Object, w: World, op: Op): World {
    Settle(Call(o, w, op))
  }

  /** Every unit is accounted for, nobody waits while there is one, and every woken waiter
      will return success. */
  ghost predicate Between(o: Object, w: World) {
    && Inv(w.s) && o.q in w.s.queues
    && w.count <= o.limit
    && o.initial + w.given == w.count + w.returned + |w.handed|
    && (Waiters(w.s, o.q) != [] ==> w.count == 0)
    && forall t :: t in w.handed ==> OnItsWay(w.s, t)
  }

  ghost predicate Sound(o: Object, w: World) {
    Between(o, w) && w.s.current !in w.handed
  }

  lemma SettleKeeps(o: Object, w: World)
    requires Between(o, w)
    ensures Sound(o, Settle(w))
  {
    hide Inv, OnItsWay;
  }

  /** The threads on their way over a step of the rest of the system. */
  lemma Onward(w: World, step: Step)
    requires Inv(w.s) && Enabled(w.s, step) && w.s.current !in w.handed && forall t :: t in w.handed ==> OnItsWay(w.s, t)
    ensures forall t :: t in w.handed ==> OnItsWay(Do(w.s, step), t)
  {
    hide Inv, Enabled, Do, OnItsWay;
    forall t | t in w.handed ensures OnItsWay(Do(w.s, step), t) {
      StaysOnItsWay(w.s, step, t);
    }
  }

  lemma CallKeepsUnits(o: Object, w: World, op: Op)
    requires Sound(o, w) && Allowed(o, w, op)
    ensures Between(o, Call(o, w, op))
  {
    hide Do, Inv, Enabled, Names, OnItsWay, Waiters;
    HandoffEnabled(w.s, o.q, Nothing);
    match op
    case Take(t) =>
      if w.count == 0 && t > 0 {
        BlockEnabled(w.s, o.q, t);
        BlockOn(w.s, o.q, t);
        Onward(w, Block(o.q, t));
      }
    case Give =>
      HandoffOn(w.s, o.q, Handoff(o.q));
      if Waiters(w.s, o.q) != [] {
        HandedOver(w.s, o.q, Handoff(o.q));
        Onward(w, Handoff(o.q));
      }
    case CancelWait =>
      CancelOn(w.s, o.q);
      Onward(w, CancelEvery(o.q));
    case Other(step) =>
      var k := Elsewhere(w.s, step, o.q);
      KeepNone(w.s, step, o.q, k);
      Onward(w, step);
  }

  /** A take that answers 0 takes one unit, and one that blocks queues the caller up, last. */
  lemma TakeExact(o: Object, w: World, timeout: nat)
    requires Sound(o, w) && Allowed(o, w, Take(timeout))
    ensures var w', answer := Call(o, w, Take(timeout)), TakeAnswer(w, timeout);
            && (answer == Done(0) ==> w'.count == w.count - 1 && w'.s == w.s)
            && (answer == Done(EAGAIN) ==> w'.count == w.count == 0 && w'.s == w.s)
            && (answer == Blocked ==> w'.count == w.count == 0 && Waiters(w'.s, o.q) == Waiters(w.s, o.q) + [w.s.current])
  {
    hide Do, Inv, Enabled, OnItsWay, Waiters;
    if w.count == 0 && timeout > 0 {
      BlockEnabled(w.s, o.q, timeout);
      BlockOn(w.s, o.q, timeout);
    }
  }

  /** A give puts the first waiter on its way, or adds a unit up to the limit. */
  lemma GiveExact(o: Object, w: World)
    requires Sound(o, w)
    ensures var w', waiters := Call(o, w, Give), Waiters(w.s, o.q);
            if waiters == [] then w'.s == w.s && w'.count == if w.count < o.limit then w.count + 1 else o.limit
            else w'.count == w.count && Waiters(w'.s, o.q) == waiters[1..] && OnItsWay(w'.s, waiters[0])
  {
    hide Do, Inv, Enabled, OnItsWay, Waiters;
    if Waiters(w.s, o.q) != [] {
      HandoffOn(w.s, o.q, Handoff(o.q));
      HandedOver(w.s, o.q, Handoff(o.q));
    }
  }

  /** A give, case by case. */
  lemma GiveIs(o: Object, w: World)
    ensures var w', waiters := Call(o, w, Give), Waiters(w.s, o.q);
            && (waiters == [] && w.count < o.limit ==> w' == w.(count := w.count + 1, given := w.given + 1))
            && (waiters == [] && w.count >= o.limit ==> w' == w)
            && (waiters != [] ==> w' == w.(s := Do(w.s, Handoff(o.q)), given := w.given + 1, handed := w.handed + {waiters[0]}))
  {
    hide Do;
    assert w.handed + {} == w.handed;
  }

  lemma StepKeepsUnits(o: Object, w: World, op: Op)
    requires Sound(o, w) && Allowed(o, w, op)
    ensures Sound(o, Apply(o, w, op))
  {
    hide Call, Between, Allowed;
    CallKeepsUnits(o, w, op);
    SettleKeeps(o, Call(o, w, op));
  }

  ghost predicate Run(o: Object, ws: seq<World>, ops: seq<Op>) {
    && |ws| == |ops| + 1
    && Inv(ws[0].s) && o.q in ws[0].s.queues && Waiters(ws[0].s, o.q) == []
    && ws[0].count == o.initial <= o.limit && ws[0].given == ws[0].returned == 0 && ws[0].handed == {}
    && forall i :: 0 <= i < |ops| ==> Allowed(o, ws[i], ops[i]) && ws[i + 1] == Apply(o, ws[i], ops[i])
  }

  /** In every state of every run: initial units and effective gives are the units left, the
      takes that returned success, and the threads on their way to that; the count stays
      within the limit; waiters mean there is none. */
  lemma {:induction false} UnitsConserved(o: Object, ws: seq<World>, ops: seq<Op>, i: nat)
    requires Run(o, ws, ops) && i < |ws|
    ensures Sound(o, ws[i])
  {
    hide Apply, Allowed;
    if i > 0 {
      UnitsConserved(o, ws, ops, i - 1);
      StepKeepsUnits(o, ws[i - 1], ops[i - 1]);
    }
  }

  function Gives(ops: seq<Op>): nat {
    if ops == [] then 0 else Gives(ops[..|ops| - 1]) + if ops[|ops| - 1].Give? then 1 else 0
  }

  /** Over every run no more takes return 0 than there were units at first and gives since. */
  lemma NeverOverdrawn(o: Object, ws: seq<World>, ops: seq<Op>, i: nat)
    requires Run(o, ws, ops) && i < |ws|
    ensures ws[i].returned + |ws[i].handed| <= o.initial + Gives(ops[..i])
  {
    hide Apply, Allowed, Inv, OnItsWay, Waiters;
    UnitsConserved(o, ws, ops, i);
    GivenAtMost(o, ws, ops, i);
  }

  lemma {:induction false} GivenAtMost(o: Object, ws: seq<World>, ops: seq<Op>, i: nat)
    requires Run(o, ws, ops) && i < |ws|
    ensures ws[i].given <= Gives(ops[..i])
  {
    hide Allowed, Inv, Effect, Counts;
    if i > 0 {
      GivenAtMost(o, ws, ops, i - 1);
      assert ops[..i][..i - 1] == ops[..i - 1] && ops[..i][i - 1] == ops[i - 1];
      assert ws[i] == Apply(o, ws[i - 1], ops[i - 1]);
    }
  }

  class Semaphore {
    const k: K.Kernel
    const q: Id
    const limit: nat
    var count: nat
    ghost var initial: nat
    ghost var given: nat
    ghost var returned: nat
    ghost var handed: set<Id>

    ghost function Conf(): Object
      reads this
    {
      Object(q, limit, initial)
    }

    ghost function W(): World
      reads this, k
    {
      World(k.s, count, given, returned, handed)
    }

    ghost predicate Valid()
      reads this, k, k.ties, k.waits, k.timeouts
    {
      k.Valid() && Between(Conf(), W())
    }

    /** A semaphore that passed the checks of k_sem_init. */
    constructor (k: K.Kernel, q: Id, count: nat, limit: nat)
      requires k.Valid() && Inv(k.s) && q in k.s.queues && Waiters(k.s, q) == [] && count <= limit
      ensures Valid() && this.k == k && this.q == q && this.limit == limit && this.count == initial == count
      ensures given == returned == 0 && handed == {}
    {
      hide Inv, K.Kernel.Valid;
      this.k, this.q, this.limit, this.count := k, q, limit, count;
      initial, given, returned, handed := count, 0, 0, {};
    }

    /** k_sem_take, up to the switch. */
    method Take(timeout: nat) returns (r: Outcome)
      requires Valid() && k.s.current !in handed && Allowed(Conf(), W(), Op.Take(timeout))
      modifies this, k, k.ties, k.waits, k.timeouts
      ensures r == if old(count) > 0 then Done(0) else if timeout == 0 then Done(EAGAIN) else Blocked
      ensures count == old(count) - if r == Done(0) then 1 else 0
      ensures Waiters(k.s, q) == old(Waiters(k.s, q)) + if r == Blocked then [old(k.s.current)] else []
      ensures Valid() && Conf() == old(Conf()) && W() == Call(Conf(), old(W()), Op.Take(timeout))
    {
      hide Inv, Between, K.Kernel.Valid, Allowed, Waiters, PendCurrentOn;
      assert handed + {} == handed;
      TakeExact(Conf(), W(), timeout);
      CallKeepsUnits(Conf(), W(), Op.Take(timeout));
      TakeFacts(Conf(), W(), timeout);
      if count > 0 {
        count := count - 1;
        returned := returned + 1;
        r := Done(0);
      } else {
        k.CurrentIs();
        r := k.PendCurrentOn(q, timeout);
      }
    }

    /** The end of k_sem_take, when a thread woken by a give runs again. */
    method Resume() returns (ret: int)
      requires Valid() && k.s.current in handed
      modifies this
      ensures Valid() && Conf() == old(Conf()) && W() == Settle(old(W())) && Sound(Conf(), W()) && ret == 0
    {
      hide Inv, K.Kernel.Valid, Waiters;
      k.CurrentIs();
      SettleKeeps(Conf(), W());
      ret := k.WaitResult();
      returned := returned + 1;
      handed := handed - {k.s.current};
    }

    /** k_sem_give. */
    method Give() returns (thread: Id)
      requires Valid() && k.s.current !in handed
      modifies this, k, k.ties, k.waits, k.timeouts
      ensures thread == if old(Waiters(k.s, q)) == [] then Null else old(Waiters(k.s, q))[0]
      ensures thread == Null ==> count == (if old(count) < limit then old(count) + 1 else limit) && k.s == old(k.s)
      ensures thread != Null ==> OnItsWay(k.s, thread) && Waiters(k.s, q) == old(Waiters(k.s, q))[1..] && count == old(count)
      ensures Valid() && Conf() == old(Conf()) && W() == Call(Conf(), old(W()), Op.Give)
    {
      hide Inv, Core, Between, K.Kernel.Valid, Unpend, CancelAll, Do, OnItsWay, Call, Effect, Counts;
      GiveExact(Conf(), W());
      GiveIs(Conf(), W());
      CallKeepsUnits(Conf(), W(), Op.Give);
      SoundFacts(Conf(), W());
      CallFacts(k.s, q);
      thread := k.UnpendFirst(q);
      if thread == Null {
        if count < limit {
          count := count + 1;
          given := given + 1;
        }
      } else {
        given := given + 1;
        handed := handed + {thread};
      }
    }

    /** k_sem_cancel_wait. */
    method CancelWait() returns (canceled: int)
      requires Valid() && k.s.current !in handed
      modifies this, k, k.ties, k.waits, k.timeouts
      ensures canceled == Int8(|old(Waiters(k.s, q))|)
      ensures Waiters(k.s, q) == [] && forall t :: t in old(Waiters(k.s, q)) ==> ReturnCode(Of(k.s, t)) == ECANCELED
      ensures Valid() && Conf() == old(Conf()) && W() == Call(Conf(), old(W()), Op.CancelWait)
    {
      hide Inv, Core, Between, K.Kernel.Valid, Unpend, CancelAll, Int8, K.Byte, ReturnCode;
      SoundFacts(Conf(), W());
      CancelOn(k.s, q);
      CallKeepsUnits(Conf(), W(), Op.CancelWait);
      SoundFacts(Conf(), W());
      CallFacts(k.s, q);
      var n := k.CancelAllPending(q);
      K.ByteCast(|old(Waiters(k.s, q))|);
      canceled := Int8(n);
    }
  }

  /** k_sem_init: a limit of zero is refused, a larger count than the limit is cut. */
  method Init(k: K.Kernel, q: Id, initialCount: nat, limit: nat) returns (ret: int, sem: Semaphore?)
    requires k.Valid() && Inv(k.s) && q in k.s.queues && Waiters(k.s, q) == []
    ensures ret == if limit == 0 then EINVAL else 0
    ensures limit == 0 <==> sem == null
    ensures sem != null ==> && fresh(sem) && sem.Valid() && sem.k == k && sem.q == q && sem.limit == limit
                            && sem.count == sem.initial == (if initialCount < limit then initialCount else limit)
                            && sem.given == sem.returned == 0 && sem.handed == {}
  {
    if limit == 0 {
      return EINVAL, null;
    }
    ret := 0;
    sem := new Semaphore(k, q, if limit < initialCount then limit else initialCount, limit);
  }

  lemma TakeFacts(o: Object, w: World, timeout: nat)
    requires Between(o, w) && Allowed(o, w, Take(timeout))
    ensures Inv(w.s) && o.q in w.s.queues && timeout <= w.s.cfg.forever && w.s.current in w.s.tcbs
    ensures w.count == 0 && timeout > 0 ==> w.s.tcbs[w.s.current].state.Ready?
  {
  }

  lemma SoundFacts(o: Object, w: World)
    requires Between(o, w)
    ensures Inv(w.s) && o.q in w.s.queues
  {
  }
}
