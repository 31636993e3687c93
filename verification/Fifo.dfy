/** The FIFO of src/avrtos/fifo.c: items come out in the order they went in, over every run. */
module Fifo {
  import opened Links
  import opened Sched
  import opened SchedRuns
  import opened Waits
  import opened WaitQueues
  import opened Handoffs
  import opened Errno
  import L = SList
  import K = Kernel

  /** The FIFO in its system, with the items put and the record of the items that left it. */
  datatype World = World(s: Sys, queue: seq<Id>, put: seq<Id>, log: seq<Transfer<Id>>)

  datatype Op = Put(item: Id) | Get(timeout: nat) | CancelWait | Other(step: Step)

  ghost predicate Allowed(q: Id, w: World, op: Op) {
    match op
    case Put(item) => item != Null && item !in w.queue
    case Get(t) => t <= w.s.cfg.forever && (w.queue == [] && t > 0 ==> Of(w.s, w.s.current).state.Ready?)
    case Other(step) => Enabled(w.s, step) && !Names(step, q)
    case _ => true
  }

  /** What k_fifo_get returns at once; Null when it returns nothing, or waits. */
  ghost function GetAnswer(w: World): Id {
    if w.queue == [] then Null else w.queue[0]
  }

  /** What a call does to the kernel and to the queue, up to the switch. */
  ghost function Effect(q: Id, w: World, op: Op): World {
    match op
    case Put(item) =>
      if Waiters(w.s, q) != [] then w.(s := Do(w.s, HandoffWith(q, Ptr(item))))
      else w.(queue := w.queue + [item])
    case Get(t) =>
      if w.queue != [] then w.(queue := w.queue[1..])
      else if t == 0 then w
      else w.(s := Do(w.s, Block(q, t)))
    case CancelWait => w.(s := Do(w.s, CancelEvery(q)))
    case Other(step) => w.(s := Do(w.s, step))
  }

  /** The items that leave with the call: to the caller of a get that returns one, or to the first
      waiter of a put. */
  ghost function Leaving(q: Id, w: World, op: Op): seq<Transfer<Id>> {
    match op
    case Put(item) => if Waiters(w.s, q) == [] then [] else [Transfer(item, Waiters(w.s, q)[0], InFlight)]
    case Get(_) => if GetAnswer(w) == Null then [] else [Transfer(GetAnswer(w), w.s.current, Returned)]
    case _ => []
  }

  /** The effect, with the history kept from what is called and what it answers. */
  ghost function Call(q: Id, w: World, op: Op): World {
    Effect(q, w, op).(put := w.put + (if op.Put? then [op.item] else []), log := w.log + Leaving(q, w, op))
  }

  /** A woken waiter that runs again returns from k_fifo_get before anything else can run. */
  ghost function Settle(w: World): World {
    w.(log := Landed(w.log, w.s.current))
  }

  ghost function Apply(q: Id, w: World, op: Op): World {
    Settle(Call(q, w, op))
  }

  /** The thread on its way has the item in its swap_data. */
  ghost predicate Carries(s: Sys, x: Transfer<Id>) {
    x.state.InFlight? ==> OnItsWay(s, x.to) && Of(s, x.to).swap == Ptr(x.what)
  }

  /** What was put is what left followed by what is queued; nobody waits beside items; what is
      in flight is with the thread it was given to. */
  ghost predicate Between(q: Id, w: World) {
    && Inv(w.s) && q in w.s.queues
    && Values(w.log) + w.queue == w.put
    && (Waiters(w.s, q) != [] ==> w.queue == [])
    && Distinct(w.queue) && Null !in w.queue
    && Singly(w.log) && forall i :: 0 <= i < |w.log| ==> Carries(w.s, w.log[i])
  }

  ghost predicate Sound(q: Id, w: World) {
    Between(q, w) && Grounded(w.log, w.s.current)
  }

  lemma SettleKeeps(q: Id, w: World)
    requires Between(q, w)
    ensures Sound(q, Settle(w))
  {
    hide Inv, OnItsWay, Waiters;
    LandedValues(w.log, w.s.current);
  }

  /** What is in flight over a step of the rest of the system. */
  lemma Onward(w: World, step: Step, x: Transfer<Id>)
    requires Inv(w.s) && Enabled(w.s, step) && !Flying(x, w.s.current) && Carries(w.s, x)
    ensures Carries(Do(w.s, step), x)
  {
    hide Inv, Enabled, Do, OnItsWay;
    if x.state.InFlight? {
      StaysOnItsWay(w.s, step, x.to);
    }
  }

  lemma AllOnward(q: Id, w: World, step: Step)
    requires Sound(q, w) && Enabled(w.s, step)
    ensures forall i :: 0 <= i < |w.log| ==> Carries(Do(w.s, step), w.log[i])
  {
    hide Inv, Enabled, Do, Carries, Flying;
    forall i | 0 <= i < |w.log| ensures Carries(Do(w.s, step), w.log[i]) {
      Onward(w, step, w.log[i]);
    }
  }

  lemma PutKeepsOrder(q: Id, w: World, item: Id)
    requires Sound(q, w) && Allowed(q, w, Put(item))
    ensures Between(q, Call(q, w, Put(item)))
  {
    hide Do, Inv, Enabled, OnItsWay, Waiters;
    var step, w' := HandoffWith(q, Ptr(item)), Call(q, w, Put(item));
    assert w.log + [] == w.log;
    if Waiters(w.s, q) == [] {
      assert Values(w.log) + (w.queue + [item]) == w.put + [item];
    } else {
      var t := Waiters(w.s, q)[0];
      HandoffOn(w.s, q, step);
      HandedOver(w.s, q, step);
      HandoffEnabled(w.s, q, Ptr(item));
      AllOnward(q, w, step);
      ValuesAdd(w.log, Transfer(item, t, InFlight));
      assert Values(w.log) + [] == w.put;
      NotYet(w, t);
    }
  }

  /** The first waiter is not on its way already. */
  lemma NotYet(w: World, t: Id)
    requires !OnItsWay(w.s, t) && forall i :: 0 <= i < |w.log| ==> Carries(w.s, w.log[i])
    ensures Grounded(w.log, t)
  {
  }

  lemma CallKeepsOrder(q: Id, w: World, op: Op)
    requires Sound(q, w) && Allowed(q, w, op)
    ensures Between(q, Call(q, w, op))
  {
    hide Do, Inv, Enabled, Names, OnItsWay, Waiters;
    assert w.log + [] == w.log && w.put + [] == w.put;
    assert w.queue != [] ==> w.queue[0] in w.queue;
    match op
    case Put(item) => PutKeepsOrder(q, w, item);
    case Get(t) =>
      if w.queue == [] && t > 0 {
        BlockEnabled(w.s, q, t);
        BlockOn(w.s, q, t);
        AllOnward(q, w, Block(q, t));
      } else if w.queue != [] {
        ValuesAdd(w.log, Transfer(w.queue[0], w.s.current, Returned));
        assert Values(w.log) + [w.queue[0]] + w.queue[1..] == Values(w.log) + w.queue;
      }
    case CancelWait =>
      CancelOn(w.s, q);
      HandoffEnabled(w.s, q, Nothing);
      AllOnward(q, w, CancelEvery(q));
    case Other(step) =>
      var k := Elsewhere(w.s, step, q);
      KeepNone(w.s, step, q, k);
      AllOnward(q, w, step);
  }

  lemma StepKeepsOrder(q: Id, w: World, op: Op)
    requires Sound(q, w) && Allowed(q, w, op)
    ensures Sound(q, Apply(q, w, op))
  {
    hide Call, Between, Allowed, Settle, Grounded;
    CallKeepsOrder(q, w, op);
    SettleKeeps(q, Call(q, w, op));
  }

  ghost predicate Run(q: Id, ws: seq<World>, ops: seq<Op>) {
    && |ws| == |ops| + 1
    && Inv(ws[0].s) && q in ws[0].s.queues && Waiters(ws[0].s, q) == []
    && ws[0].queue == ws[0].put == [] && ws[0].log == []
    && forall i :: 0 <= i < |ops| ==> Allowed(q, ws[i], ops[i]) && ws[i + 1] == Apply(q, ws[i], ops[i])
  }

  /** In every state of every run, the items that left followed by the queued ones are the
      items put, in order, and a waiting thread means there is no item. */
  lemma {:induction false} ItemsInOrder(q: Id, ws: seq<World>, ops: seq<Op>, i: nat)
    requires Run(q, ws, ops) && i < |ws|
    ensures Sound(q, ws[i])
  {
    hide Apply, Allowed, Inv, OnItsWay, Waiters;
    if i > 0 {
      ItemsInOrder(q, ws, ops, i - 1);
      StepKeepsOrder(q, ws[i - 1], ops[i - 1]);
    }
  }

  /** Over every run: when a thread that an item was handed to runs again, its get returns
      that item. */
  lemma HandoffDelivers(q: Id, ws: seq<World>, ops: seq<Op>, i: nat, j: nat)
    requires Run(q, ws, ops) && i < |ops|
    requires var w := Call(q, ws[i], ops[i]); j < |w.log| && Flying(w.log[j], w.s.current)
    ensures var w := Call(q, ws[i], ops[i]); var c := Of(w.s, w.s.current);
            && ReturnCode(c) == 0 && c.swap == Ptr(w.log[j].what)
            && j < |ws[i + 1].log| && ws[i + 1].log[j] == Transfer(w.log[j].what, w.s.current, Returned)
  {
    hide Call, Allowed, Inv;
    ItemsInOrder(q, ws, ops, i);
    CallKeepsOrder(q, ws[i], ops[i]);
    assert Carries(Call(q, ws[i], ops[i]).s, Call(q, ws[i], ops[i]).log[j]);
  }

  class Fifo {
    const k: K.Kernel
    const q: Id
    const list: L.SList
    ghost var put: seq<Id>
    ghost var log: seq<Transfer<Id>>

    ghost function W(): World
      reads this, k, list
    {
      World(k.s, list.items, put, log)
    }

    ghost predicate Valid()
      reads this, k, k.ties, k.waits, k.timeouts, list
    {
      k.Valid() && list.Valid() && Between(q, W())
    }

    /** k_fifo_init. */
    constructor (k: K.Kernel, q: Id)
      requires k.Valid() && Inv(k.s) && q in k.s.queues && Waiters(k.s, q) == []
      ensures Valid() && this.k == k && this.q == q && put == list.items == [] && log == []
    {
      hide Inv, K.Kernel.Valid;
      this.k, this.q := k, q;
      list := new L.SList();
      put, log := [], [];
    }

    /** z_fifo_put: the first waiter gets the item, otherwise it is queued. */
    method Put(item: Id) returns (thread: Id)
      requires Valid() && Grounded(log, k.s.current) && Allowed(q, W(), Op.Put(item))
      modifies this, k, k.ties, k.waits, k.timeouts, list
      ensures thread == if old(Waiters(k.s, q)) == [] then Null else old(Waiters(k.s, q))[0]
      ensures put == old(put) + [item] && list.items == old(list.items) + if thread == Null then [item] else []
      ensures thread != Null ==> OnItsWay(k.s, thread) && Of(k.s, thread).swap == Ptr(item)
      ensures Valid() && W() == Call(q, old(W()), Op.Put(item))
    {
      hide Inv, Core, Between, K.Kernel.Valid, Unpend, UnpendSwap, CancelAll, Do, Grounded, OnItsWay;
      PutServes(q, W(), item);
      assert log + [] == log;
      CallKeepsOrder(q, W(), Op.Put(item));
      SoundFacts(q, W());
      CallFacts(k.s, q);
      HandoffFacts(k.s, q, Ptr(item));
      thread := k.UnpendFirstAndSwap(q, Ptr(item));
      if thread == Null {
        list.Append(item);
      } else {
        log := log + [Transfer(item, thread, InFlight)];
      }
      put := put + [item];
    }

    /** k_fifo_get, up to the switch; `item` is Null when nothing was returned. */
    method Get(timeout: nat) returns (item: Id, blocked: bool)
      requires Valid() && Grounded(log, k.s.current) && Allowed(q, W(), Op.Get(timeout))
      modifies this, k, k.ties, k.waits, k.timeouts, list
      ensures item == if old(list.items) == [] then Null else old(list.items)[0]
      ensures blocked == (old(list.items) == [] && timeout > 0)
      ensures item != Null ==> old(list.items) == [item] + list.items && log == old(log) + [Transfer(item, k.s.current, Returned)]
      ensures item == Null ==> list.items == [] && log == old(log)
      ensures Waiters(k.s, q) == old(Waiters(k.s, q)) + if blocked then [old(k.s.current)] else []
      ensures Valid() && W() == Call(q, old(W()), Op.Get(timeout))
    {
      hide Inv, Core, Between, K.Kernel.Valid, Allowed, Grounded, Waiters, PendCurrentOn;
      GetQueues(q, W(), timeout);
      assert log + [] == log && put + [] == put;
      assert list.items != [] ==> list.items[0] in list.items && list.items == [list.items[0]] + list.items[1..];
      CallKeepsOrder(q, W(), Op.Get(timeout));
      GetFacts(q, W(), timeout);
      k.CurrentIs();
      item := list.Get();
      blocked := false;
      if item == Null {
        var r := k.PendCurrentOn(q, timeout);
        blocked := r.Blocked?;
      } else {
        log := log + [Transfer(item, k.s.current, Returned)];
      }
    }

    /** k_fifo_cancel_wait. */
    method CancelWait() returns (canceled: int)
      requires Valid() && Grounded(log, k.s.current)
      modifies this, k, k.ties, k.waits, k.timeouts
      ensures Waiters(k.s, q) == [] && forall t :: t in old(Waiters(k.s, q)) ==> ReturnCode(Of(k.s, t)) == ECANCELED
      ensures Valid() && W() == Call(q, old(W()), Op.CancelWait) && canceled == Int8(|old(Waiters(k.s, q))|)
    {
      hide Inv, Core, Between, K.Kernel.Valid, Unpend, CancelAll, Int8, K.Byte, ReturnCode, Grounded;
      assert log + [] == log && put + [] == put;
      CallKeepsOrder(q, W(), Op.CancelWait);
      SoundFacts(q, W());
      CallFacts(k.s, q);
      CancelOn(k.s, q);
      var n := k.CancelAllPending(q);
      K.ByteCast(|old(Waiters(k.s, q))|);
      canceled := Int8(n);
    }

    /** The end of k_fifo_get, when a thread that an item was handed to runs again. */
    method Resume(ghost j: nat) returns (item: Id)
      requires Valid() && j < |log| && Flying(log[j], k.s.current)
      modifies this
      ensures Valid() && W() == Settle(old(W())) && Sound(q, W()) && item == old(log)[j].what
    {
      hide Inv, K.Kernel.Valid, Waiters, Distinct;
      k.CurrentIs();
      SettleKeeps(q, W());
      assert Carries(k.s, log[j]);
      item := Null;
      var ret := k.WaitResult();
      if ret == 0 {
        var data := k.SwapData(k.current);
        item := if data.Ptr? then data.p else Null;
      }
      log := Landed(log, k.s.current);
    }
  }

  /** A put that finds a waiter puts the first one on its way with the item. */
  lemma PutServes(q: Id, w: World, item: Id)
    requires Sound(q, w)
    ensures Waiters(w.s, q) != [] ==>
              var t, s' := Waiters(w.s, q)[0], Call(q, w, Put(item)).s; OnItsWay(s', t) && Of(s', t).swap == Ptr(item)
  {
    hide Do, Inv, OnItsWay, Waiters;
    if Waiters(w.s, q) != [] {
      HandoffOn(w.s, q, HandoffWith(q, Ptr(item)));
      HandedOver(w.s, q, HandoffWith(q, Ptr(item)));
    }
  }

  /** A get that waits queues the caller up, last; any other leaves the waiters as they are. */
  lemma GetQueues(q: Id, w: World, timeout: nat)
    requires Sound(q, w) && Allowed(q, w, Get(timeout))
    ensures var s' := Call(q, w, Get(timeout)).s;
            Waiters(s', q) == Waiters(w.s, q) + if w.queue == [] && timeout > 0 then [w.s.current] else []
  {
    hide Do, Inv, Enabled, OnItsWay, Waiters;
    if w.queue == [] && timeout > 0 {
      BlockEnabled(w.s, q, timeout);
      BlockOn(w.s, q, timeout);
    }
  }

  lemma SoundFacts(q: Id, w: World)
    requires Between(q, w)
    ensures Inv(w.s) && q in w.s.queues
  {
  }

  lemma GetFacts(q: Id, w: World, timeout: nat)
    requires Between(q, w) && Allowed(q, w, Get(timeout))
    ensures Inv(w.s) && q in w.s.queues && timeout <= w.s.cfg.forever && w.s.current in w.s.tcbs
    ensures w.queue == [] && timeout > 0 ==> w.s.tcbs[w.s.current].state.Ready?
    ensures Null !in w.queue
  {
  }
}
