/** The blocking slab of src/avrtos/mem_slab.c: every block is free or with one thread, over every run. */
module MemSlab {
  import opened Links
  import opened Sched
  import opened SchedRuns
  import opened Waits
  import opened WaitQueues
  import opened Handoffs
  import opened Errno
  import A = Slab
  import K = Kernel

  datatype Object = Object(q: Id, count: nat)

  /** The slab in its system; `held` says which thread each block out of the free list was
      given to, and `log` how each block came to its thread. */
  datatype World = World(s: Sys, free: seq<Id>, held: map<Id, Id>, log: seq<Transfer<Id>>)

  datatype Op = Alloc(timeout: nat) | Free(mem: Id) | Other(step: Step)

  /** A block is freed by someone who has it, not while it is on its way to its thread. */
  ghost predicate Allowed(o: Object, w: World, op: Op) {
    match op
    case Alloc(t) => t <= w.s.cfg.forever && (w.free == [] && t > 0 ==> Of(w.s, w.s.current).state.Ready?)
    case Free(mem) => mem == Null || (mem in w.held && Arrived(w.log, mem))
    case Other(step) => Enabled(w.s, step) && !Names(step, o.q)
  }

  ghost predicate Arrived(log: seq<Transfer<Id>>, mem: Id) {
    forall i :: 0 <= i < |log| && log[i].state.InFlight? ==> log[i].what != mem
  }

  /** What k_mem_slab_alloc answers up to the switch, and the block when that is 0. */
  ghost function AllocAnswer(w: World, timeout: nat): Outcome {
    if w.free != [] then Done(0) else if timeout == 0 then Done(ENOMEM) else Blocked
  }

  ghost function Lent(w: World): Id {
    if w.free == [] then Null else w.free[0]
  }

  /** What a call does to the kernel and to the free list, up to the switch. */
  ghost function Effect(o: Object, w: World, op: Op): World {
    match op
    case Alloc(t) =>
      if w.free != [] then w.(free := w.free[1..])
      else if t == 0 then w
      else w.(s := Do(w.s, Block(o.q, t)))
    case Free(mem) =>
      if mem == Null then w
      else if Waiters(w.s, o.q) != [] then w.(s := Do(w.s, HandoffWith(o.q, Ptr(mem))))
      else w.(free := [mem] + w.free)
    case Other(step) => w.(s := Do(w.s, step))
  }

  /** Who has which block: the caller of an alloc that answers 0, or the thread a free returns. */
  ghost function Holders(o: Object, w: World, op: Op): map<Id, Id> {
    match op
    case Alloc(t) => if AllocAnswer(w, t) == Done(0) then w.held[Lent(w) := w.s.current] else w.held
    case Free(mem) =>
      if mem == Null then w.held
      else if Waiters(w.s, o.q) == [] then w.held - {mem}
      else w.held[mem := Waiters(w.s, o.q)[0]]
    case Other(_) => w.held
  }

  ghost function Leaving(o: Object, w: World, op: Op): seq<Transfer<Id>> {
    match op
    case Alloc(t) => if AllocAnswer(w, t) == Done(0) then [Transfer(Lent(w), w.s.current, Returned)] else []
    case Free(mem) =>
      if mem == Null || Waiters(w.s, o.q) == [] then [] else [Transfer(mem, Waiters(w.s, o.q)[0], InFlight)]
    case Other(_) => []
  }

  /** The effect, with the history kept from what is called and what it answers. */
  ghost function Call(o: Object, w: World, op: Op): World {
    Effect(o, w, op).(held := Holders(o, w, op), log := w.log + Leaving(o, w, op))
  }

  /** A woken waiter that runs again returns from k_mem_slab_alloc before anything else can run. */
  ghost function Settle(w: World): World {
    w.(log := Landed(w.log, w.s.current))
  }

  ghost function Apply(o: Object, w: World, op: Op): World {
    Settle(Call(o, w, op))
  }

  /** The thread on its way has the block in its swap_data. */
  ghost predicate Carries(s: Sys, held: map<Id, Id>, x: Transfer<Id>) {
    x.state.InFlight? ==> OnItsWay(s, x.to) && Of(s, x.to).swap == Ptr(x.what) && x.what in held && held[x.what] == x.to
  }

  /** The free list and the held blocks partition the slab; a waiter means no block is free; a
      block in flight is with the thread that holds it. */
  ghost predicate Between(o: Object, w: World) {
    && Inv(w.s) && o.q in w.s.queues
    && Distinct(w.free) && Elems(w.free) !! w.held.Keys && Elems(w.free) + w.held.Keys == A.Blocks(o.count)
    && (Waiters(w.s, o.q) != [] ==> w.free == [])
    && Singly(w.log) && forall i :: 0 <= i < |w.log| ==> Carries(w.s, w.held, w.log[i])
  }

  ghost predicate Sound(o: Object, w: World) {
    Between(o, w) && Grounded(w.log, w.s.current)
  }

  lemma SettleKeeps(o: Object, w: World)
    requires Between(o, w)
    ensures Sound(o, Settle(w))
  {
    hide Inv, OnItsWay, Waiters;
  }

  lemma AllOnward(o: Object, w: World, step: Step)
    requires Sound(o, w) && Enabled(w.s, step)
    ensures forall i :: 0 <= i < |w.log| ==> Carries(Do(w.s, step), w.held, w.log[i])
  {
    hide Inv, Enabled, Do, OnItsWay;
    forall i | 0 <= i < |w.log| ensures Carries(Do(w.s, step), w.held, w.log[i]) {
      var x := w.log[i];
      if x.state.InFlight? {
        StaysOnItsWay(w.s, step, x.to);
      }
    }
  }

  /** The first waiter is not on its way already. */
  lemma NotYet(w: World, t: Id)
    requires !OnItsWay(w.s, t) && forall i :: 0 <= i < |w.log| ==> Carries(w.s, w.held, w.log[i])
    ensures Grounded(w.log, t)
  {
  }

  lemma AllocKeeps(o: Object, w: World, timeout: nat)
    requires Sound(o, w) && Allowed(o, w, Alloc(timeout))
    ensures Between(o, Call(o, w, Alloc(timeout)))
  {
    hide Do, Inv, Enabled, OnItsWay, Waiters;
    assert w.log + [] == w.log;
    if w.free == [] && timeout > 0 {
      BlockEnabled(w.s, o.q, timeout);
      BlockOn(w.s, o.q, timeout);
      AllOnward(o, w, Block(o.q, timeout));
    } else if w.free != [] {
      TakeFirst(w.free);
      assert w.free[0] in Elems(w.free);
    }
  }

  lemma FreeKeeps(o: Object, w: World, mem: Id)
    requires Sound(o, w) && Allowed(o, w, Free(mem)) && mem != Null
    ensures Between(o, Call(o, w, Free(mem)))
  {
    hide Do, Inv, Enabled, OnItsWay, Waiters;
    assert w.log + [] == w.log;
    if Waiters(w.s, o.q) == [] {
      assert Elems([mem] + w.free) == {mem} + Elems(w.free);
    } else {
      var step, t := HandoffWith(o.q, Ptr(mem)), Waiters(w.s, o.q)[0];
      HandoffOn(w.s, o.q, step);
      HandedOver(w.s, o.q, step);
      HandoffEnabled(w.s, o.q, Ptr(mem));
      AllOnward(o, w, step);
      NotYet(w, t);
    }
  }

  lemma CallKeepsPartition(o: Object, w: World, op: Op)
    requires Sound(o, w) && Allowed(o, w, op)
    ensures Between(o, Call(o, w, op))
  {
    hide Do, Inv, Enabled, Names, OnItsWay, Waiters, Arrived;
    assert w.log + [] == w.log;
    match op
    case Alloc(t) => AllocKeeps(o, w, t);
    case Free(mem) => if mem != Null { FreeKeeps(o, w, mem); }
    case Other(step) =>
      var k := Elsewhere(w.s, step, o.q);
      KeepNone(w.s, step, o.q, k);
      AllOnward(o, w, step);
  }

  lemma StepKeepsPartition(o: Object, w: World, op: Op)
    requires Sound(o, w) && Allowed(o, w, op)
    ensures Sound(o, Apply(o, w, op))
  {
    hide Call, Between, Allowed, Settle, Grounded;
    CallKeepsPartition(o, w, op);
    SettleKeeps(o, Call(o, w, op));
  }

  lemma TakeFirst(free: seq<Id>)
    requires Distinct(free) && free != []
    ensures free[0] !in free[1..] && Elems(free) == {free[0]} + Elems(free[1..])
  {
    assert free == [free[0]] + free[1..];
  }

  ghost predicate Run(o: Object, ws: seq<World>, ops: seq<Op>) {
    && |ws| == |ops| + 1
    && Inv(ws[0].s) && o.q in ws[0].s.queues && Waiters(ws[0].s, o.q) == []
    && Distinct(ws[0].free) && Elems(ws[0].free) == A.Blocks(o.count) && ws[0].held == map[] && ws[0].log == []
    && forall i :: 0 <= i < |ops| ==> Allowed(o, ws[i], ops[i]) && ws[i + 1] == Apply(o, ws[i], ops[i])
  }

  /** In every state of every run a block is either free, once, or held by one thread, and
      threads wait only when no block is free. */
  lemma {:induction false} BlocksConserved(o: Object, ws: seq<World>, ops: seq<Op>, i: nat)
    requires Run(o, ws, ops) && i < |ws|
    ensures Sound(o, ws[i])
  {
    hide Apply, Allowed, Inv, A.Blocks;
    if i > 0 {
      BlocksConserved(o, ws, ops, i - 1);
      StepKeepsPartition(o, ws[i - 1], ops[i - 1]);
    }
  }

  /** Over every run: when a thread that a block was handed to runs again, its call returns 0
      with that block, and it holds it. */
  lemma HandoffDelivers(o: Object, ws: seq<World>, ops: seq<Op>, i: nat, j: nat)
    requires Run(o, ws, ops) && i < |ops|
    requires var w := Call(o, ws[i], ops[i]); j < |w.log| && Flying(w.log[j], w.s.current)
    ensures var w := Call(o, ws[i], ops[i]); var c, mem := Of(w.s, w.s.current), w.log[j].what;
            && ReturnCode(c) == 0 && c.swap == Ptr(mem) && mem in w.held && w.held[mem] == w.s.current
            && j < |ws[i + 1].log| && ws[i + 1].log[j] == Transfer(mem, w.s.current, Returned)
  {
    hide Call, Allowed, Inv, Waiters;
    BlocksConserved(o, ws, ops, i);
    CallKeepsPartition(o, ws[i], ops[i]);
    var w := Call(o, ws[i], ops[i]);
    assert Carries(w.s, w.held, w.log[j]);
  }

  /** The step returns block b to a thread: from an alloc that answers 0, or from one that waited and
      whose thread runs now. */
  ghost predicate Returns(o: Object, w: World, op: Op, b: Id) {
    || (op.Alloc? && AllocAnswer(w, op.timeout) == Done(0) && Lent(w) == b)
    || exists n :: 0 <= n < |Call(o, w, op).log| && Flying(Call(o, w, op).log[n], Call(o, w, op).s.current) && Call(o, w, op).log[n].what == b
  }

  /** The block is with a thread that knows it. */
  ghost predicate Out(w: World, b: Id) {
    b in w.held && Arrived(w.log, b)
  }

  lemma ReturnedIsOut(o: Object, w: World, op: Op, b: Id)
    requires Sound(o, w) && Allowed(o, w, op) && Returns(o, w, op, b)
    ensures Out(Apply(o, w, op), b)
  {
    hide Inv, OnItsWay, Waiters, Effect, Allowed;
    var w' := Call(o, w, op);
    CallKeepsPartition(o, w, op);
    if n :| 0 <= n < |w'.log| && Flying(w'.log[n], w'.s.current) && w'.log[n].what == b {
      assert Carries(w'.s, w'.held, w'.log[n]);
      forall i | 0 <= i < |w'.log| && Landed(w'.log, w'.s.current)[i].state.InFlight? ensures w'.log[i].what != b {
        assert Carries(w'.s, w'.held, w'.log[i]);
      }
    } else {
      assert b in w.free && b in Elems(w.free) && b !in w.held.Keys;
      forall i | 0 <= i < |w.log| && w.log[i].state.InFlight? ensures w.log[i].what != b {
        assert Carries(w.s, w.held, w.log[i]);
      }
    }
  }

  lemma StaysOut(o: Object, w: World, op: Op, b: Id)
    requires Sound(o, w) && Allowed(o, w, op) && Out(w, b) && op != Free(b)
    ensures Out(Apply(o, w, op), b) && !Returns(o, w, op, b)
  {
    hide Inv, OnItsWay, Waiters, Effect;
    assert forall mem :: mem in w.free ==> mem in Elems(w.free);
    assert b in w.held.Keys;
    var l := w.log + Leaving(o, w, op);
    forall i | 0 <= i < |l| && l[i].state.InFlight? ensures l[i].what != b {
      assert i < |w.log| ==> l[i] == w.log[i];
    }
  }

  /** Over every run, between two returns of the same block there is a free of it. */
  lemma FreedBetween(o: Object, ws: seq<World>, ops: seq<Op>, i: nat, j: nat, b: Id)
    requires Run(o, ws, ops) && i < j < |ops| && Returns(o, ws[i], ops[i], b) && Returns(o, ws[j], ops[j], b)
    ensures exists k :: i < k <= j && ops[k] == Free(b)
  {
    hide Allowed, Apply, Inv, Returns, Out;
    if forall k :: i < k <= j ==> ops[k] != Free(b) {
      BlocksConserved(o, ws, ops, i);
      ReturnedIsOut(o, ws[i], ops[i], b);
      OutUntil(o, ws, ops, i + 1, j, b);
      BlocksConserved(o, ws, ops, j);
      StaysOut(o, ws[j], ops[j], b);
    }
  }

  lemma {:induction false} OutUntil(o: Object, ws: seq<World>, ops: seq<Op>, i: nat, j: nat, b: Id)
    requires Run(o, ws, ops) && i <= j < |ws| && Out(ws[i], b) && forall k :: i <= k < j ==> ops[k] != Free(b)
    ensures Out(ws[j], b)
    decreases j
  {
    hide Allowed, Apply, Inv, Out;
    if i < j {
      OutUntil(o, ws, ops, i, j - 1, b);
      BlocksConserved(o, ws, ops, j - 1);
      StaysOut(o, ws[j - 1], ops[j - 1], b);
    }
  }

  class MemSlab {
    const k: K.Kernel
    const q: Id
    const slab: A.Slab
    ghost var held: map<Id, Id>
    ghost var log: seq<Transfer<Id>>

    ghost function Conf(): Object {
      Object(q, slab.count)
    }

    ghost function W(): World
      reads this, k, slab
    {
      World(k.s, slab.free, held, log)
    }

    ghost predicate Valid()
      reads this, k, k.ties, k.waits, k.timeouts, slab
    {
      k.Valid() && slab.Valid() && Between(Conf(), W())
    }

    /** k_mem_slab_init. */
    constructor (k: K.Kernel, q: Id, count: nat)
      requires k.Valid() && Inv(k.s) && q in k.s.queues && Waiters(k.s, q) == [] && count < 256
      ensures Valid() && this.k == k && this.q == q && slab.count == count && held == map[] && log == [] && fresh(slab)
    {
      hide Inv, K.Kernel.Valid;
      this.k, this.q, held, log := k, q, map[], [];
      slab := new A.Slab(count);
    }

    /** k_mem_slab_alloc, up to the switch; `mem` is the block when the result is 0. */
    method Alloc(timeout: nat) returns (r: Outcome, mem: Id)
      requires Valid() && Grounded(log, k.s.current) && Allowed(Conf(), W(), Op.Alloc(timeout))
      modifies this, k, k.ties, k.waits, k.timeouts, slab
      ensures r == if old(slab.free) != [] then Done(0) else if timeout == 0 then Done(ENOMEM) else Blocked
      ensures mem == if old(slab.free) != [] then old(slab.free)[0] else Null
      ensures r == Done(0) ==> mem != Null && mem in held && held[mem] == k.s.current && mem !in slab.free && mem !in old(held)
      ensures slab.free == if r == Done(0) then old(slab.free)[1..] else old(slab.free)
      ensures Waiters(k.s, q) == old(Waiters(k.s, q)) + if r == Blocked then [old(k.s.current)] else []
      ensures Valid() && W() == Call(Conf(), old(W()), Op.Alloc(timeout))
    {
      hide Inv, Core, Between, K.Kernel.Valid, Do, Allowed, PendCurrentOn, Grounded, Waiters;
      AllocQueues(Conf(), W(), timeout);
      assert log + [] == log;
      CallKeepsPartition(Conf(), W(), Op.Alloc(timeout));
      SoundFacts(Conf(), W());
      SoundFacts(Conf(), Call(Conf(), W(), Op.Alloc(timeout)));
      AllocFacts(Conf(), W(), timeout);
      k.CurrentIs();
      mem := slab.Alloc();
      if mem != Null {
        held := held[mem := k.s.current];
        log := log + [Transfer(mem, k.s.current, Returned)];
        r := Done(0);
      } else if timeout == 0 {
        r := Done(ENOMEM);
      } else {
        r := k.PendCurrentOn(q, timeout);
      }
    }

    /** The end of k_mem_slab_alloc, when a thread that a block was handed to runs again. */
    method Resume(ghost j: nat) returns (ret: int, mem: Id)
      requires Valid() && j < |log| && Flying(log[j], k.s.current)
      modifies this
      ensures Valid() && W() == Settle(old(W())) && Sound(Conf(), W()) && ret == 0 && mem == old(log)[j].what
    {
      hide Inv, K.Kernel.Valid, Waiters, Distinct, A.Blocks;
      k.CurrentIs();
      SettleKeeps(Conf(), W());
      assert Carries(k.s, held, log[j]);
      mem := Null;
      ret := k.WaitResult();
      if ret == 0 {
        var data := k.SwapData(k.current);
        mem := if data.Ptr? then data.p else Null;
      }
      log := Landed(log, k.s.current);
    }

    /** k_mem_slab_free. */
    method Free(mem: Id) returns (thread: Id)
      requires Valid() && Grounded(log, k.s.current) && Allowed(Conf(), W(), Op.Free(mem))
      modifies this, k, k.ties, k.waits, k.timeouts, slab
      ensures thread == if mem == Null || old(Waiters(k.s, q)) == [] then Null else old(Waiters(k.s, q))[0]
      ensures slab.free == if mem != Null && thread == Null then [mem] + old(slab.free) else old(slab.free)
      ensures Valid() && W() == Call(Conf(), old(W()), Op.Free(mem))
    {
      hide Inv, Core, Between, K.Kernel.Valid, Unpend, UnpendSwap, CancelAll, Do, Grounded, Arrived, OnItsWay, Call;
      FreeIs(Conf(), W(), mem);
      CallKeepsPartition(Conf(), W(), Op.Free(mem));
      SoundFacts(Conf(), W());
      CallFacts(k.s, q);
      HandoffFacts(k.s, q, Ptr(mem));
      thread := Null;
      if mem == Null {
        return;
      }
      thread := k.UnpendFirstAndSwap(q, Ptr(mem));
      if thread == Null {
        slab.Free(mem);
        held := held - {mem};
      } else {
        held := held[mem := thread];
        log := log + [Transfer(mem, thread, InFlight)];
      }
    }
  }

  lemma SoundFacts(o: Object, w: World)
    requires Between(o, w)
    ensures Inv(w.s) && o.q in w.s.queues
    ensures forall mem :: mem in w.held ==> mem in A.Blocks(o.count) && mem !in w.free
  {
    hide Inv;
    assert forall mem :: mem in w.free ==> mem in Elems(w.free);
    assert forall mem :: mem in w.held ==> mem in w.held.Keys;
  }

  /** An alloc that waits queues the caller up, last. */
  lemma AllocQueues(o: Object, w: World, timeout: nat)
    requires Sound(o, w) && Allowed(o, w, Alloc(timeout))
    ensures var s' := Call(o, w, Alloc(timeout)).s;
            Waiters(s', o.q) == Waiters(w.s, o.q) + if AllocAnswer(w, timeout) == Blocked then [w.s.current] else []
  {
    hide Do, Inv, Enabled, OnItsWay, Waiters;
    if w.free == [] && timeout > 0 {
      BlockEnabled(w.s, o.q, timeout);
      BlockOn(w.s, o.q, timeout);
    }
  }

  /** A free, case by case. */
  lemma FreeIs(o: Object, w: World, mem: Id)
    ensures var w', waiters := Call(o, w, Free(mem)), Waiters(w.s, o.q);
            && (mem == Null ==> w' == w)
            && (mem != Null && waiters == [] ==> w' == w.(free := [mem] + w.free, held := w.held - {mem}))
            && (mem != Null && waiters != [] ==>
                  w' == w.(s := Do(w.s, HandoffWith(o.q, Ptr(mem))), held := w.held[mem := waiters[0]], log := w.log + [Transfer(mem, waiters[0], InFlight)]))
  {
    hide Waiters, Do;
    assert w.log + [] == w.log;
  }

  /** A free that finds a waiter puts the first one on its way with the block. */
  lemma FreeServes(o: Object, w: World, mem: Id)
    requires Sound(o, w)
    ensures mem != Null && Waiters(w.s, o.q) != [] ==>
              var t, s' := Waiters(w.s, o.q)[0], Call(o, w, Free(mem)).s; OnItsWay(s', t) && Of(s', t).swap == Ptr(mem)
  {
    hide Do, Inv, OnItsWay, Waiters;
    if mem != Null && Waiters(w.s, o.q) != [] {
      HandoffOn(w.s, o.q, HandoffWith(o.q, Ptr(mem)));
      HandedOver(w.s, o.q, HandoffWith(o.q, Ptr(mem)));
    }
  }

  lemma AllocFacts(o: Object, w: World, timeout: nat)
    requires Between(o, w) && Allowed(o, w, Alloc(timeout))
    ensures Inv(w.s) && o.q in w.s.queues && timeout <= w.s.cfg.forever && w.s.current in w.s.tcbs
    ensures w.free == [] && timeout > 0 ==> w.s.tcbs[w.s.current].state.Ready?
    ensures Do(w.s, Block(o.q, timeout)) == PendCurrentOn(w.s, o.q, timeout)
  {
  }
}
