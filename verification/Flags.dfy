/**
  The flags object of src/avrtos/flags.c: a notification is offered to the waiters in
  order, and no thread waits for a bit that is set.
*/
module Flags {
  import opened Links
  import opened Sched
  import opened SchedInv
  import opened SchedRuns
  import opened Waits
  import opened WaitQueues
  import opened Handoffs
  import O = RunOrder
  import opened FlagBits
  import opened Errno
  import K = Kernel

  datatype Object = Object(q: Id, initial: Bits)

  /** The object in its system; `served` are the waiters a notification has woken and that have
      not run since, with the bits each of them was given. */
  datatype World = World(s: Sys, flags: Bits, served: map<Id, Bits>)

  datatype Op =
    | Poll(mask: Bits, options: Bits, timeout: nat)
    | Notify(value: Bits, options: Bits)
    | Reset
    | Other(step: Step)

  ghost predicate Allowed(o: Object, w: World, op: Op) {
    match op
    case Poll(mask, options, t) =>
      && IsByte(mask) && IsByte(options)
      && t <= w.s.cfg.forever && (t > 0 ==> Of(w.s, w.s.current).state.Ready?)
    case Notify(value, _) => IsByte(value)
    case Other(step) => Enabled(w.s, step) && !Names(step, o.q)
    case _ => true
  }

  /** The state after a notification, the bits nobody took and the number of threads woken. */
  datatype Round = Round(s: Sys, left: Bits, count: nat)

  /** The loop of k_flags_notify over the waiters ws, with the bits n still to give. */
  ghost function Deliver(s: Sys, q: Id, ws: seq<Id>, n: Bits): Round
    decreases |ws|
  {
    if n == 0 || ws == [] then Round(s, n, 0)
    else
      var data := Of(s, ws[0]).swap;
      if And(n, Mask(data)) == 0 then Deliver(s, q, ws[1..], n)
      else
        var r := Deliver(Do(s, Step.Notify(q, ws[0], Trigger(And(n, Mask(data))))), q, ws[1..], Left(data, n));
        r.(count := r.count + 1)
  }

  predicate Polls(options: Bits) {
    Minus(options, Or(SET_ANY, CONSUME)) == 0
  }

  predicate Notifies(options: Bits) {
    Minus(options, Or(SET, SCHED)) == 0
  }

  /** The effect of a call up to the switch. */
  ghost function Call(o: Object, w: World, op: Op): World {
    match op
    case Poll(mask, options, t) =>
      if !Polls(options) || mask == 0 then w
      else if And(w.flags, mask) == 0 then
        var s := Do(w.s, SetSwap(Request(options, mask)));
        w.(s := if t == 0 then s else Do(s, Block(o.q, t)))
      else if And(options, CONSUME) != 0 then w.(flags := Minus(w.flags, mask))
      else w
    case Notify(value, options) =>
      if !Notifies(options) then w
      else
        var ws, n := Waiters(w.s, o.q), Minus(value, w.flags);
        var r := Deliver(w.s, o.q, ws, n);
        World(if Int8(r.count) > 0 && And(options, SCHED) != 0 then Do(r.s, Yield) else r.s, Or(w.flags, r.left),
              w.served + Shares(w.s, ws, n))
    case Reset => w.(s := Do(w.s, CancelEvery(o.q)), flags := o.initial)
    case Other(step) => w.(s := Do(w.s, step))
  }

  /** A notified waiter that runs again returns from k_flags_poll before anything else can run. */
  ghost function Settle(w: World): World {
    w.(served := w.served - {w.s.current})
  }

  ghost function Apply(o: Object, w: World, op: Op): World {
    Settle(Call(o, w, op))
  }

  /** What a notification of the bits n gives to the waiters ws that get something. */
  ghost function Shares(s: Sys, ws: seq<Id>, n: Bits): map<Id, Bits> {
    map t | t in ws && Share(s, ws, n, t) != 0 :: Share(s, ws, n, t)
  }

  /** The bits that reach a waiter: those it asks for that no consumer before it asks for. */
  ghost function Share(s: Sys, ws: seq<Id>, n: Bits, t: Id): Bits
    requires t in ws
  {
    Offered(s, ws, n, IndexOf(ws, t))
  }

  /** The waiter asked for something, and for nothing that is set. */
  ghost predicate Unserved(data: Swap, flags: Bits) {
    Mask(data) != 0 && And(flags, Mask(data)) == 0
  }

  /** The woken waiter will return success, with the bits. */
  ghost predicate Delivers(s: Sys, t: Id, bits: Bits) {
    OnItsWay(s, t) && Of(s, t).swap == Trigger(bits) && IsByte(bits)
  }

  ghost predicate AllDelivered(s: Sys, served: map<Id, Bits>) {
    forall t :: t in served ==> Delivers(s, t, served[t])
  }

  ghost predicate Between(o: Object, w: World) {
    && Inv(w.s) && o.q in w.s.queues && IsByte(o.initial) && IsByte(w.flags)
    && (forall t :: t in Waiters(w.s, o.q) ==> Unserved(Of(w.s, t).swap, w.flags))
    && AllDelivered(w.s, w.served)
  }

  ghost predicate Sound(o: Object, w: World) {
    Between(o, w) && w.s.current !in w.served
  }

  lemma SettleKeeps(o: Object, w: World)
    requires Between(o, w)
    ensures Sound(o, Settle(w))
  {
    hide Inv, Delivers, Unserved, IsByte;
  }

  /** The served waiters over a step of anybody else. */
  lemma Onward(s: Sys, served: map<Id, Bits>, step: Step)
    requires Inv(s) && Enabled(s, step) && s.current !in served && AllDelivered(s, served)
    ensures AllDelivered(Do(s, step), served)
  {
    hide Inv, Enabled, Do, OnItsWay, Trigger, IsByte;
    forall t | t in served ensures Delivers(Do(s, step), t, served[t]) {
      assert Delivers(s, t, served[t]);
      StaysOnItsWay(s, step, t);
    }
  }

  // ----- the notification loop -----

  /** The bits that consuming waiters among ws ask for. */
  ghost function Claimed(s: Sys, ws: seq<Id>): Bits {
    if ws == [] then 0 else Or(Claim(Of(s, ws[0]).swap), Claimed(s, ws[1..]))
  }

  /** The queue is the waiters passed over, then the waiters still to be asked. */
  ghost predicate Asking(s: Sys, q: Id, passed: seq<Id>, ws: seq<Id>) {
    Inv(s) && q in s.queues && Waiters(s, q) == passed + ws
  }

  /** Waking the next waiter leaves the others where and as they are. */
  lemma WakeNext(s: Sys, q: Id, passed: seq<Id>, ws: seq<Id>, data: Swap)
    requires Asking(s, q, passed, ws) && ws != []
    ensures var s' := Do(s, Step.Notify(q, ws[0], data));
            && Asking(s', q, passed, ws[1..])
            && Of(s', ws[0]).swap == data && OnItsWay(s', ws[0]) && s'.current == s.current
            && forall t :: t in passed + ws[1..] ==> t != ws[0] && Of(s', t) == Of(s, t)
  {
    hide RingInv, TimeInv, QueueInv, Drop, Joined;
    var t, w := ws[0], passed + ws;
    assert w[|passed|] == t;
    NextDropped(s, q, passed, ws);
    WaiterPends(s, q, t);
    StepKeeps(s, Step.Notify(q, t, data));
    WakeWaiterWakes(s, q, t, data);
    forall x | x in passed + ws[1..] ensures x != t && Of(Do(s, Step.Notify(q, t, data)), x) == Of(s, x) {
      WaiterPends(s, q, x);
      WokenOthers(s, t, s.tcbs[t].(clean := false, swap := data), x);
    }
  }

  lemma NextDropped(s: Sys, q: Id, passed: seq<Id>, ws: seq<Id>)
    requires Asking(s, q, passed, ws) && ws != []
    ensures Drop(passed + ws, ws[0]) == passed + ws[1..] && ws[0] !in passed + ws[1..]
  {
    SoundCore(s, q);
    var w := passed + ws;
    assert w[|passed|] == ws[0] && Distinct(w);
    DropAt(w, |passed|);
    assert Without(w, |passed|) == passed + ws[1..];
    forall i | 0 <= i < |passed + ws[1..]| ensures (passed + ws[1..])[i] != ws[0] {
      assert (passed + ws[1..])[i] == w[if i < |passed| then i else i + 1];
    }
  }

  lemma DropAt(w: seq<Id>, k: nat)
    requires Distinct(w) && k < |w|
    ensures Drop(w, w[k]) == Without(w, k)
  {
    assert IndexOf(w, w[k]) == k;
  }

  lemma {:induction false} ClaimedSame(s: Sys, s': Sys, ws: seq<Id>)
    requires forall t :: t in ws ==> Of(s', t) == Of(s, t)
    ensures Claimed(s', ws) == Claimed(s, ws)
  {
    if ws != [] {
      assert ws[0] in ws;
      ClaimedSame(s, s', ws[1..]);
    }
  }

  /** What a bit offered to ws[0] and refused, or taken, leaves for the others. */
  lemma ClaimStep(s: Sys, ws: seq<Id>, n: Bits)
    requires ws != []
    ensures Minus(Left(Of(s, ws[0]).swap, n), Claimed(s, ws[1..])) == Minus(n, Claimed(s, ws))
    ensures And(n, Mask(Of(s, ws[0]).swap)) == 0 ==> Left(Of(s, ws[0]).swap, n) == n
  {
    hide Claim, Mask, Left, Minus, And, Or;
    var data := Of(s, ws[0]).swap;
    LeftUnclaimed(data, n);
    MinusTwice(n, Claim(data), Claimed(s, ws[1..]));
  }

  /** The loop gives every bit to whoever claims it, and keeps exactly the unclaimed ones. */
  lemma {:induction false} LeftoverExact(s: Sys, q: Id, passed: seq<Id>, ws: seq<Id>, n: Bits)
    requires Asking(s, q, passed, ws)
    ensures Deliver(s, q, ws, n).left == Minus(n, Claimed(s, ws))
    decreases |ws|
  {
    hide Asking, Do, Mask, Claim, Left, Of, Minus, And, Or, Trigger;
    if n == 0 {
      FromNone(Claimed(s, ws));
    } else if ws == [] {
      MinusNone(n);
    } else {
      var data := Of(s, ws[0]).swap;
      ClaimStep(s, ws, n);
      if And(n, Mask(data)) == 0 {
        PassNext(s, q, passed, ws);
        LeftoverExact(s, q, passed + [ws[0]], ws[1..], n);
      } else {
        var got := Trigger(And(n, Mask(data)));
        WakeNext(s, q, passed, ws, got);
        var s' := Do(s, Step.Notify(q, ws[0], got));
        ClaimedSame(s, s', ws[1..]);
        LeftoverExact(s', q, passed, ws[1..], Left(data, n));
      }
    }
  }

  lemma PassNext(s: Sys, q: Id, passed: seq<Id>, ws: seq<Id>)
    requires Asking(s, q, passed, ws) && ws != []
    ensures Asking(s, q, passed + [ws[0]], ws[1..]) && ws[0] !in ws[1..] && ws[0] in s.tcbs
  {
    hide Inv;
    assert passed + [ws[0]] + ws[1..] == passed + ws;
    NextDropped(s, q, passed, ws);
    assert (passed + ws)[|passed|] == ws[0];
    WaiterThere(s, q, ws[0]);
  }

  lemma WaiterThere(s: Sys, q: Id, t: Id)
    requires Inv(s) && t in Waiters(s, q)
    ensures t in s.tcbs
  {
    WaiterPends(s, q, t);
  }

  /** The waiters that stay are among those that waited, unchanged. */
  lemma {:induction false} DeliverKeeps(s: Sys, q: Id, passed: seq<Id>, ws: seq<Id>, n: Bits)
    requires Asking(s, q, passed, ws)
    ensures var r := Deliver(s, q, ws, n);
            && Inv(r.s) && q in r.s.queues && r.s.tcbs.Keys == s.tcbs.Keys && r.s.current == s.current
            && (forall t :: t in Waiters(r.s, q) ==> t in passed + ws && Of(r.s, t) == Of(s, t))
            && (forall t :: t in s.tcbs && t !in ws ==> Of(r.s, t) == Of(s, t))
            && (forall t :: t in passed ==> t in Waiters(r.s, q))
            && |Waiters(r.s, q)| + r.count == |passed| + |ws|
    decreases |ws|
  {
    hide Do, Mask, Claim, Left, Inv, Woke, Minus, And, Or, Trigger;
    if n != 0 && ws != [] {
      var data := Of(s, ws[0]).swap;
      PassNext(s, q, passed, ws);
      if And(n, Mask(data)) == 0 {
        DeliverKeeps(s, q, passed + [ws[0]], ws[1..], n);
      } else {
        var got := Trigger(And(n, Mask(data)));
        WakeNext(s, q, passed, ws, got);
        NotifyOthers(s, q, ws[0], got);
        DeliverKeeps(Do(s, Step.Notify(q, ws[0], got)), q, passed, ws[1..], Left(data, n));
      }
    }
  }

  lemma NotifyOthers(s: Sys, q: Id, x: Id, data: Swap)
    requires Inv(s) && x in Waiters(s, q)
    ensures var s' := Do(s, Step.Notify(q, x, data));
            s'.tcbs.Keys == s.tcbs.Keys && forall t :: t in s.tcbs && t != x ==> Of(s', t) == Of(s, t)
  {
    hide RingInv, TimeInv, QueueInv, Drop, Joined;
    WakeWaiterWakes(s, q, x, data);
  }

  /** The bits that reach the i-th waiter: those notified and not claimed by a consumer before it. */
  ghost function Offered(s: Sys, ws: seq<Id>, n: Bits, i: nat): Bits
    requires i < |ws|
  {
    And(Minus(n, Claimed(s, ws[..i])), Mask(Of(s, ws[i]).swap))
  }

  /** The i-th waiter leaves with exactly the bits that reach it, to return success, or stays as it is. */
  ghost predicate Served(s: Sys, q: Id, r: Round, t: Id, bits: Bits) {
    if bits == 0 then t in Waiters(r.s, q) && Of(r.s, t) == Of(s, t)
    else t !in Waiters(r.s, q) && Of(r.s, t).swap == Trigger(bits) && OnItsWay(r.s, t)
  }

  lemma FirstServed(s: Sys, q: Id, passed: seq<Id>, ws: seq<Id>, n: Bits)
    requires Asking(s, q, passed, ws) && ws != [] && n != 0
    ensures Served(s, q, Deliver(s, q, ws, n), ws[0], Offered(s, ws, n, 0))
  {
    hide Asking, Do, Mask, Claim, Left, Inv, Woke, Trigger, Minus, And, Or;
    var data := Of(s, ws[0]).swap;
    PassNext(s, q, passed, ws);
    MinusNone(n);
    assert Offered(s, ws, n, 0) == And(n, Mask(data));
    if And(n, Mask(data)) == 0 {
      DeliverKeeps(s, q, passed + [ws[0]], ws[1..], n);
    } else {
      var got := Trigger(And(n, Mask(data)));
      WakeNext(s, q, passed, ws, got);
      NotifyFirst(s, q, passed, ws, got);
      DeliverKeeps(Do(s, Step.Notify(q, ws[0], got)), q, passed, ws[1..], Left(data, n));
    }
  }

  lemma {:induction false} WaiterServed(s: Sys, q: Id, passed: seq<Id>, ws: seq<Id>, n: Bits, i: nat)
    requires Asking(s, q, passed, ws) && i < |ws|
    ensures Served(s, q, Deliver(s, q, ws, n), ws[i], Offered(s, ws, n, i))
    decreases |ws|
  {
    hide Asking, Do, Mask, Claim, Left, Inv, Woke, Trigger, Minus, And, Or, Offered;
    var data := Of(s, ws[0]).swap;
    if n == 0 {
      Nothing0(s, q, passed, ws, i);
    } else if i == 0 {
      FirstServed(s, q, passed, ws, n);
    } else if And(n, Mask(data)) == 0 {
      PassNext(s, q, passed, ws);
      OfferedStep(s, s, ws, n, i);
      LeftUnclaimed(data, n);
      WaiterServed(s, q, passed + [ws[0]], ws[1..], n, i - 1);
    } else {
      var got := Trigger(And(n, Mask(data)));
      var s' := Do(s, Step.Notify(q, ws[0], got));
      WakeNext(s, q, passed, ws, got);
      OfferedStep(s, s', ws, n, i);
      assert ws[i] == ws[1..][i - 1] && ws[i] in passed + ws[1..];
      WaiterServed(s', q, passed, ws[1..], Left(data, n), i - 1);
    }
  }

  lemma NotifyFirst(s: Sys, q: Id, passed: seq<Id>, ws: seq<Id>, data: Swap)
    requires Asking(s, q, passed, ws) && ws != []
    ensures ws[0] in Do(s, Step.Notify(q, ws[0], data)).tcbs && ws[0] !in passed + ws[1..]
  {
    NextDropped(s, q, passed, ws);
    assert (passed + ws)[|passed|] == ws[0];
    NotifyOthers(s, q, ws[0], data);
    WaiterThere(s, q, ws[0]);
  }

  lemma Nothing0(s: Sys, q: Id, passed: seq<Id>, ws: seq<Id>, i: nat)
    requires Asking(s, q, passed, ws) && i < |ws|
    ensures Offered(s, ws, 0, i) == 0 && ws[i] in Waiters(s, q)
  {
    hide Inv, Mask, Claimed, And, Minus;
    FromNone(Claimed(s, ws[..i]));
    FromNone(Mask(Of(s, ws[i]).swap));
    assert (passed + ws)[|passed| + i] == ws[i];
  }

  lemma OfferedStep(s: Sys, s': Sys, ws: seq<Id>, n: Bits, i: nat)
    requires 0 < i < |ws| && forall t :: t in ws[1..] ==> Of(s', t) == Of(s, t)
    ensures Offered(s', ws[1..], Left(Of(s, ws[0]).swap, n), i - 1) == Offered(s, ws, n, i)
  {
    hide Mask, Claim, Left, Minus, And, Or;
    assert ws[..i][0] == ws[0] && ws[..i][1..] == ws[1..][..i - 1];
    ClaimStep(s, ws[..i], n);
    ClaimedSame(s, s', ws[1..][..i - 1]);
    assert ws[1..][i - 1] == ws[i] && ws[i] in ws[1..];
  }

  // ----- one call -----

  lemma {:induction false} ClaimedSplit(s: Sys, ws: seq<Id>, i: nat)
    requires i <= |ws|
    ensures Claimed(s, ws) == Or(Claimed(s, ws[..i]), Claimed(s, ws[i..]))
  {
    hide Claim;
    if i == 0 {
      assert ws[..0] == [] && ws[0..] == ws;
    } else {
      hide Or;
      ClaimedSplit(s, ws[1..], i - 1);
      assert ws[..i][0] == ws[0] && ws[..i][1..] == ws[1..][..i - 1] && ws[1..][i - 1..] == ws[i..];
      OrAbsorbs(Claim(Of(s, ws[0]).swap), Claimed(s, ws[1..][..i - 1]), Claimed(s, ws[i..]));
    }
  }

  /** A waiter that stays misses everything that is left over. */
  lemma StayersMiss(s: Sys, q: Id, n: Bits, t: Id)
    requires Inv(s) && q in s.queues && t in Waiters(Deliver(s, q, Waiters(s, q), n).s, q)
    ensures And(Deliver(s, q, Waiters(s, q), n).left, Mask(Of(s, t).swap)) == 0
  {
    hide Inv, Deliver, Claimed, Mask, And, Minus, Or, Trigger;
    var ws := Waiters(s, q);
    assert [] + ws == ws;
    DeliverKeeps(s, q, [], ws, n);
    LeftoverExact(s, q, [], ws, n);
    var i :| 0 <= i < |ws| && ws[i] == t;
    WaiterServed(s, q, [], ws, n, i);
    ClaimedSplit(s, ws, i);
    MinusTwice(n, Claimed(s, ws[..i]), Claimed(s, ws[i..]));
    MinusMisses(Minus(n, Claimed(s, ws[..i])), Claimed(s, ws[i..]), Mask(Of(s, t).swap));
  }

  lemma NotifyKeeps(o: Object, w: World, value: Bits, options: Bits)
    requires Sound(o, w) && IsByte(value) && Notifies(options)
    ensures Between(o, Call(o, w, Op.Notify(value, options)))
  {
    hide Inv, Do, Deliver, Claimed, Mask, And, Minus, Or, Trigger, Int8, IsByte;
    var ws, n := Waiters(w.s, o.q), Minus(value, w.flags);
    var r := Deliver(w.s, o.q, ws, n);
    assert [] + ws == ws;
    DeliverKeeps(w.s, o.q, [], ws, n);
    LeftoverExact(w.s, o.q, [], ws, n);
    ByteKept(value, w.flags);
    ByteKept(n, Claimed(w.s, ws));
    ByteKept(w.flags, r.left);
    forall t | t in Waiters(r.s, o.q) ensures Unserved(Of(r.s, t).swap, Or(w.flags, r.left)) {
      assert t in ws;
      StayersMiss(w.s, o.q, n, t);
      OrMisses(w.flags, r.left, Mask(Of(w.s, t).swap));
    }
    AllServed(w.s, o.q, w.served, ws, n);
    var served := w.served + Shares(w.s, ws, n);
    YieldEnabled(r.s, o.q);
    var k := Elsewhere(r.s, Yield, o.q);
    RunningServed(o, w, n);
    Onward(r.s, served, Yield);
  }

  /** The running thread is not among the waiters that a notification serves. */
  lemma RunningServed(o: Object, w: World, n: Bits)
    requires Sound(o, w)
    ensures w.s.current !in w.served + Shares(w.s, Waiters(w.s, o.q), n)
  {
    hide Inv, AllDelivered, Unserved, IsByte, Share;
    RunningNotWaiting(w.s, o.q);
  }

  /** After a notification, those served before and those served by it all have their bits. */
  lemma AllServed(s: Sys, q: Id, served: map<Id, Bits>, ws: seq<Id>, n: Bits)
    requires Inv(s) && q in s.queues && ws == Waiters(s, q) && AllDelivered(s, served) && IsByte(n)
    ensures AllDelivered(Deliver(s, q, ws, n).s, served + Shares(s, ws, n))
  {
    hide Inv, Deliver, IsByte, Waiters, Delivers, Share;
    var s', all := Deliver(s, q, ws, n).s, served + Shares(s, ws, n);
    forall t | t in all ensures Delivers(s', t, all[t]) {
      if t in Shares(s, ws, n) {
        NewlyServed(s, q, ws, n, t);
      } else {
        assert Delivers(s, t, served[t]);
        StillServed(s, q, ws, n, t, served[t]);
      }
    }
  }

  lemma NewlyServed(s: Sys, q: Id, ws: seq<Id>, n: Bits, t: Id)
    requires Inv(s) && q in s.queues && ws == Waiters(s, q) && IsByte(n) && t in ws && Share(s, ws, n, t) != 0
    ensures Delivers(Deliver(s, q, ws, n).s, t, Share(s, ws, n, t))
  {
    hide Inv, Deliver, Offered, IsByte, Trigger, Waiters, OnItsWay;
    assert [] + ws == ws;
    WaiterServed(s, q, [], ws, n, IndexOf(ws, t));
    OfferedByte(s, ws, n, IndexOf(ws, t));
  }

  lemma StillServed(s: Sys, q: Id, ws: seq<Id>, n: Bits, t: Id, bits: Bits)
    requires Inv(s) && q in s.queues && ws == Waiters(s, q) && Delivers(s, t, bits)
    ensures Delivers(Deliver(s, q, ws, n).s, t, bits)
  {
    hide Inv, Deliver, IsByte, Trigger, Waiters, ReturnCode;
    assert [] + ws == ws;
    DeliverKeeps(s, q, [], ws, n);
    NotWaiting(s, q, t);
  }

  lemma NotWaiting(s: Sys, q: Id, t: Id)
    requires Inv(s) && OnItsWay(s, t)
    ensures t !in Waiters(s, q)
  {
    NoTimeoutLeft(s, t);
  }

  lemma OfferedByte(s: Sys, ws: seq<Id>, n: Bits, i: nat)
    requires i < |ws| && IsByte(n)
    ensures IsByte(Offered(s, ws, n, i))
  {
    hide IsByte, And, Minus, Mask, Claimed;
    ByteKept(n, Claimed(s, ws[..i]));
    ByteKept(Minus(n, Claimed(s, ws[..i])), Mask(Of(s, ws[i]).swap));
  }

  lemma YieldEnabled(s: Sys, q: Id)
    ensures Enabled(s, Yield) && !Names(Yield, q)
  {
  }

  lemma PollKeeps(o: Object, w: World, mask: Bits, options: Bits, timeout: nat)
    requires Sound(o, w) && Allowed(o, w, Poll(mask, options, timeout))
    ensures Between(o, Call(o, w, Poll(mask, options, timeout)))
  {
    hide Inv, Do, Mask, And, Minus, Or, Request, IsByte, Polls, Options;
    if Polls(options) && mask != 0 {
      if And(w.flags, mask) == 0 {
        var data := Request(options, mask);
        var s := Do(w.s, SetSwap(data));
        RequestKept(options, mask);
        SwapOn(w.s, data);
        RunningNotWaiting(w.s, o.q);
        SetSwapEnabled(w.s, data);
        Onward(w.s, w.served, SetSwap(data));
        if timeout > 0 {
          BlockEnabled(s, o.q, timeout);
          BlockOn(s, o.q, timeout);
          Onward(s, w.served, Block(o.q, timeout));
        }
      } else {
        ByteKept(w.flags, mask);
        forall t | t in Waiters(w.s, o.q) ensures Unserved(Of(w.s, t).swap, Minus(w.flags, mask)) {
          MinusMisses(w.flags, mask, Mask(Of(w.s, t).swap));
        }
      }
    }
  }

  lemma CallKeepsMasks(o: Object, w: World, op: Op)
    requires Sound(o, w) && Allowed(o, w, op)
    ensures Between(o, Call(o, w, op))
  {
    hide Inv, Do, Enabled, Names, Unserved, Deliver, IsByte, Notifies, AllDelivered;
    match op
    case Poll(mask, options, t) => PollKeeps(o, w, mask, options, t);
    case Notify(value, options) => if Notifies(options) { NotifyKeeps(o, w, value, options); }
    case Reset =>
      CancelOn(w.s, o.q);
      HandoffEnabled(w.s, o.q, Nothing);
      Onward(w.s, w.served, CancelEvery(o.q));
    case Other(step) =>
      var k := Elsewhere(w.s, step, o.q);
      Onward(w.s, w.served, step);
  }

  lemma StepKeepsMasks(o: Object, w: World, op: Op)
    requires Sound(o, w) && Allowed(o, w, op)
    ensures Sound(o, Apply(o, w, op))
  {
    hide Call, Between, Allowed, Settle;
    CallKeepsMasks(o, w, op);
    SettleKeeps(o, Call(o, w, op));
  }

  // ----- runs -----

  ghost predicate Run(o: Object, ws: seq<World>, ops: seq<Op>) {
    && |ws| == |ops| + 1
    && Inv(ws[0].s) && o.q in ws[0].s.queues && Waiters(ws[0].s, o.q) == []
    && IsByte(o.initial) && ws[0].flags == o.initial && ws[0].served == map[]
    && forall i :: 0 <= i < |ops| ==> Allowed(o, ws[i], ops[i]) && ws[i + 1] == Apply(o, ws[i], ops[i])
  }

  /** In every state of every run no thread waits for a bit that is set. */
  lemma {:induction false} NoMissedFlag(o: Object, ws: seq<World>, ops: seq<Op>, i: nat)
    requires Run(o, ws, ops) && i < |ws|
    ensures Sound(o, ws[i])
  {
    hide Apply, Allowed, IsByte, Unserved;
    if i > 0 {
      NoMissedFlag(o, ws, ops, i - 1);
      StepKeepsMasks(o, ws[i - 1], ops[i - 1]);
    }
  }

  /** Over every run: when a waiter that was notified runs again, its poll returns 0 with exactly
      the bits that reached it. */
  lemma PollReturns(o: Object, ws: seq<World>, ops: seq<Op>, i: nat)
    requires Run(o, ws, ops) && i < |ops|
    ensures var w := Call(o, ws[i], ops[i]); var t := w.s.current;
            t in w.served ==> && ReturnCode(Of(w.s, t)) == 0 && Mask(Of(w.s, t).swap) == w.served[t]
                              && ws[i + 1].served == w.served - {t}
  {
    hide Call, Allowed, Inv, Mask, Unserved, IsByte;
    NoMissedFlag(o, ws, ops, i);
    CallKeepsMasks(o, ws[i], ops[i]);
    var w := Call(o, ws[i], ops[i]);
    var t := w.s.current;
    if t in w.served {
      assert Delivers(w.s, t, w.served[t]);
      RequestKept(0, w.served[t]);
      NoBits();
    }
  }

  lemma NoBits()
    ensures IsByte(0)
  {
  }

  /** A notification sets exactly the new bits that no consuming waiter asked for; every
      waiter gets exactly the bits it asked for that no consumer before it took. */
  lemma NotifyExact(o: Object, w: World, value: Bits, i: nat)
    requires Sound(o, w) && i < |Waiters(w.s, o.q)|
    ensures var ws, n := Waiters(w.s, o.q), Minus(value, w.flags);
            var r := Deliver(w.s, o.q, ws, n);
            && r.left == Minus(n, Claimed(w.s, ws))
            && r.count == |ws| - |Waiters(r.s, o.q)|
            && Served(w.s, o.q, r, ws[i], Offered(w.s, ws, n, i))
  {
    hide Inv, Deliver, Claimed, Mask, And, Minus, Or, Trigger, Offered, Served;
    var ws, n := Waiters(w.s, o.q), Minus(value, w.flags);
    assert [] + ws == ws;
    LeftoverExact(w.s, o.q, [], ws, n);
    DeliverKeeps(w.s, o.q, [], ws, n);
    WaiterServed(w.s, o.q, [], ws, n, i);
  }

  /** The flags that are set after a notification: those before, and the new ones that no consuming
      waiter asked for. */
  lemma NotifyStores(o: Object, w: World, value: Bits, options: Bits)
    requires Sound(o, w) && Notifies(options)
    ensures Call(o, w, Op.Notify(value, options)).flags ==
            Or(w.flags, Minus(Minus(value, w.flags), Claimed(w.s, Waiters(w.s, o.q))))
  {
    hide Inv, Do, Deliver, Claimed, And, Minus, Or, Shares, Notifies, Int8;
    var ws := Waiters(w.s, o.q);
    assert [] + ws == ws;
    LeftoverExact(w.s, o.q, [], ws, Minus(value, w.flags));
  }

  /** t is the last of the waiters ws that has left the queue. */
  ghost predicate LastServed(s: Sys, q: Id, ws: seq<Id>, t: Id) {
    exists k :: 0 <= k < |ws| && ws[k] == t && t !in Waiters(s, q) && forall m :: k < m < |ws| ==> ws[m] in Waiters(s, q)
  }

  /** The thread notified last stands right behind the running one. */
  lemma {:induction false} LastNotified(s: Sys, q: Id, passed: seq<Id>, ws: seq<Id>, n: Bits)
    requires Asking(s, q, passed, ws) && s.ring != []
    ensures var r := Deliver(s, q, ws, n);
            && r.s.ring != [] && r.s.ring[0] == s.ring[0]
            && (r.count == 0 ==> r.s == s)
            && (r.count > 0 ==> |r.s.ring| > 1 && LastServed(r.s, q, ws, r.s.ring[1]))
    decreases |ws|
  {
    hide Do, Mask, Left, Inv, Minus, And, Or, Trigger, Consumes, LastServed;
    if n != 0 && ws != [] {
      var data, r := Of(s, ws[0]).swap, Deliver(s, q, ws, n);
      PassNext(s, q, passed, ws);
      if And(n, Mask(data)) == 0 {
        LastNotified(s, q, passed + [ws[0]], ws[1..], n);
        if r.count > 0 {
          ServedBehind(r.s, q, ws, r.s.ring[1]);
        }
      } else {
        var got := Trigger(And(n, Mask(data)));
        var step := Step.Notify(q, ws[0], got);
        WakeNext(s, q, passed, ws, got);
        NotifiedFront(s, q, passed, ws, got);
        LastNotified(Do(s, step), q, passed, ws[1..], Left(data, n));
        if r.count > 1 {
          ServedBehind(r.s, q, ws, r.s.ring[1]);
        } else {
          ServedFirst(r.s, q, passed, ws);
        }
      }
    }
  }

  lemma ServedBehind(s: Sys, q: Id, ws: seq<Id>, t: Id)
    requires ws != [] && LastServed(s, q, ws[1..], t)
    ensures LastServed(s, q, ws, t)
  {
    hide Waiters;
    var k :| 0 <= k < |ws[1..]| && ws[1..][k] == t && t !in Waiters(s, q) && forall m :: k < m < |ws[1..]| ==> ws[1..][m] in Waiters(s, q);
    assert ws[k + 1] == t;
    forall m | k + 1 < m < |ws| ensures ws[m] in Waiters(s, q) {
      assert ws[m] == ws[1..][m - 1];
    }
  }

  lemma ServedFirst(s: Sys, q: Id, passed: seq<Id>, ws: seq<Id>)
    requires ws != [] && Waiters(s, q) == passed + ws[1..] && ws[0] !in passed + ws[1..]
    ensures LastServed(s, q, ws, ws[0])
  {
    hide Waiters;
    forall m | 0 < m < |ws| ensures ws[m] in Waiters(s, q) {
      assert (passed + ws[1..])[|passed| + m - 1] == ws[m];
    }
  }

  lemma NotifiedFront(s: Sys, q: Id, passed: seq<Id>, ws: seq<Id>, data: Swap)
    requires Asking(s, q, passed, ws) && ws != [] && s.ring != []
    ensures var s' := Do(s, Step.Notify(q, ws[0], data));
            |s'.ring| > 1 && s'.ring[0] == s.ring[0] && s'.ring[1] == ws[0] && ws[0] !in passed + ws[1..]
  {
    hide Do, Inv;
    assert (passed + ws)[|passed|] == ws[0];
    NextDropped(s, q, passed, ws);
    O.WokenInFront(s, Step.Notify(q, ws[0], data));
    O.WiderOne(s.ring, ws[0]);
  }

  /** With K_FLAGS_SCHED, a notification that served between 1 and 127 waiters switches to the one it
      served last; without it the caller runs on. */
  lemma NotifySwitches(o: Object, w: World, value: Bits, options: Bits)
    requires Sound(o, w) && Notifies(options) && Of(w.s, w.s.current).state.Ready?
    ensures var n, ws, w' := Minus(value, w.flags), Waiters(w.s, o.q), Call(o, w, Op.Notify(value, options));
            var count := Deliver(w.s, o.q, ws, n).count;
            && (And(options, SCHED) == 0 || count == 0 ==> w'.s.current == w.s.current)
            && (And(options, SCHED) != 0 && 1 <= count <= 127 ==> LastServed(w'.s, o.q, ws, w'.s.current))
  {
    hide Inv, Do, Deliver, And, Minus, Or, Shares, Notifies, IsByte, AllDelivered, Unserved, Waiters;
    SwitchesTo(w.s, o.q, Minus(value, w.flags));
  }

  lemma SwitchesTo(s: Sys, q: Id, n: Bits)
    requires Inv(s) && q in s.queues && Of(s, s.current).state.Ready?
    ensures var r := Deliver(s, q, Waiters(s, q), n); var s' := Do(r.s, Yield);
            && r.s.current == s.current
            && (r.count > 0 ==> LastServed(s', q, Waiters(s, q), s'.current))
  {
    hide Inv, Do, Deliver;
    var ws := Waiters(s, q);
    var r := Deliver(s, q, ws, n);
    assert [] + ws == ws;
    FirstRuns(s);
    LastNotified(s, q, [], ws, n);
    DeliverKeeps(s, q, [], ws, n);
    RunningNotWaiting(s, q);
    StillReady(s, r.s);
    YieldQueues(r.s);
    YieldTurns(r.s);
  }

  lemma YieldQueues(s: Sys)
    ensures Do(s, Yield).queues == s.queues
  {
  }

  lemma StillReady(s: Sys, s': Sys)
    requires Inv(s) && Inv(s') && s'.current == s.current && s'.ring != [] && s'.ring[0] == s.current
    ensures Of(s', s'.current).state.Ready?
  {
    O.InRing(s');
  }

  // ----- what consumers take -----

  /** What k_flags_poll answers up to the switch. */
  ghost function PollAnswer(w: World, mask: Bits, options: Bits, timeout: nat): Outcome {
    if !Polls(options) then Done(ENOTSUP)
    else if mask == 0 || And(w.flags, mask) != 0 then Done(0)
    else if timeout == 0 then Done(EAGAIN) else Blocked
  }

  /** A poll that answers 0 at once clears the bits of its mask if it consumes, and no others; any
      other poll leaves the flags alone. */
  lemma PollExact(o: Object, w: World, mask: Bits, options: Bits, timeout: nat)
    ensures var flags', answer := Call(o, w, Poll(mask, options, timeout)).flags, PollAnswer(w, mask, options, timeout);
            if answer == Done(0) && And(options, CONSUME) != 0
            then And(flags', mask) == 0 && Minus(flags', mask) == Minus(w.flags, mask)
            else flags' == w.flags
  {
    hide And, Minus, Polls, Request, Do;
    ClearedExact(w.flags, mask);
    MinusNone(w.flags);
    AndNone(w.flags);
  }

  /** A poll that waits queues the caller up, last, with its mask and options. */
  lemma PollQueues(o: Object, w: World, mask: Bits, options: Bits, timeout: nat)
    requires Sound(o, w) && Allowed(o, w, Poll(mask, options, timeout)) && PollAnswer(w, mask, options, timeout) == Blocked
    ensures var s' := Call(o, w, Poll(mask, options, timeout)).s;
            && Waiters(s', o.q) == Waiters(w.s, o.q) + [w.s.current]
            && Mask(Of(s', w.s.current).swap) == mask && Options(Of(s', w.s.current).swap) == options
  {
    hide Inv, Do, And, Minus, Polls, IsByte, Request, Mask, Options, AllDelivered, Unserved;
    var data := Request(options, mask);
    RequestKept(options, mask);
    SwapOn(w.s, data);
    BlockEnabled(Do(w.s, SetSwap(data)), o.q, timeout);
    BlockOn(Do(w.s, SetSwap(data)), o.q, timeout);
  }

  /** The bits a step takes out of circulation: those a consuming poll returns at once, and those
      notified that a consuming waiter asks for. */
  ghost function Consumed(o: Object, w: World, op: Op): Bits {
    match op
    case Poll(mask, options, t) =>
      if PollAnswer(w, mask, options, t) == Done(0) && And(options, CONSUME) != 0 then And(w.flags, mask) else 0
    case Notify(value, options) =>
      if Notifies(options) then And(Minus(value, w.flags), Claimed(w.s, Waiters(w.s, o.q))) else 0
    case _ => 0
  }

  lemma ConsumedGone(o: Object, w: World, op: Op)
    requires Sound(o, w)
    ensures And(Call(o, w, op).flags, Consumed(o, w, op)) == 0
  {
    hide Inv, Do, Deliver, Claimed, And, Minus, Or, Shares, Notifies, Int8, Polls, Request, AllDelivered, Unserved;
    var flags' := Call(o, w, op).flags;
    AndNone(flags');
    match op
    case Poll(mask, options, t) => ClearedExact(w.flags, mask); AndNone(w.flags); MinusNone(w.flags);
    case Notify(value, options) =>
      if Notifies(options) {
        NotifyStores(o, w, value, options);
        ClaimedGone(value, w.flags, Claimed(w.s, Waiters(w.s, o.q)));
      }
    case _ =>
  }

  /** The step may set some of the bits b: a notification of one, or a reset to a value with one. */
  ghost predicate Raises(o: Object, op: Op, b: Bits) {
    || (op.Notify? && And(op.value, b) != 0)
    || (op.Reset? && And(o.initial, b) != 0)
  }

  lemma StaysClear(o: Object, w: World, op: Op, b: Bits)
    requires Sound(o, w) && And(w.flags, b) == 0 && !Raises(o, op, b)
    ensures And(Apply(o, w, op).flags, b) == 0
  {
    hide Inv, Do, Deliver, Claimed, And, Minus, Or, Shares, Notifies, Int8, Polls, Request, AllDelivered, Unserved;
    match op
    case Poll(mask, options, t) => MinusMisses(w.flags, mask, b);
    case Notify(value, options) =>
      if Notifies(options) {
        NotifyStores(o, w, value, options);
        var n := Minus(value, w.flags);
        MinusMisses(value, w.flags, b);
        MinusMisses(n, Claimed(w.s, Waiters(w.s, o.q)), b);
        OrMisses(w.flags, Minus(n, Claimed(w.s, Waiters(w.s, o.q))), b);
      }
    case _ =>
  }

  /**
    Over every run: bits that were consumed at step i, at once by a poll or by a waiter that was
    notified, are not set again, and no poll returns one of them at once, before a notification or
    a reset raises one of them.
  */
  lemma ConsumedUntilRaised(o: Object, ws: seq<World>, ops: seq<Op>, i: nat, j: nat, b: Bits)
    requires Run(o, ws, ops) && i < j < |ops| && Minus(b, Consumed(o, ws[i], ops[i])) == 0
    requires forall k :: i < k < j ==> !Raises(o, ops[k], b)
    ensures And(ws[j].flags, b) == 0
    ensures ops[j].Poll? ==> And(And(ws[j].flags, ops[j].mask), b) == 0
  {
    hide Allowed, Inv, And, Minus, Or, Call, IsByte, Unserved, AllDelivered, Consumed, Raises;
    NoMissedFlag(o, ws, ops, i);
    ConsumedGone(o, ws[i], ops[i]);
    PartMisses(Call(o, ws[i], ops[i]).flags, Consumed(o, ws[i], ops[i]), b);
    assert ws[i + 1] == Apply(o, ws[i], ops[i]);
    ClearUntil(o, ws, ops, i + 1, j, b);
    if ops[j].Poll? {
      AndSwaps(ws[j].flags, ops[j].mask, b);
      FromNone(ops[j].mask);
    }
  }

  lemma {:induction false} ClearUntil(o: Object, ws: seq<World>, ops: seq<Op>, i: nat, j: nat, b: Bits)
    requires Run(o, ws, ops) && i <= j < |ws| && And(ws[i].flags, b) == 0
    requires forall k :: i <= k < j ==> !Raises(o, ops[k], b)
    ensures And(ws[j].flags, b) == 0
    decreases j
  {
    hide Allowed, Inv, And, Minus, Or, Apply, IsByte, Unserved, AllDelivered, Raises;
    if i < j {
      ClearUntil(o, ws, ops, i, j - 1, b);
      NoMissedFlag(o, ws, ops, j - 1);
      StaysClear(o, ws[j - 1], ops[j - 1], b);
    }
  }

  /** A bit goes to at most the first consumer in the queue that asked for it: nobody
      behind a consumer is offered any bit of that consumer's mask. */
  lemma ConsumedOnce(s: Sys, ws: seq<Id>, n: Bits, i: nat, j: nat)
    requires i < j < |ws| && Consumes(Of(s, ws[i]).swap)
    ensures And(Offered(s, ws, n, j), Mask(Of(s, ws[i]).swap)) == 0
  {
    hide Mask, And, Minus, Or, Consumes;
    var pre := ws[..j];
    ClaimedSplit(s, pre, i);
    assert pre[i..][0] == ws[i];
    MinusGone(n, Claimed(s, pre[..i]), Mask(Of(s, ws[i]).swap), Claimed(s, pre[i..][1..]), Mask(Of(s, ws[j]).swap));
  }

  class FlagSet {
    const k: K.Kernel
    const q: Id
    const initial: Bits
    var flags: Bits
    ghost var served: map<Id, Bits>

    ghost function Conf(): Object {
      Object(q, initial)
    }

    ghost function W(): World
      reads this, k
    {
      World(k.s, flags, served)
    }

    ghost predicate Valid()
      reads this, k, k.ties, k.waits, k.timeouts
    {
      k.Valid() && Between(Conf(), W())
    }

    /** k_flags_init. */
    constructor (k: K.Kernel, q: Id, value: Bits)
      requires k.Valid() && Inv(k.s) && q in k.s.queues && Waiters(k.s, q) == [] && IsByte(value)
      ensures Valid() && this.k == k && this.q == q && initial == flags == value && served == map[]
    {
      hide Inv, K.Kernel.Valid, IsByte, Unserved;
      this.k, this.q, initial, flags, served := k, q, value, value, map[];
    }

    /** k_flags_poll, up to the switch; the bits found when it returns 0 at once. */
    method Poll(mask: Bits, options: Bits, timeout: nat) returns (r: Outcome, found: Bits)
      requires Valid() && k.s.current !in served && Allowed(Conf(), W(), Op.Poll(mask, options, timeout))
      modifies this, k, k.ties, k.waits, k.timeouts
      ensures r == if !Polls(options) then Done(ENOTSUP)
                   else if mask == 0 || And(old(flags), mask) != 0 then Done(0)
                   else if timeout == 0 then Done(EAGAIN) else Blocked
      ensures r == Done(0) ==> found == And(old(flags), mask)
      ensures if r == Done(0) && And(options, CONSUME) != 0
              then And(flags, mask) == 0 && Minus(flags, mask) == Minus(old(flags), mask)
              else flags == old(flags)
      ensures r == Blocked ==> Waiters(k.s, q) == old(Waiters(k.s, q)) + [old(k.s.current)]
      ensures Valid() && W() == Call(Conf(), old(W()), Op.Poll(mask, options, timeout))
    {
      hide Inv, Core, Between, K.Kernel.Valid, Do, And, Minus, IsByte, Polls, PendCurrentOn, Request;
      CallKeepsMasks(Conf(), W(), Op.Poll(mask, options, timeout));
      PollExact(Conf(), W(), mask, options, timeout);
      if PollAnswer(W(), mask, options, timeout) == Blocked {
        PollQueues(Conf(), W(), mask, options, timeout);
      }
      SoundFacts(Conf(), W());
      FromNone(flags);
      found := 0;
      if !Polls(options) {
        return Done(ENOTSUP), 0;
      }
      if mask == 0 {
        AndNone(flags);
        return Done(0), 0;
      }
      var trig := And(flags, mask);
      if trig == 0 {
        r := Wait(Request(options, mask), timeout);
      } else {
        if And(options, CONSUME) != 0 {
          flags := Minus(flags, mask);
        }
        found := trig;
        r := Done(0);
      }
    }

    /** The end of k_flags_poll, when a notified waiter runs again. */
    method Resume() returns (ret: int, found: Bits)
      requires Valid() && k.s.current in served
      modifies this
      ensures Valid() && W() == Settle(old(W())) && Sound(Conf(), W()) && ret == 0 && found == old(served)[k.s.current]
    {
      hide Inv, K.Kernel.Valid, Waiters, Mask, IsByte, Unserved;
      k.CurrentIs();
      SettleKeeps(Conf(), W());
      assert Delivers(k.s, k.s.current, served[k.s.current]);
      RequestKept(0, served[k.s.current]);
      NoBits();
      ret := k.WaitResult();
      var data := k.SwapData(k.current);
      found := Mask(data);
      served := served - {k.s.current};
    }

    method Wait(data: Swap, timeout: nat) returns (r: Outcome)
      requires k.Valid() && Inv(k.s) && q in k.s.queues && timeout <= k.s.cfg.forever
      requires timeout > 0 ==> Of(k.s, k.s.current).state.Ready?
      modifies k, k.ties, k.waits, k.timeouts
      ensures k.Valid() && r == if timeout == 0 then Done(EAGAIN) else Blocked
      ensures var s := Do(old(k.s), SetSwap(data)); k.s == if timeout == 0 then s else Do(s, Block(q, timeout))
    {
      hide Inv, Core, K.Kernel.Valid, PendCurrentOn;
      SwapOn(k.s, data);
      k.CurrentIs();
      k.SetSwapData(data);
      r := k.PendCurrentOn(q, timeout);
    }

    /** One round of the loop: the waiter is offered the bits n. */
    method Offer(t: Id, n: Bits, ghost passed: seq<Id>, ghost ws: seq<Id>) returns (left: Bits, woken: bool)
      requires k.Valid() && Asking(k.s, q, passed, ws) && ws != [] && ws[0] == t
      modifies k, k.ties, k.waits, k.timeouts
      ensures var data := Of(old(k.s), t).swap;
              && k.Valid() && woken == (And(n, Mask(data)) != 0)
              && (if woken then left == Left(data, n) && k.s == Do(old(k.s), Step.Notify(q, t, Trigger(And(n, Mask(data)))))
                                && Asking(k.s, q, passed, ws[1..])
                  else left == n && k.s == old(k.s) && Asking(k.s, q, passed + [t], ws[1..]))
      ensures Next(k.waits.cells, t) == if |ws| == 1 then q else ws[1]
    {
      hide Inv, K.Kernel.Valid, Mask, And, Minus, Consumes, Trigger, WakeWaiter;
      k.QueueLinks(q, passed, ws);
      PassNext(k.s, q, passed, ws);
      assert (passed + ws)[|passed|] == t;
      var data := k.SwapData(t);
      var trig := And(n, Mask(data));
      left, woken := n, false;
      if trig != 0 {
        WakeNext(k.s, q, passed, ws, Trigger(trig));
        k.NotifyWaiter(q, t, Trigger(trig));
        if Consumes(data) {
          left := Minus(n, trig);
        }
        woken := true;
      }
    }

    /** The loop of k_flags_notify over the wait queue. */
    method Distribute(value: Bits) returns (ret: int)
      requires k.Valid() && Inv(k.s) && q in k.s.queues
      modifies this, k, k.ties, k.waits, k.timeouts
      ensures k.Valid() && Inv(k.s) && q in k.s.queues
      ensures var r := Deliver(old(k.s), q, old(Waiters(k.s, q)), Minus(value, old(flags)));
              k.s == r.s && served == old(served) && flags == Or(old(flags), r.left) && ret == Int8(r.count)
    {
      hide Inv, K.Kernel.Valid, Mask, And, Minus, Or, Left, Trigger, Int8, Do, Claimed;
      ghost var passed, ws, count := [], Waiters(k.s, q), 0;
      assert [] + ws == ws;
      k.QueueLinks(q, passed, ws);
      var n := Minus(value, flags);
      var tie := Next(k.waits.cells, q);
      ret := 0;
      Int8Next(0);
      ghost var r := Deliver(k.s, q, ws, n);
      while n != 0
        invariant k.Valid() && Asking(k.s, q, passed, ws) && flags == old(flags) && served == old(served)
        invariant tie == if ws == [] then q else ws[0]
        invariant ret == Int8(count) && r == Deliver(k.s, q, ws, n).(count := Deliver(k.s, q, ws, n).count + count)
        decreases |ws|
      {
        k.QueueLinks(q, passed, ws);
        if tie == q {
          flags := Or(flags, n);
          break;
        }
        ghost var s0 := k.s;
        var woken;
        n, woken := Offer(tie, n, passed, ws);
        if woken {
          Int8Next(count);
          ret := if ret == 127 then -128 else ret + 1;
          count := count + 1;
        } else {
          passed := passed + [tie];
        }
        tie := Next(k.waits.cells, tie);
        ws := ws[1..];
      }
      AndNone(old(flags));
    }

    /** k_flags_notify. */
    method Notify(value: Bits, options: Bits) returns (ret: int)
      requires Valid() && k.s.current !in served && IsByte(value)
      modifies this, k, k.ties, k.waits, k.timeouts
      ensures ret == if !Notifies(options) then ENOTSUP
                     else Int8(Deliver(old(k.s), q, old(Waiters(k.s, q)), Minus(value, old(flags))).count)
      ensures Valid() && W() == Call(Conf(), old(W()), Op.Notify(value, options))
    {
      hide Inv, Between, K.Kernel.Valid, And, Minus, Or, Int8, Deliver, IsByte, Notifies;
      CallKeepsMasks(Conf(), W(), Op.Notify(value, options));
      SoundFacts(Conf(), W());
      if !Notifies(options) {
        return ENOTSUP;
      }
      ghost var shares := Shares(k.s, Waiters(k.s, q), Minus(value, flags));
      ret := Distribute(value);
      served := served + shares;
      if ret > 0 && And(options, SCHED) != 0 {
        k.Yield();
      }
    }

    /** k_flags_reset. */
    method Reset() returns (canceled: int)
      requires Valid() && k.s.current !in served
      modifies this, k, k.ties, k.waits, k.timeouts
      ensures canceled == Int8(|old(Waiters(k.s, q))|) && flags == initial
      ensures Waiters(k.s, q) == [] && forall t :: t in old(Waiters(k.s, q)) ==> ReturnCode(Of(k.s, t)) == ECANCELED
      ensures Valid() && W() == Call(Conf(), old(W()), Op.Reset)
    {
      hide Inv, Core, Between, K.Kernel.Valid, CancelAll, Unpend, Int8, K.Byte, ReturnCode;
      SoundFacts(Conf(), W());
      CancelOn(k.s, q);
      CallKeepsMasks(Conf(), W(), Op.Reset);
      SoundFacts(Conf(), W());
      CallFacts(k.s, q);
      var n := k.CancelAllPending(q);
      K.ByteCast(|old(Waiters(k.s, q))|);
      canceled := Int8(n);
      flags := initial;
    }
  }

  lemma Int8Next(n: nat)
    ensures Int8(0) == 0 && -128 <= Int8(n) <= 127
    ensures Int8(n + 1) == if Int8(n) == 127 then -128 else Int8(n) + 1
  {
  }

  lemma AndNone(a: Bits)
    ensures And(a, 0) == 0 && Or(a, 0) == a
  {
  }

  lemma SoundFacts(o: Object, w: World)
    requires Between(o, w)
    ensures Inv(w.s) && o.q in w.s.queues
  {
  }
}
