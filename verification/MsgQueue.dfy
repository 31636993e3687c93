/**
  The message queue of src/avrtos/msgq.c: a ring buffer and one wait queue shared by
  producers and consumers.  Messages come out in the order they were accepted, over every run.
*/
module MsgQueue {
  import opened Links
  import opened Sched
  import opened SchedRuns
  import opened Waits
  import opened WaitQueues
  import opened Handoffs
  import opened Errno
  import K = Kernel

  datatype Object = Object(q: Id, max: nat)

  /**
    The queue in its system.  `accepted` are the messages taken in and not purged, `log` the
    record of the messages that left to a consumer, `producers` the threads whose last
    blocking call was a put, each with the message it put, and `admitted` the producers whose
    message was taken in and that have not run since.
  */
  datatype World = World(s: Sys, buffer: seq<int>, accepted: seq<int>, log: seq<Transfer<int>>,
                         producers: map<Id, int>, admitted: set<Id>)

  datatype Op = Put(msg: int, timeout: nat) | Get(timeout: nat) | Purge | Other(step: Step)

  ghost predicate MayBlock(s: Sys, timeout: nat) {
    timeout <= s.cfg.forever && (timeout > 0 ==> Of(s, s.current).state.Ready?)
  }

  ghost predicate Allowed(o: Object, w: World, op: Op) {
    match op
    case Put(_, t) => t <= w.s.cfg.forever && (|w.buffer| == o.max ==> MayBlock(w.s, t))
    case Get(t) => t <= w.s.cfg.forever && (w.buffer == [] ==> MayBlock(w.s, t))
    case Purge => true
    case Other(step) => Enabled(w.s, step) && !Names(step, o.q)
  }

  ghost function Waiting(o: Object, s: Sys, data: Swap, timeout: nat): Sys {
    Do(Do(s, SetSwap(data)), Block(o.q, timeout))
  }

  ghost function Message(data: Swap): int {
    if data.Data? then data.v else 0
  }

  /** What k_msgq_put answers up to the switch. */
  ghost function PutAnswer(o: Object, w: World, timeout: nat): Outcome {
    if |w.buffer| < o.max then Done(0) else if timeout == 0 then Done(ENOMEM) else Blocked
  }

  /** What k_msgq_get answers up to the switch; with 0 it returns the oldest message. */
  ghost function GetAnswer(w: World, timeout: nat): Outcome {
    if w.buffer != [] then Done(0) else if timeout == 0 then Done(ENOMSG) else Blocked
  }

  /** What a call does to the kernel and to the buffer, up to the switch. */
  ghost function Effect(o: Object, w: World, op: Op): World {
    var waiters := Waiters(w.s, o.q);
    match op
    case Put(msg, t) =>
      if |w.buffer| < o.max then
        if waiters != [] then w.(s := Do(w.s, HandoffWith(o.q, Data(msg))))
        else w.(buffer := w.buffer + [msg])
      else if t == 0 then w
      else w.(s := Waiting(o, w.s, Data(msg), t))
    case Get(t) =>
      if w.buffer != [] then
        if waiters != [] then
          w.(s := Do(w.s, Handoff(o.q)), buffer := w.buffer[1..] + [Message(Of(w.s, waiters[0]).swap)])
        else w.(buffer := w.buffer[1..])
      else if t == 0 then w
      else w.(s := Waiting(o, w.s, Nothing, t))
    case Purge => w.(s := Do(w.s, CancelEvery(o.q)), buffer := [])
    case Other(step) => w.(s := Do(w.s, step))
  }

  /** The messages taken in with the call: that of a put which answers 0, and, when a get answers
      0, that of the put the first waiting producer waits in. */
  ghost function Taken(o: Object, w: World, op: Op): seq<int> {
    match op
    case Put(msg, t) => if PutAnswer(o, w, t) == Done(0) then [msg] else []
    case Get(t) => if GetAnswer(w, t) == Done(0) && Producing(o, w) then [w.producers[Waiters(w.s, o.q)[0]]] else []
    case _ => []
  }

  /** A producer waits first in the queue. */
  ghost predicate Producing(o: Object, w: World) {
    Waiters(w.s, o.q) != [] && Waiters(w.s, o.q)[0] in w.producers
  }

  /** The messages that leave with the call: to the caller of a get that answers 0, and, when a put
      answers 0, to the first waiting consumer. */
  ghost function Leaving(o: Object, w: World, op: Op): seq<Transfer<int>> {
    match op
    case Put(msg, t) =>
      if PutAnswer(o, w, t) == Done(0) && Waiters(w.s, o.q) != [] then [Transfer(msg, Waiters(w.s, o.q)[0], InFlight)] else []
    case Get(t) => if GetAnswer(w, t) == Done(0) then [Transfer(w.buffer[0], w.s.current, Returned)] else []
    case _ => []
  }

  ghost function Producers(o: Object, w: World, op: Op): map<Id, int> {
    match op
    case Put(msg, t) => if PutAnswer(o, w, t) == Blocked then w.producers[w.s.current := msg] else w.producers
    case Get(t) => if GetAnswer(w, t) == Blocked then w.producers - {w.s.current} else w.producers
    case _ => w.producers
  }

  ghost function Admitted(o: Object, w: World, op: Op): set<Id> {
    if op.Get? && GetAnswer(w, op.timeout) == Done(0) && Waiters(w.s, o.q) != [] then w.admitted + {Waiters(w.s, o.q)[0]}
    else w.admitted
  }

  /** The effect, with the history kept from what is called and what it answers. */
  ghost function Call(o: Object, w: World, op: Op): World {
    Effect(o, w, op).(
      accepted := if op.Purge? then Values(w.log) else w.accepted + Taken(o, w, op),
      log := w.log + Leaving(o, w, op), producers := Producers(o, w, op), admitted := Admitted(o, w, op))
  }

  /** A woken waiter that runs again returns from its call before anything else can run. */
  ghost function Settle(w: World): World {
    w.(log := Landed(w.log, w.s.current), admitted := w.admitted - {w.s.current})
  }

  ghost function Apply(o: Object, w: World, op: Op): World {
    Settle(Call(o, w, op))
  }

  /** A waiting producer means the buffer is full, a waiting consumer that it is empty. */
  ghost predicate WaiterSound(o: Object, w: World, t: Id) {
    if t in w.producers then |w.buffer| == o.max && Of(w.s, t).swap == Data(w.producers[t]) else w.buffer == []
  }

  /** The consumer on its way has the message. */
  ghost predicate Carries(s: Sys, x: Transfer<int>) {
    x.state.InFlight? ==> OnItsWay(s, x.to) && Of(s, x.to).swap == Data(x.what)
  }

  ghost predicate Between(o: Object, w: World) {
    && Inv(w.s) && o.q in w.s.queues && o.max > 0
    && |w.buffer| <= o.max
    && Values(w.log) + w.buffer == w.accepted
    && (forall t :: t in Waiters(w.s, o.q) ==> WaiterSound(o, w, t))
    && Underway(w, w.s)
  }

  /** What is in flight is with the threads it was given to, and admitted producers will
      return success. */
  ghost predicate Underway(w: World, s: Sys) {
    && Singly(w.log) && (forall i :: 0 <= i < |w.log| ==> Carries(s, w.log[i]))
    && (forall t :: t in w.admitted ==> OnItsWay(s, t))
  }

  ghost predicate Sound(o: Object, w: World) {
    Between(o, w) && Grounded(w.log, w.s.current) && w.s.current !in w.admitted
  }

  lemma SettleKeeps(o: Object, w: World)
    requires Between(o, w)
    ensures Sound(o, Settle(w))
  {
    hide Inv, OnItsWay, Waiters;
    LandedValues(w.log, w.s.current);
    forall t | t in Waiters(w.s, o.q) ensures WaiterSound(o, Settle(w), t) {
      assert WaiterSound(o, w, t);
    }
  }

  // ----- what is under way, over one step -----

  lemma Onward(s: Sys, step: Step, x: Transfer<int>)
    requires Inv(s) && Enabled(s, step) && !Flying(x, s.current) && Carries(s, x)
    ensures Carries(Do(s, step), x)
  {
    hide Inv, Enabled, Do, OnItsWay;
    if x.state.InFlight? {
      StaysOnItsWay(s, step, x.to);
    }
  }

  lemma AllOnward(w: World, s: Sys, step: Step)
    requires Inv(s) && Underway(w, s) && Grounded(w.log, s.current) && s.current !in w.admitted && Enabled(s, step)
    ensures Underway(w, Do(s, step))
  {
    hide Inv, Enabled, Do, OnItsWay, Carries;
    forall i | 0 <= i < |w.log| ensures Carries(Do(s, step), w.log[i]) {
      Onward(s, step, w.log[i]);
    }
    forall t | t in w.admitted ensures OnItsWay(Do(s, step), t) {
      StaysOnItsWay(s, step, t);
    }
  }

  lemma NotYet(w: World, s: Sys, t: Id)
    requires !OnItsWay(s, t) && Underway(w, s)
    ensures Grounded(w.log, t)
  {
    assert forall i :: 0 <= i < |w.log| ==> Carries(s, w.log[i]);
  }

  // ----- every call keeps the order -----

  lemma PutKeepsOrder(o: Object, w: World, msg: int, timeout: nat)
    requires Sound(o, w) && Allowed(o, w, Put(msg, timeout))
    ensures Between(o, Call(o, w, Put(msg, timeout)))
  {
    hide Do, Inv, Enabled, OnItsWay, Waiting, Grounded;
    var waiters := Waiters(w.s, o.q);
    assert w.log + [] == w.log && w.accepted + [] == w.accepted;
    if |w.buffer| < o.max {
      var w' := Call(o, w, Put(msg, timeout));
      if waiters == [] {
        assert Values(w.log) + (w.buffer + [msg]) == Values(w.log) + w.buffer + [msg];
      } else {
        var step := HandoffWith(o.q, Data(msg));
        HandoffOn(w.s, o.q, step);
        HandedOver(w.s, o.q, step);
        HandoffEnabled(w.s, o.q, Data(msg));
        AllOnward(w, w.s, step);
        NotYet(w, w.s, waiters[0]);
        HandedOut(w, w'.s, Transfer(msg, waiters[0], InFlight));
        assert WaiterSound(o, w, waiters[0]);
        assert Values(w.log) + [] == Values(w.log);
        RestSound(o, w, w');
      }
    } else if timeout > 0 {
      WaitingOn(o, w, Data(msg), timeout);
    }
  }

  lemma HandedOut(w: World, s: Sys, x: Transfer<int>)
    requires Underway(w, s) && Carries(s, x) && Grounded(w.log, x.to)
    ensures Underway(w.(log := w.log + [x]), s) && Values(w.log + [x]) == Values(w.log) + [x.what]
  {
    hide Carries, OnItsWay;
    ValuesAdd(w.log, x);
  }

  lemma GetKeepsOrder(o: Object, w: World, timeout: nat)
    requires Sound(o, w) && Allowed(o, w, Get(timeout))
    ensures Between(o, Call(o, w, Get(timeout)))
  {
    hide Do, Inv, Enabled, OnItsWay, Waiting;
    var waiters := Waiters(w.s, o.q);
    assert w.log + [] == w.log && w.accepted + [] == w.accepted;
    if w.buffer != [] {
      var w', rest, x := Call(o, w, Get(timeout)), w.buffer[1..], Transfer(w.buffer[0], w.s.current, Returned);
      assert w.buffer == [w.buffer[0]] + rest;
      HandedOut(w, w.s, x);
      assert Values(w.log) + [w.buffer[0]] + rest == w.accepted;
      if waiters != [] {
        HandoffOn(w.s, o.q, Handoff(o.q));
        HandedOver(w.s, o.q, Handoff(o.q));
        HandoffEnabled(w.s, o.q, Nothing);
        AllOnward(w.(log := w.log + [x]), w.s, Handoff(o.q));
        var msg := Message(Of(w.s, waiters[0]).swap);
        assert WaiterSound(o, w, waiters[0]);
        assert Values(w.log) + [w.buffer[0]] + (rest + [msg]) == Values(w.log) + [w.buffer[0]] + rest + [msg];
        RestSound(o, w, w');
      }
    } else if timeout > 0 {
      WaitingOn(o, w, Nothing, timeout);
    }
  }

  /** The waiters behind the one woken are still waiting for the same reason. */
  lemma RestSound(o: Object, w: World, w': World)
    requires Between(o, w) && Waiters(w.s, o.q) != [] && Waiters(w'.s, o.q) == Waiters(w.s, o.q)[1..]
    requires |w'.buffer| == |w.buffer| && w'.producers == w.producers
    requires forall t :: t in Waiters(w.s, o.q)[1..] ==> Of(w'.s, t) == Of(w.s, t)
    ensures forall t :: t in Waiters(w'.s, o.q) ==> WaiterSound(o, w', t)
  {
    hide Inv, Underway;
    forall t | t in Waiters(w'.s, o.q) ensures WaiterSound(o, w', t) {
      assert WaiterSound(o, w, t);
    }
  }

  lemma WaitingOn(o: Object, w: World, data: Swap, timeout: nat)
    requires Sound(o, w) && MayBlock(w.s, timeout) && timeout > 0
    ensures var s, s' := w.s, Waiting(o, w.s, data, timeout);
            && Inv(s') && o.q in s'.queues && Waiters(s', o.q) == Waiters(s, o.q) + [s.current]
            && s.current !in Waiters(s, o.q) && Of(s', s.current).swap == data
            && (forall t :: t in Waiters(s, o.q) ==> Of(s', t).swap == Of(s, t).swap)
            && Underway(w, s')
  {
    hide Do, Inv, Enabled, OnItsWay;
    var s := w.s;
    SwapOn(s, data);
    SetSwapEnabled(s, data);
    AllOnward(w, s, SetSwap(data));
    BlockEnabled(Do(s, SetSwap(data)), o.q, timeout);
    BlockOn(Do(s, SetSwap(data)), o.q, timeout);
    AllOnward(w, Do(s, SetSwap(data)), Block(o.q, timeout));
  }

  lemma CallKeepsOrder(o: Object, w: World, op: Op)
    requires Sound(o, w) && Allowed(o, w, op)
    ensures Between(o, Call(o, w, op))
  {
    hide Do, Inv, Enabled, Names, OnItsWay, Grounded, Underway;
    assert w.log + [] == w.log && w.accepted + [] == w.accepted;
    match op
    case Put(msg, t) => PutKeepsOrder(o, w, msg, t);
    case Get(t) => GetKeepsOrder(o, w, t);
    case Purge =>
      CancelOn(w.s, o.q);
      HandoffEnabled(w.s, o.q, Nothing);
      AllOnward(w, w.s, CancelEvery(o.q));
      SameUnderway(w, Call(o, w, op), Do(w.s, CancelEvery(o.q)));
    case Other(step) =>
      var k := Elsewhere(w.s, step, o.q);
      AllOnward(w, w.s, step);
      SameUnderway(w, Call(o, w, op), Do(w.s, step));
  }

  lemma SameUnderway(w: World, w': World, s: Sys)
    requires Underway(w, s) && w'.log == w.log && w'.admitted == w.admitted
    ensures Underway(w', s) && Values(w.log) + [] == Values(w.log)
  {
    hide Carries, OnItsWay;
  }

  lemma StepKeepsOrder(o: Object, w: World, op: Op)
    requires Sound(o, w) && Allowed(o, w, op)
    ensures Sound(o, Apply(o, w, op))
  {
    hide Call, Between, Allowed, Settle, Grounded;
    CallKeepsOrder(o, w, op);
    SettleKeeps(o, Call(o, w, op));
  }

  ghost predicate Run(o: Object, ws: seq<World>, ops: seq<Op>) {
    && |ws| == |ops| + 1
    && Inv(ws[0].s) && o.q in ws[0].s.queues && Waiters(ws[0].s, o.q) == [] && o.max > 0
    && ws[0].buffer == ws[0].accepted == [] && ws[0].log == [] && ws[0].admitted == {}
    && forall i :: 0 <= i < |ops| ==> Allowed(o, ws[i], ops[i]) && ws[i + 1] == Apply(o, ws[i], ops[i])
  }

  /** In every state of every run: the messages that left then the buffered ones are the
      accepted ones in order; the waiters are producers of a full buffer or consumers of an
      empty one. */
  lemma {:induction false} MessagesInOrder(o: Object, ws: seq<World>, ops: seq<Op>, i: nat)
    requires Run(o, ws, ops) && i < |ws|
    ensures Sound(o, ws[i])
  {
    hide Apply, Allowed, Inv;
    if i > 0 {
      MessagesInOrder(o, ws, ops, i - 1);
      StepKeepsOrder(o, ws[i - 1], ops[i - 1]);
    }
  }

  /** Over every run: when a consumer that a message was handed to runs again, its get returns
      0 with that message; when an admitted producer runs again, its put returns 0. */
  lemma WaitersReturn(o: Object, ws: seq<World>, ops: seq<Op>, i: nat)
    requires Run(o, ws, ops) && i < |ops|
    ensures var w := Call(o, ws[i], ops[i]); var c := Of(w.s, w.s.current);
            && (w.s.current in w.admitted ==> ReturnCode(c) == 0)
            && |ws[i + 1].log| == |w.log|
            && forall j :: 0 <= j < |w.log| && Flying(w.log[j], w.s.current) ==>
                 && ReturnCode(c) == 0 && c.swap == Data(w.log[j].what)
                 && ws[i + 1].log[j] == Transfer(w.log[j].what, w.s.current, Returned)
  {
    hide Call, Allowed, Inv, Waiters;
    MessagesInOrder(o, ws, ops, i);
    CallKeepsOrder(o, ws[i], ops[i]);
    var w := Call(o, ws[i], ops[i]);
    assert forall j :: 0 <= j < |w.log| ==> Carries(w.s, w.log[j]);
  }

  /** Producers and consumers never wait together. */
  lemma OneKindWaits(o: Object, w: World, a: Id, b: Id)
    requires Sound(o, w) && a in Waiters(w.s, o.q) && b in Waiters(w.s, o.q)
    ensures a in w.producers <==> b in w.producers
  {
    assert WaiterSound(o, w, a) && WaiterSound(o, w, b);
  }

  /** A get from a full queue lets exactly the first waiting producer in: its message goes
      behind the buffered ones, and it is on its way to return success. */
  lemma ProducerAdmitted(o: Object, w: World, timeout: nat)
    requires Sound(o, w) && Allowed(o, w, Get(timeout)) && w.buffer != [] && Waiters(w.s, o.q) != []
    ensures var t, w' := Waiters(w.s, o.q)[0], Call(o, w, Get(timeout));
            && t in w.producers && w.accepted + [w.producers[t]] == w'.accepted && w'.buffer == w.buffer[1..] + [w.producers[t]]
            && t in w'.admitted && OnItsWay(w'.s, t) && |w'.buffer| == o.max
  {
    hide Do, Inv, OnItsWay;
    assert WaiterSound(o, w, Waiters(w.s, o.q)[0]);
    HandedOver(w.s, o.q, Handoff(o.q));
  }

  /** A put that finds a waiting consumer reaches it and not the buffer. */
  lemma ConsumerServed(o: Object, w: World, msg: int, timeout: nat)
    requires Sound(o, w) && Allowed(o, w, Put(msg, timeout)) && |w.buffer| < o.max && Waiters(w.s, o.q) != []
    ensures var t, w' := Waiters(w.s, o.q)[0], Call(o, w, Put(msg, timeout));
            && t !in w.producers && OnItsWay(w'.s, t) && Of(w'.s, t).swap == Data(msg) && w'.buffer == []
  {
    hide Do, Inv, OnItsWay;
    assert WaiterSound(o, w, Waiters(w.s, o.q)[0]);
    HandoffOn(w.s, o.q, HandoffWith(o.q, Data(msg)));
    HandedOver(w.s, o.q, HandoffWith(o.q, Data(msg)));
  }

  // ----- the ring buffer -----

  function Slot(i: nat, size: nat): nat {
    if i < size then i else i - size
  }

  /** The n messages from the read cursor on, wrapping at the end of the buffer. */
  ghost function Window(a: seq<int>, r: nat, n: nat): (w: seq<int>)
    requires r < |a| && n <= |a|
    ensures |w| == n && forall i :: 0 <= i < n ==> w[i] == a[Slot(r + i, |a|)]
  {
    seq(n, i requires 0 <= i < n => a[Slot(r + i, |a|)])
  }

  lemma WindowPut(a: seq<int>, r: nat, n: nat, x: int)
    requires r < |a| && n < |a|
    ensures Window(a[Slot(r + n, |a|) := x], r, n + 1) == Window(a, r, n) + [x]
  {
  }

  lemma WindowGet(a: seq<int>, r: nat, n: nat)
    requires r < |a| && 0 < n <= |a|
    ensures Window(a, r, n)[0] == a[r]
    ensures Window(a, Slot(r + 1, |a|), n - 1) == Window(a, r, n)[1..]
  {
  }

  class MsgQueue {
    const k: K.Kernel
    const q: Id
    const buf: array<int>
    var read: nat
    var write: nat
    var used: nat
    ghost var accepted: seq<int>
    ghost var log: seq<Transfer<int>>
    ghost var producers: map<Id, int>
    ghost var admitted: set<Id>

    ghost predicate Cursors()
      reads this, buf
    {
      read < buf.Length && used <= buf.Length && write == Slot(read + used, buf.Length)
    }

    ghost function Buffer(): seq<int>
      requires Cursors()
      reads this, buf
    {
      Window(buf[..], read, used)
    }

    ghost function Conf(): Object {
      Object(q, buf.Length)
    }

    ghost function W(): World
      requires Cursors()
      reads this, k, buf
    {
      World(k.s, Buffer(), accepted, log, producers, admitted)
    }

    ghost predicate Valid()
      reads this, k, k.ties, k.waits, k.timeouts, buf
    {
      k.Valid() && Cursors() && Between(Conf(), W())
    }

    /** A queue that passed the checks of k_msgq_init. */
    constructor (k: K.Kernel, q: Id, max: nat)
      requires k.Valid() && Inv(k.s) && q in k.s.queues && Waiters(k.s, q) == [] && max > 0
      ensures Valid() && this.k == k && this.q == q && buf.Length == max && used == 0
      ensures fresh(buf) && accepted == [] && log == [] && admitted == {}
    {
      hide Inv, K.Kernel.Valid;
      this.k, this.q := k, q;
      buf := new int[max];
      read, write, used := 0, 0, 0;
      accepted, log, producers, admitted := [], [], map[], {};
    }

    /** The copy at the write cursor, behind n messages, and its advance. */
    method Store(msg: int, ghost n: nat)
      requires n < buf.Length && read < buf.Length && write == Slot(read + n, buf.Length)
      modifies this`write, buf
      ensures write == Slot(read + n + 1, buf.Length)
      ensures Window(buf[..], read, n + 1) == old(Window(buf[..], read, n)) + [msg]
    {
      WindowPut(buf[..], read, n, msg);
      buf[write] := msg;
      assert buf[..] == old(buf[..])[old(write) := msg];
      write := write + 1;
      if write == buf.Length {
        write := 0;
      }
    }

    /** The copy from the read cursor and its advance; the message count is not changed yet. */
    method Fetch() returns (msg: int)
      requires Cursors() && used > 0
      modifies this`read
      ensures msg == old(Buffer())[0] && read < buf.Length && write == Slot(read + used - 1, buf.Length)
      ensures Window(buf[..], read, used - 1) == old(Buffer())[1..]
    {
      WindowGet(buf[..], read, used);
      msg := buf[read];
      read := read + 1;
      if read == buf.Length {
        read := 0;
      }
    }

    /** k_msgq_put, up to the switch. */
    method Put(msg: int, timeout: nat) returns (r: Outcome)
      requires Valid() && Sound(Conf(), W()) && Allowed(Conf(), W(), Op.Put(msg, timeout))
      modifies this, k, k.ties, k.waits, k.timeouts, buf
      ensures Valid() && W() == Call(Conf(), old(W()), Op.Put(msg, timeout))
      ensures r == if old(used) < buf.Length then Done(0) else if timeout == 0 then Done(ENOMEM) else Blocked
      ensures accepted == old(accepted) + if r == Done(0) then [msg] else []
      ensures Values(log) + Buffer() == accepted
      ensures r == Blocked ==> Waiters(k.s, q) == old(Waiters(k.s, q)) + [old(k.s.current)]
    {
      hide Inv, Core, Between, Sound, K.Kernel.Valid, Unpend, UnpendSwap, CancelAll, Do, MayBlock, Window;
      assert log + [] == log && accepted + [] == accepted;
      CallKeepsOrder(Conf(), W(), Op.Put(msg, timeout));
      CallQueues(Conf(), W(), Op.Put(msg, timeout));
      BetweenFacts(Conf(), Call(Conf(), W(), Op.Put(msg, timeout)));
      SoundFacts(Conf(), W());
      CallFacts(k.s, q);
      HandoffFacts(k.s, q, Data(msg));
      if used < buf.Length {
        var t := k.UnpendFirstAndSwap(q, Data(msg));
        if t != Null {
          log := log + [Transfer(msg, t, InFlight)];
        } else {
          Store(msg, used);
          used := used + 1;
        }
        accepted := accepted + [msg];
        r := Done(0);
      } else if timeout == 0 {
        r := Done(ENOMEM);
      } else {
        producers := producers[k.s.current := msg];
        Wait(Data(msg), timeout);
        r := Blocked;
      }
    }

    /** Sets swap_data and blocks on the wait queue. */
    method Wait(data: Swap, timeout: nat)
      requires k.Valid() && Inv(k.s) && q in k.s.queues && MayBlock(k.s, timeout) && timeout > 0
      modifies k, k.ties, k.waits, k.timeouts
      ensures k.Valid() && k.s == Waiting(Conf(), old(k.s), data, timeout)
    {
      hide Inv, Core, K.Kernel.Valid, PendCurrentOn;
      SwapOn(k.s, data);
      k.CurrentIs();
      k.SetSwapData(data);
      var r := k.PendCurrentOn(q, timeout);
    }

    /** After a message was copied out: the first waiting producer's message takes the free
        place, or there is one message less. */
    method Refill()
      requires k.Valid() && Inv(k.s) && q in k.s.queues
      requires 0 < used <= buf.Length && read < buf.Length && write == Slot(read + used - 1, buf.Length)
      modifies this`write, this`used, this`accepted, this`admitted, k, k.ties, k.waits, k.timeouts, buf
      ensures k.Valid() && Cursors() && k.s == Do(old(k.s), Handoff(q))
      ensures var waiters, rest := old(Waiters(k.s, q)), old(Window(buf[..], read, used - 1));
              if waiters == [] then Buffer() == rest && accepted == old(accepted) && admitted == old(admitted)
              else var sent := Message(Of(old(k.s), waiters[0]).swap);
                   Buffer() == rest + [sent] && accepted == old(accepted) + [sent] && admitted == old(admitted) + {waiters[0]}
    {
      hide Inv, Core, K.Kernel.Valid, Unpend, CancelAll, Do, Woke, Window;
      CallFacts(k.s, q);
      HandoffOn(k.s, q, Handoff(q));
      var t := k.UnpendFirst(q);
      if t != Null {
        var data := k.SwapData(t);
        var sent := if data.Data? then data.v else 0;
        Store(sent, used - 1);
        accepted := accepted + [sent];
        admitted := admitted + {t};
      } else {
        used := used - 1;
      }
    }

    /** k_msgq_get, up to the switch. */
    method Get(timeout: nat) returns (r: Outcome, msg: int)
      requires Valid() && Sound(Conf(), W()) && Allowed(Conf(), W(), Op.Get(timeout))
      modifies this, k, k.ties, k.waits, k.timeouts, buf
      ensures Valid() && W() == Call(Conf(), old(W()), Op.Get(timeout))
      ensures r == if old(used) > 0 then Done(0) else if timeout == 0 then Done(ENOMSG) else Blocked
      ensures old(used) > 0 ==> msg == old(Buffer())[0]
      ensures log == old(log) + if r == Done(0) then [Transfer(msg, old(k.s.current), Returned)] else []
      ensures Values(log) + Buffer() == accepted
      ensures r == Blocked ==> Waiters(k.s, q) == old(Waiters(k.s, q)) + [old(k.s.current)]
    {
      hide Inv, Core, Between, Sound, K.Kernel.Valid, Unpend, CancelAll, Do, Woke, MayBlock, Window, Call, Waiting, Values;
      GetIs(Conf(), W(), timeout);
      assert log + [] == log;
      CallKeepsOrder(Conf(), W(), Op.Get(timeout));
      CallQueues(Conf(), W(), Op.Get(timeout));
      BetweenFacts(Conf(), Call(Conf(), W(), Op.Get(timeout)));
      SoundFacts(Conf(), W());
      CallFacts(k.s, q);
      msg := 0;
      if used > 0 {
        msg := Fetch();
        log := log + [Transfer(msg, k.s.current, Returned)];
        Refill();
        r := Done(0);
      } else if timeout == 0 {
        r := Done(ENOMSG);
      } else {
        producers := producers - {k.s.current};
        Wait(Nothing, timeout);
        r := Blocked;
      }
    }

    /** The end of k_msgq_put and k_msgq_get, when the thread runs again: success for a producer
        let in, and success with the message for a consumer it was handed to. */
    method Resume() returns (ret: int, msg: int)
      requires Valid() && (k.s.current in admitted || !Grounded(log, k.s.current))
      modifies this
      ensures Valid() && W() == Settle(old(W())) && Sound(Conf(), W()) && ret == 0
      ensures forall j :: 0 <= j < |old(log)| && Flying(old(log)[j], k.s.current) ==> msg == old(log)[j].what
    {
      hide Inv, K.Kernel.Valid, Waiters, Window, WaiterSound;
      k.CurrentIs();
      SettleKeeps(Conf(), W());
      assert forall j :: 0 <= j < |log| ==> Carries(k.s, log[j]);
      RunningThere(k.s);
      ret := k.WaitResult();
      var data := k.SwapData(k.current);
      msg := if data.Data? then data.v else 0;
      log := Landed(log, k.s.current);
      admitted := admitted - {k.s.current};
    }

    /** k_msgq_purge. */
    method Purge() returns (canceled: int)
      requires Valid() && Sound(Conf(), W())
      modifies this, k, k.ties, k.waits, k.timeouts
      ensures Valid() && W() == Call(Conf(), old(W()), Op.Purge)
      ensures canceled == Int8(|old(Waiters(k.s, q))|)
      ensures used == 0 && Waiters(k.s, q) == []
      ensures forall t :: t in old(Waiters(k.s, q)) ==> ReturnCode(Of(k.s, t)) == ECANCELED
    {
      hide Inv, Core, Between, Sound, K.Kernel.Valid, CancelAll, Unpend, Int8, K.Byte, ReturnCode;
      assert log + [] == log;
      CallKeepsOrder(Conf(), W(), Op.Purge);
      BetweenFacts(Conf(), W());
      CancelOn(k.s, q);
      SoundFacts(Conf(), W());
      CallFacts(k.s, q);
      write, used := read, 0;
      accepted := Values(log);
      var n := k.CancelAllPending(q);
      K.ByteCast(|old(Waiters(k.s, q))|);
      canceled := Int8(n);
    }

    /** k_msgq_peek: the next message, left in place. */
    method Peek() returns (r: Outcome, msg: int)
      requires Cursors()
      ensures if used > 0 then r == Done(0) && msg == Buffer()[0] else r == Done(ENOMSG)
    {
      msg := 0;
      if used > 0 {
        msg := buf[read];
        r := Done(0);
      } else {
        r := Done(ENOMSG);
      }
    }
  }

  /** k_msgq_init: a capacity of zero is refused. */
  method Init(k: K.Kernel, q: Id, max: nat) returns (ret: int, m: MsgQueue?)
    requires k.Valid() && Inv(k.s) && q in k.s.queues && Waiters(k.s, q) == []
    ensures ret == if max == 0 then EINVAL else 0
    ensures max == 0 <==> m == null
    ensures m != null ==> && fresh(m) && fresh(m.buf) && m.Valid() && m.k == k && m.q == q && m.buf.Length == max && m.used == 0
                          && m.accepted == [] && m.log == []
  {
    if max == 0 {
      return EINVAL, null;
    }
    ret := 0;
    m := new MsgQueue(k, q, max);
  }

  lemma RunningThere(s: Sys)
    requires Inv(s)
    ensures s.current in s.tcbs
  {
  }

  /** A get, case by case. */
  lemma GetIs(o: Object, w: World, timeout: nat)
    requires Sound(o, w)
    ensures var w', c, waiters := Call(o, w, Get(timeout)), w.s.current, Waiters(w.s, o.q);
            && (w.buffer != [] ==> w' == World(Do(w.s, Handoff(o.q)),
                  if waiters == [] then w.buffer[1..] else w.buffer[1..] + [Message(Of(w.s, waiters[0]).swap)],
                  if waiters == [] then w.accepted else w.accepted + [Message(Of(w.s, waiters[0]).swap)],
                  w.log + [Transfer(w.buffer[0], c, Returned)], w.producers,
                  if waiters == [] then w.admitted else w.admitted + {waiters[0]}))
            && (w.buffer == [] && timeout == 0 ==> w' == w)
            && (w.buffer == [] && timeout > 0 ==> w' == w.(s := Waiting(o, w.s, Nothing, timeout), producers := w.producers - {c}))
  {
    hide Inv, Underway, Waiting, Values;
    assert w.log + [] == w.log && w.accepted + [] == w.accepted;
    FirstProducer(o, w);
  }

  /** A call that waits queues the caller up, last. */
  lemma CallQueues(o: Object, w: World, op: Op)
    requires Sound(o, w) && Allowed(o, w, op)
    ensures (op.Put? && PutAnswer(o, w, op.timeout) == Blocked) || (op.Get? && GetAnswer(w, op.timeout) == Blocked) ==>
              Waiters(Call(o, w, op).s, o.q) == Waiters(w.s, o.q) + [w.s.current]
  {
    hide Do, Inv, OnItsWay, Waiters, Waiting;
    match op
    case Put(msg, t) => if |w.buffer| == o.max && t > 0 { WaitingOn(o, w, Data(msg), t); }
    case Get(t) => if w.buffer == [] && t > 0 { WaitingOn(o, w, Nothing, t); }
    case _ =>
  }

  lemma BetweenFacts(o: Object, w: World)
    requires Between(o, w)
    ensures Values(w.log) + w.buffer == w.accepted && Inv(w.s) && o.q in w.s.queues
  {
  }

  /** Beside buffered messages only producers wait, with their messages. */
  lemma FirstProducer(o: Object, w: World)
    requires Sound(o, w)
    ensures w.buffer != [] && Waiters(w.s, o.q) != [] ==>
              var t := Waiters(w.s, o.q)[0]; t in w.producers && Of(w.s, t).swap == Data(w.producers[t])
  {
    hide Inv, Underway;
    if Waiters(w.s, o.q) != [] {
      assert WaiterSound(o, w, Waiters(w.s, o.q)[0]);
    }
  }

  lemma SoundFacts(o: Object, w: World)
    requires Between(o, w)
    ensures Inv(w.s) && o.q in w.s.queues && |w.buffer| <= o.max
  {
  }
}
