/**
  The events of src/avrtos/event.c: a delayed call of a handler.  Every event scheduled is
  handled once, cancelled, or still pending, whatever the handlers do.
*/
module Events {
  import opened Links
  import opened DeltaQueue
  import opened TimeQueue
  import opened Waits
  import opened Errno

  /** What a handler may do to the event queue: schedule any event for later, give a pending one
      another time, or cancel any. */
  datatype Call = Schedule(id: Id, timeout: nat) | Reschedule(id: Id, timeout: nat) | Cancel(id: Id)

  type Handlers = map<Id, seq<Call>>

  function Handler(acts: Handlers, id: Id): seq<Call> {
    if id in acts then acts[id] else []
  }

  /** The queue, the events with the scheduled flag, and the history. */
  datatype World = World(l: seq<Due>, scheduled: set<Id>, made: multiset<Id>, handled: multiset<Id>, canceled: multiset<Id>)

  datatype Op = Invoke(call: Call) | Now(id: Id, calls: seq<Call>) | Pass(acts: Handlers)

  ghost predicate Delayed(calls: seq<Call>, max: nat) {
    forall i :: 0 <= i < |calls| ==> calls[i].id != Null && (!calls[i].Cancel? ==> 1 <= calls[i].timeout <= max)
  }

  ghost predicate Allowed(max: nat, op: Op) {
    match op
    case Invoke(call) => Delayed([call], max)
    case Now(id, calls) => Delayed(calls, max)
    case Pass(acts) => forall id :: id in acts ==> Delayed(acts[id], max)
  }

  /** The call is answered with 0: an idle event is scheduled, a pending one cancelled or moved. */
  ghost predicate Answered(w: World, call: Call) {
    call.Schedule? <==> call.id !in w.scheduled
  }

  /** What a call does to the queue and to the flags. */
  ghost function Effect(w: World, call: Call): World {
    match call
    case Schedule(id, t) =>
      if id in w.scheduled then w else w.(l := InsertDue(w.l, id, t), scheduled := w.scheduled + {id})
    case Reschedule(id, t) =>
      if id !in w.scheduled then w else w.(l := InsertDue(Forget(w.l, id), id, t))
    case Cancel(id) =>
      if id !in w.scheduled then w else w.(l := Forget(w.l, id), scheduled := w.scheduled - {id})
  }

  /** The effect, with the history kept from what is called and what it answers. */
  ghost function DoCall(w: World, call: Call): World {
    var one := if Answered(w, call) then multiset{call.id} else multiset{};
    Effect(w, call).(made := w.made + if call.Schedule? then one else multiset{},
                     canceled := w.canceled + if call.Cancel? then one else multiset{})
  }

  ghost function DoCalls(w: World, calls: seq<Call>): World
    decreases |calls|
  {
    if calls == [] then w else DoCalls(DoCall(w, calls[0]), calls[1..])
  }

  /** The flag says which events are in the queue, and nothing is lost or done twice. */
  ghost predicate Sound(w: World) {
    && Unique(w.l) && Sorted(w.l)
    && Times(w.l).Keys == w.scheduled
    && w.made == w.handled + w.canceled + multiset(w.scheduled)
    && Null !in w.scheduled
  }

  /** A call, case by case. */
  lemma CallIs(w: World, call: Call)
    ensures DoCall(w, call) ==
      match call
      case Schedule(id, t) =>
        if id in w.scheduled then w
        else w.(l := InsertDue(w.l, id, t), scheduled := w.scheduled + {id}, made := w.made + multiset{id})
      case Reschedule(id, t) => if id !in w.scheduled then w else w.(l := InsertDue(Forget(w.l, id), id, t))
      case Cancel(id) =>
        if id !in w.scheduled then w
        else w.(l := Forget(w.l, id), scheduled := w.scheduled - {id}, canceled := w.canceled + multiset{id})
  {
    hide InsertDue, Forget;
    assert w.made + multiset{} == w.made && w.canceled + multiset{} == w.canceled;
  }

  lemma CallKeeps(w: World, call: Call, max: nat)
    requires Sound(w) && Delayed([call], max)
    ensures Sound(DoCall(w, call)) && Zeros(DoCall(w, call).l) <= Zeros(w.l)
  {
    hide Sound, Zeros, InsertDue, Forget, DoCall;
    assert [call][0] == call;
    CallIs(w, call);
    match call
    case Schedule(id, t) =>
      if id !in w.scheduled {
        ScheduleKeeps(w, id, t);
      }
    case Reschedule(id, t) =>
      if id in w.scheduled {
        RescheduleKeeps(w, id, t);
      }
    case Cancel(id) =>
      if id in w.scheduled {
        CancelKeeps(w, id);
      }
  }

  lemma RescheduleKeeps(w: World, id: Id, t: nat)
    requires Sound(w) && id in w.scheduled && t >= 1
    ensures var w' := w.(l := InsertDue(Forget(w.l, id), id, t));
            Sound(w') && Zeros(w'.l) <= Zeros(w.l) && Times(w'.l) == Times(w.l)[id := t]
  {
    hide Unique, Sorted, Times, InsertDue, Forget, Zeros;
    var l := Forget(w.l, id);
    ForgetTimes(w.l, id);
    ForgetSorted(w.l, id);
    ForgetZeros(w.l, id);
    InsertDueTimes(l, id, t);
    var k := InsertDueSplits(l, id, t);
    ZerosInsert(l, id, t);
  }

  lemma ScheduleKeeps(w: World, id: Id, t: nat)
    requires Sound(w) && id !in w.scheduled && id != Null && t >= 1
    ensures var w' := w.(l := InsertDue(w.l, id, t), scheduled := w.scheduled + {id}, made := w.made + multiset{id});
            Sound(w') && Zeros(w'.l) <= Zeros(w.l)
  {
    hide Unique, Sorted, Times, InsertDue, Zeros;
    InsertDueTimes(w.l, id, t);
    var k := InsertDueSplits(w.l, id, t);
    ZerosInsert(w.l, id, t);
    assert multiset(w.scheduled + {id}) == multiset(w.scheduled) + multiset{id};
  }

  lemma CancelKeeps(w: World, id: Id)
    requires Sound(w) && id in w.scheduled
    ensures var w' := w.(l := Forget(w.l, id), scheduled := w.scheduled - {id}, canceled := w.canceled + multiset{id});
            Sound(w') && Zeros(w'.l) <= Zeros(w.l)
  {
    hide Unique, Sorted, Times, Forget, Zeros;
    ForgetTimes(w.l, id);
    ForgetSorted(w.l, id);
    ForgetZeros(w.l, id);
    assert multiset(w.scheduled) == multiset(w.scheduled - {id}) + multiset{id};
  }

  lemma {:induction false} CallsKeep(w: World, calls: seq<Call>, max: nat)
    requires Sound(w) && Delayed(calls, max)
    ensures Sound(DoCalls(w, calls)) && Zeros(DoCalls(w, calls).l) <= Zeros(w.l)
    decreases |calls|
  {
    hide Sound, Zeros, DoCall;
    if calls != [] {
      CallKeeps(w, calls[0], max);
      CallsKeep(DoCall(w, calls[0]), calls[1..], max);
    }
  }

  /** The event at the front, popped and handled. */
  ghost function Handled(w: World, acts: Handlers): World
    requires w.l != []
  {
    var id := w.l[0].id;
    DoCalls(w.(l := w.l[1..], scheduled := w.scheduled - {id}, handled := w.handled + multiset{id}), Handler(acts, id))
  }

  lemma HandledKeeps(w: World, acts: Handlers, max: nat)
    requires Sound(w) && w.l != [] && w.l[0].left == 0 && Allowed(max, Pass(acts))
    ensures Sound(Handled(w, acts)) && Zeros(Handled(w, acts).l) < Zeros(w.l)
  {
    hide DoCalls;
    var id := w.l[0].id;
    var w1 := w.(l := w.l[1..], scheduled := w.scheduled - {id}, handled := w.handled + multiset{id});
    assert id in w.scheduled && multiset(w.scheduled) == multiset(w.scheduled - {id}) + multiset{id};
    assert Times(w.l[1..]).Keys == w1.scheduled;
    CallsKeep(w1, Handler(acts, id), max);
  }

  /** The loop of z_event_q_process: it ends because handlers only schedule for later. */
  ghost function HandleAll(w: World, acts: Handlers, max: nat): World
    requires Sound(w) && Allowed(max, Pass(acts))
    decreases Zeros(w.l)
  {
    if w.l == [] || w.l[0].left != 0 then w
    else HandledKeeps(w, acts, max); HandleAll(Handled(w, acts), acts, max)
  }

  ghost function Aged(w: World, slice: nat): World {
    w.(l := Age(w.l, slice))
  }

  ghost function Apply(slice: nat, max: nat, w: World, op: Op): World {
    match op
    case Invoke(call) => DoCall(w, call)
    case Now(id, calls) => if id in w.scheduled then w else DoCalls(w, calls)
    case Pass(acts) => if Sound(Aged(w, slice)) && Allowed(max, op) then HandleAll(Aged(w, slice), acts, max) else w
  }

  lemma AgedSound(w: World, slice: nat)
    requires Sound(w)
    ensures Sound(Aged(w, slice))
  {
    hide Unique, Times;
    AgeTimes(w.l, slice);
  }

  /** After a pass nothing is due, and the events are all accounted for. */
  lemma {:induction false} HandleAllKeeps(w: World, acts: Handlers, max: nat)
    requires Sound(w) && Allowed(max, Pass(acts))
    ensures var w' := HandleAll(w, acts, max); Sound(w') && Zeros(w'.l) == 0
    decreases Zeros(w.l)
  {
    hide Sound, Handled;
    if w.l != [] && w.l[0].left == 0 {
      HandledKeeps(w, acts, max);
      HandleAllKeeps(Handled(w, acts), acts, max);
    }
  }

  lemma StepKeeps(slice: nat, max: nat, w: World, op: Op)
    requires Sound(w) && Allowed(max, op)
    ensures Sound(Apply(slice, max, w, op))
  {
    hide Sound, DoCall, DoCalls, HandleAll;
    match op
    case Invoke(call) => CallKeeps(w, call, max);
    case Now(id, calls) => CallsKeep(w, calls, max);
    case Pass(acts) =>
      AgedSound(w, slice);
      HandleAllKeeps(Aged(w, slice), acts, max);
  }

  // ----- when an event is handled -----

  ghost predicate IsDue(w: World, id: Id) {
    id in Times(w.l) && Times(w.l)[id] == 0
  }

  predicate Moves(call: Call, id: Id) {
    call.id == id && !call.Schedule?
  }

  ghost predicate Spares(calls: seq<Call>, id: Id) {
    forall i :: 0 <= i < |calls| ==> !Moves(calls[i], id)
  }

  ghost predicate SparedBy(op: Op, id: Id) {
    match op
    case Invoke(call) => !Moves(call, id)
    case Now(_, calls) => Spares(calls, id)
    case Pass(acts) => forall x :: Spares(Handler(acts, x), id)
  }

  /** A call leaves an event that it does not cancel or move alone, and makes none due. */
  lemma CallOn(w: World, call: Call, id: Id, max: nat)
    requires Sound(w) && Delayed([call], max)
    ensures var w' := DoCall(w, call);
            && w'.handled == w.handled
            && (IsDue(w', id) ==> IsDue(w, id))
            && (!Moves(call, id) && id in Times(w.l) ==> id in Times(w'.l) && Times(w'.l)[id] == Times(w.l)[id])
  {
    hide Unique, Sorted, Times, InsertDue, Forget;
    assert [call][0] == call;
    match call
    case Schedule(x, t) => if x !in w.scheduled { InsertDueTimes(w.l, x, t); }
    case Reschedule(x, t) => if x in w.scheduled { RescheduleKeeps(w, x, t); }
    case Cancel(x) => ForgetTimes(w.l, x);
  }

  lemma {:induction false} CallsOn(w: World, calls: seq<Call>, id: Id, max: nat)
    requires Sound(w) && Delayed(calls, max)
    ensures var w' := DoCalls(w, calls);
            && w'.handled == w.handled
            && (IsDue(w', id) ==> IsDue(w, id))
            && (Spares(calls, id) && id in Times(w.l) ==> id in Times(w'.l) && Times(w'.l)[id] == Times(w.l)[id])
    decreases |calls|
  {
    hide Sound, DoCall, Times, Zeros;
    if calls != [] {
      CallKeeps(w, calls[0], max);
      CallOn(w, calls[0], id, max);
      CallsOn(DoCall(w, calls[0]), calls[1..], id, max);
    }
  }

  /** The front event is handled; the others are due after it only if they were before. */
  lemma HandledOn(w: World, acts: Handlers, id: Id, max: nat)
    requires Sound(w) && w.l != [] && w.l[0].left == 0 && Allowed(max, Pass(acts))
    ensures var w', x := Handled(w, acts), w.l[0].id;
            && IsDue(w, x) && w'.handled == w.handled + multiset{x} && !IsDue(w', x)
            && (id != x && IsDue(w', id) ==> IsDue(w, id))
            && (id != x && Spares(Handler(acts, x), id) && id in Times(w.l) ==>
                  id in Times(w'.l) && Times(w'.l)[id] == Times(w.l)[id])
  {
    hide DoCalls, Spares;
    var x := w.l[0].id;
    var w1 := w.(l := w.l[1..], scheduled := w.scheduled - {x}, handled := w.handled + multiset{x});
    assert x in w.scheduled && multiset(w.scheduled) == multiset(w.scheduled - {x}) + multiset{x};
    assert Times(w.l[1..]).Keys == w1.scheduled;
    CallsOn(w1, Handler(acts, x), id, max);
    CallsOn(w1, Handler(acts, x), x, max);
  }

  /** In a pass an event is handled at most once, only if it is due, and certainly if it is
      due and no handler cancels or moves it; an event that is not due keeps its time. */
  lemma {:induction false} HandledExact(w: World, acts: Handlers, id: Id, max: nat)
    requires Sound(w) && Allowed(max, Pass(acts))
    ensures var w' := HandleAll(w, acts, max);
            && (!IsDue(w, id) ==> w'.handled[id] == w.handled[id])
            && w.handled[id] <= w'.handled[id] <= w.handled[id] + 1
            && (SparedBy(Pass(acts), id) && IsDue(w, id) ==> w'.handled[id] == w.handled[id] + 1)
            && (SparedBy(Pass(acts), id) && id in Times(w.l) && !IsDue(w, id) ==>
                  id in Times(w'.l) && Times(w'.l)[id] == Times(w.l)[id])
    decreases Zeros(w.l)
  {
    hide Sound, Handled, Times, Handler, Spares;
    if w.l != [] && w.l[0].left == 0 {
      HandledKeeps(w, acts, max);
      HandledOn(w, acts, id, max);
      HandledExact(Handled(w, acts), acts, id, max);
    } else {
      NotDue(w, id);
    }
  }

  lemma NotDue(w: World, id: Id)
    requires Sound(w) && (w.l == [] || w.l[0].left != 0)
    ensures !IsDue(w, id)
  {
    if id in Times(w.l) {
      NoneDue(w.l, id);
    }
  }

  // ----- runs -----

  ghost predicate Run(slice: nat, max: nat, ws: seq<World>, ops: seq<Op>) {
    && |ws| == |ops| + 1 && slice >= 1
    && ws[0] == World([], {}, multiset{}, multiset{}, multiset{})
    && forall i :: 0 <= i < |ops| ==> Allowed(max, ops[i]) && ws[i + 1] == Apply(slice, max, ws[i], ops[i])
  }

  lemma {:induction false} RunSound(slice: nat, max: nat, ws: seq<World>, ops: seq<Op>, i: nat)
    requires Run(slice, max, ws, ops) && i < |ws|
    ensures Sound(ws[i])
  {
    hide Apply, Allowed;
    if i > 0 {
      RunSound(slice, max, ws, ops, i - 1);
      StepKeeps(slice, max, ws[i - 1], ops[i - 1]);
    }
  }

  /** In every state of every run, for every event: the delayed schedules made are the
      handler calls, the cancels, and one more if it is pending; and it is pending exactly
      when it is in the queue. */
  lemma EventsConserved(slice: nat, max: nat, ws: seq<World>, ops: seq<Op>, i: nat, id: Id)
    requires Run(slice, max, ws, ops) && i < |ws|
    ensures ws[i].made[id] == ws[i].handled[id] + ws[i].canceled[id] + if id in ws[i].scheduled then 1 else 0
    ensures id in ws[i].scheduled <==> id in Times(ws[i].l)
  {
    hide Apply, Allowed, Unique, Sorted, Times;
    RunSound(slice, max, ws, ops, i);
  }

  function Passes(ops: seq<Op>, i: nat, j: nat): nat
    requires i <= j <= |ops|
    decreases j
  {
    if i == j then 0 else Passes(ops, i, j - 1) + if ops[j - 1].Pass? then 1 else 0
  }

  /** One operation that spares a pending event which it does not make due. */
  lemma WaitsOn(slice: nat, max: nat, w: World, op: Op, id: Id)
    requires Sound(w) && Allowed(max, op) && id in Times(w.l) && SparedBy(op, id)
    ensures var w', left := Apply(slice, max, w, op), Times(w.l)[id];
            if !op.Pass? then id in Times(w'.l) && Times(w'.l)[id] == left && w'.handled[id] == w.handled[id]
            else if left <= slice then w'.handled[id] == w.handled[id] + 1
            else id in Times(w'.l) && Times(w'.l)[id] == left - slice && w'.handled[id] == w.handled[id]
  {
    hide Sound, DoCall, DoCalls, HandleAll, Times, Spares, Handler, Delayed;
    match op
    case Invoke(call) => CallOn(w, call, id, max);
    case Now(x, calls) => CallsOn(w, calls, id, max);
    case Pass(acts) =>
      AgedSound(w, slice);
      AgeTimes(w.l, slice);
      HandledExact(Aged(w, slice), acts, id, max);
  }

  lemma {:induction false} TimeLeftTo(slice: nat, max: nat, ws: seq<World>, ops: seq<Op>, i: nat, j: nat, id: Id)
    requires Run(slice, max, ws, ops) && i <= j < |ws| && id in Times(ws[i].l)
    requires forall k :: i <= k < j ==> SparedBy(ops[k], id)
    requires Passes(ops, i, j) < WaitTicks(Times(ws[i].l)[id], slice)
    ensures id in Times(ws[j].l) && Times(ws[j].l)[id] + Spent(Passes(ops, i, j), slice) == Times(ws[i].l)[id]
    ensures ws[j].handled[id] == ws[i].handled[id]
    decreases j
  {
    hide Apply, Allowed, Sound, SparedBy, Times, WaitTicks;
    if i < j {
      var n := Passes(ops, i, j - 1);
      TimeLeftTo(slice, max, ws, ops, i, j - 1, id);
      RunSound(slice, max, ws, ops, j - 1);
      WaitsOn(slice, max, ws[j - 1], ops[j - 1], id);
      RoundedUp(Times(ws[i].l)[id], slice, n + 1);
    }
  }

  /** In every run: an event with t left at step i and spared until step j is handled by
      the pass at j exactly when that pass is the one its time asks for: the first if no time
      is left, otherwise t in passes, rounded up. */
  lemma HandledOnTime(slice: nat, max: nat, ws: seq<World>, ops: seq<Op>, i: nat, j: nat, id: Id)
    requires Run(slice, max, ws, ops) && i <= j < |ops| && id in Times(ws[i].l) && ops[j].Pass?
    requires forall k :: i <= k <= j ==> SparedBy(ops[k], id)
    requires Passes(ops, i, j) < WaitTicks(Times(ws[i].l)[id], slice)
    ensures ws[j + 1].handled[id] == ws[i].handled[id] +
            if Passes(ops, i, j) + 1 == WaitTicks(Times(ws[i].l)[id], slice) then 1 else 0
  {
    hide Apply, Allowed, Sound, SparedBy, Times, WaitTicks;
    var n := Passes(ops, i, j);
    TimeLeftTo(slice, max, ws, ops, i, j, id);
    RunSound(slice, max, ws, ops, j);
    WaitsOn(slice, max, ws[j], ops[j], id);
    RoundedUp(Times(ws[i].l)[id], slice, n + 1);
  }

  // ----- the time asked for -----

  /** The call asks for t, and is answered with 0. */
  ghost predicate Asks(w: World, call: Call, id: Id, t: nat) {
    (call == Schedule(id, t) || call == Reschedule(id, t)) && Answered(w, call)
  }

  lemma AskedIsLeft(w: World, call: Call, id: Id, t: nat, max: nat)
    requires Sound(w) && Delayed([call], max) && Asks(w, call, id, t)
    ensures id in Times(DoCall(w, call).l) && Times(DoCall(w, call).l)[id] == t && t >= 1
  {
    hide Unique, Sorted, Times, InsertDue, Forget, Zeros;
    assert [call][0] == call;
    if call.Schedule? {
      InsertDueTimes(w.l, id, t);
    } else {
      RescheduleKeeps(w, id, t);
    }
  }

  /** The n-th of the calls asks for t, and none behind it takes that back. */
  ghost predicate AsksAt(w: World, calls: seq<Call>, n: nat, id: Id, t: nat) {
    n < |calls| && Asks(DoCalls(w, calls[..n]), calls[n], id, t) && Spares(calls[n + 1..], id)
  }

  lemma {:induction false} CallsSplit(w: World, calls: seq<Call>, n: nat)
    requires n <= |calls|
    ensures DoCalls(w, calls) == DoCalls(DoCalls(w, calls[..n]), calls[n..])
    decreases n
  {
    hide DoCall;
    if n == 0 {
      assert calls[..0] == [] && calls[0..] == calls;
    } else {
      CallsSplit(DoCall(w, calls[0]), calls[1..], n - 1);
      assert calls[..n][1..] == calls[1..][..n - 1] && calls[1..][n - 1..] == calls[n..] && calls[..n][0] == calls[0];
    }
  }

  lemma AskedAtIsLeft(w: World, calls: seq<Call>, n: nat, id: Id, t: nat, max: nat)
    requires Sound(w) && Delayed(calls, max) && AsksAt(w, calls, n, id, t)
    ensures var w' := DoCalls(w, calls); id in Times(w'.l) && Times(w'.l)[id] == t && t >= 1 && Sound(w')
  {
    hide Sound, DoCall, Times, Spares, Asks, Zeros;
    var v := DoCalls(w, calls[..n]);
    CallsKeep(w, calls, max);
    CallsKeep(w, calls[..n], max);
    CallsSplit(w, calls, n);
    assert calls[n..][0] == calls[n] && calls[n..][1..] == calls[n + 1..];
    AskedIsLeft(v, calls[n], id, t, max);
    CallKeeps(v, calls[n], max);
    CallsOn(DoCall(v, calls[n]), calls[n + 1..], id, max);
  }

  /** The front event, popped: its handler begins. */
  ghost function Popped(w: World): World
    requires w.l != []
  {
    var x := w.l[0].id;
    w.(l := w.l[1..], scheduled := w.scheduled - {x}, handled := w.handled + multiset{x})
  }

  /** In a pass from w, the handler of x begins in the state v. */
  ghost predicate Begins(w: World, acts: Handlers, max: nat, x: Id, v: World)
    requires Sound(w) && Allowed(max, Pass(acts))
    decreases Zeros(w.l)
  {
    if w.l == [] || w.l[0].left != 0 then false
    else if w.l[0].id == x then v == Popped(w)
    else HandledKeeps(w, acts, max); Begins(Handled(w, acts), acts, max, x, v)
  }

  /** No handler but that of x cancels or moves the event. */
  ghost predicate OthersSpare(acts: Handlers, x: Id, id: Id) {
    forall y :: y != x ==> Spares(Handler(acts, y), id)
  }

  /** What the handler of x asked for is left at the end of the pass. */
  lemma {:induction false} HandlerAsks(w: World, acts: Handlers, max: nat, x: Id, v: World, n: nat, id: Id, t: nat)
    requires Sound(w) && Allowed(max, Pass(acts)) && Begins(w, acts, max, x, v)
    requires AsksAt(v, Handler(acts, x), n, id, t) && OthersSpare(acts, x, id)
    ensures var w' := HandleAll(w, acts, max); id in Times(w'.l) && Times(w'.l)[id] == t && t >= 1
    decreases Zeros(w.l)
  {
    hide Sound, Times, AsksAt, OthersSpare, DoCalls, Handled, Delayed;
    HandledKeeps(w, acts, max);
    if w.l[0].id == x {
      PoppedSound(w);
      HandlerDelayed(acts, max, x);
      AskedAtIsLeft(v, Handler(acts, x), n, id, t, max);
      HandledIs(w, acts);
      HandledOn(w, acts, x, max);
      AskedNotDue(Handled(w, acts), id, t);
      RestKeeps(Handled(w, acts), acts, max, x, id);
    } else {
      HandlerAsks(Handled(w, acts), acts, max, x, v, n, id, t);
    }
  }

  lemma PoppedSound(w: World)
    requires Sound(w) && w.l != []
    ensures Sound(Popped(w))
  {
    var x := w.l[0].id;
    assert x in w.scheduled && multiset(w.scheduled) == multiset(w.scheduled - {x}) + multiset{x};
    assert Times(w.l[1..]).Keys == w.scheduled - {x};
  }

  lemma HandlerDelayed(acts: Handlers, max: nat, x: Id)
    requires Allowed(max, Pass(acts))
    ensures Delayed(Handler(acts, x), max)
  {
  }

  lemma HandledIs(w: World, acts: Handlers)
    requires w.l != []
    ensures Handled(w, acts) == DoCalls(Popped(w), Handler(acts, w.l[0].id))
  {
  }

  lemma AskedNotDue(w: World, id: Id, t: nat)
    requires id in Times(w.l) && Times(w.l)[id] == t >= 1
    ensures !IsDue(w, id)
  {
  }

  /** The rest of a pass, after the handler of x, leaves an event alone that is not due. */
  lemma {:induction false} RestKeeps(w: World, acts: Handlers, max: nat, x: Id, id: Id)
    requires Sound(w) && Allowed(max, Pass(acts)) && !IsDue(w, x) && !IsDue(w, id) && id in Times(w.l) && OthersSpare(acts, x, id)
    ensures var w' := HandleAll(w, acts, max); id in Times(w'.l) && Times(w'.l)[id] == Times(w.l)[id]
    decreases Zeros(w.l)
  {
    hide Sound, Handled, Times, Handler, Spares;
    if w.l != [] && w.l[0].left == 0 {
      HandledKeeps(w, acts, max);
      HandledOn(w, acts, id, max);
      HandledOn(w, acts, x, max);
      RestKeeps(Handled(w, acts), acts, max, x, id);
    }
  }

  /**
    The operation gives the event the time t: by a schedule of an idle event or a reschedule of a
    pending one, called from outside, from the handler that k_event_schedule runs at once, or from
    the handler of an event x in a pass.
  */
  ghost predicate Sets(slice: nat, max: nat, w: World, op: Op, x: Id, v: World, n: nat, id: Id, t: nat) {
    match op
    case Invoke(call) => Asks(w, call, id, t)
    case Now(e, calls) => e !in w.scheduled && AsksAt(w, calls, n, id, t)
    case Pass(acts) =>
      && Sound(Aged(w, slice)) && Allowed(max, op) && Begins(Aged(w, slice), acts, max, x, v)
      && AsksAt(v, Handler(acts, x), n, id, t) && OthersSpare(acts, x, id)
  }

  lemma SetIsLeft(slice: nat, max: nat, w: World, op: Op, x: Id, v: World, n: nat, id: Id, t: nat)
    requires Sound(w) && Allowed(max, op) && Sets(slice, max, w, op, x, v, n, id, t)
    ensures var w' := Apply(slice, max, w, op); id in Times(w'.l) && Times(w'.l)[id] == t
  {
    hide Sound, DoCall, DoCalls, HandleAll, Times, AsksAt, Asks, OthersSpare, Delayed, Begins;
    match op
    case Invoke(call) => AskedIsLeft(w, call, id, t, max);
    case Now(e, calls) => AskedAtIsLeft(w, calls, n, id, t, max);
    case Pass(acts) => HandlerAsks(Aged(w, slice), acts, max, x, v, n, id, t);
  }

  /** In every run: an event that a call at step i asks to be handled after t, and that is spared
      afterwards, is handled by exactly the pass that t asks for: t in passes, rounded up. */
  lemma HandledAsAsked(slice: nat, max: nat, ws: seq<World>, ops: seq<Op>, i: nat, j: nat, x: Id, v: World, n: nat, id: Id, t: nat)
    requires Run(slice, max, ws, ops) && i < j < |ops| && ops[j].Pass? && Sets(slice, max, ws[i], ops[i], x, v, n, id, t)
    requires forall k :: i < k <= j ==> SparedBy(ops[k], id)
    requires Passes(ops, i + 1, j) < WaitTicks(t, slice)
    ensures ws[j + 1].handled[id] == ws[i + 1].handled[id] + if Passes(ops, i + 1, j) + 1 == WaitTicks(t, slice) then 1 else 0
  {
    hide Apply, Allowed, Sound, SparedBy, Times, WaitTicks, Sets;
    RunSound(slice, max, ws, ops, i);
    SetIsLeft(slice, max, ws[i], ops[i], x, v, n, id, t);
    HandledOnTime(slice, max, ws, ops, i + 1, j, id);
  }

  // ----- the event queue -----

  lemma QueueFacts(q: seq<Entry>, w: World)
    requires Sound(w) && w.l == Dues(q)
    ensures Items(q) == w.scheduled && UniqueItems(q) && Null !in w.scheduled
  {
    hide Dues, Items, Unique, UniqueItems, Times;
    ItemsAreDues(q, 0);
    UniqueAreDues(q, 0);
  }

  /** What the front of the queue means for the loop. */
  lemma FrontFacts(q: seq<Entry>, w: World, acts: Handlers, max: nat)
    requires Sound(w) && w.l == Dues(q) && Allowed(max, Pass(acts))
    ensures (q == [] <==> w.l == []) && (q != [] ==> w.l[0] == Due(q[0].id, q[0].delay))
    ensures q != [] && q[0].delay == 0 ==> w.l[1..] == Dues(q[1..]) && Delayed(Handler(acts, q[0].id), max)
    ensures if q == [] || q[0].delay != 0 then HandleAll(w, acts, max) == w
            else && Sound(w.(l := w.l[1..], scheduled := w.scheduled - {q[0].id}, handled := w.handled + multiset{q[0].id}))
                 && Sound(Handled(w, acts)) && Zeros(Handled(w, acts).l) < Zeros(w.l)
                 && HandleAll(w, acts, max) == HandleAll(Handled(w, acts), acts, max)
  {
    hide Dues, Handled;
    if q != [] {
      DuesCons(q, 0);
      if q[0].delay == 0 {
        HandledKeeps(w, acts, max);
        var x := q[0].id;
        assert x in w.scheduled && multiset(w.scheduled) == multiset(w.scheduled - {x}) + multiset{x};
        assert Times(w.l[1..]).Keys == w.scheduled - {x};
      }
    }
  }

  class EventQueue {
    const mem: Memory
    const queue: TQueue
    const slice: nat
    const max: nat
    var scheduled: set<Id>
    ghost var made: multiset<Id>
    ghost var handled: multiset<Id>
    ghost var canceled: multiset<Id>

    ghost function W(): World
      reads this, queue
    {
      World(Dues(queue.q), scheduled, made, handled, canceled)
    }

    ghost predicate Valid()
      reads this, queue, mem
    {
      queue.mem == mem && queue.max == max && slice <= max && queue.Valid() && Sound(W())
    }

    constructor (slice: nat, max: nat)
      requires slice <= max
      ensures Valid() && this.slice == slice && this.max == max && fresh(queue) && fresh(mem)
      ensures W() == World([], {}, multiset{}, multiset{}, multiset{})
    {
      var m := new Memory();
      mem := m;
      queue := new TQueue(m, max);
      this.slice, this.max, scheduled := slice, max, {};
      made, handled, canceled := multiset{}, multiset{}, multiset{};
    }

    /** k_event_schedule with a delay, z_event_reschedule and k_event_cancel. */
    method Invoke(call: Call) returns (ret: int)
      requires Valid() && Delayed([call], max)
      modifies this, queue, mem
      ensures Valid() && W() == DoCall(old(W()), call) && handled == old(handled)
      ensures ret == if !call.Reschedule? && (call.Schedule? <==> call.id in old(scheduled)) then EAGAIN else 0
    {
      hide Dues, Seg, Items, Total, UniqueItems, Times, Unique, Sorted, Insert, InsertDue, Delete, Forget, Sound, DoCall;
      CallIs(W(), call);
      assert [call][0] == call;
      CallKeeps(W(), call, max);
      QueueFacts(queue.q, W());
      var id := call.id;
      if call.Schedule? {
        if id in scheduled {
          return EAGAIN;
        }
        InsertMeans(queue.q, id, call.timeout, 0);
        scheduled := scheduled + {id};
        queue.Schedule(id, call.timeout);
        made := made + multiset{id};
      } else if call.Reschedule? {
        DeleteMeans(queue.q, id, 0);
        InsertMeans(Delete(queue.q, id), id, call.timeout, 0);
        var r := queue.Reschedule(id, call.timeout);
      } else {
        if id !in scheduled {
          return EAGAIN;
        }
        DeleteMeans(queue.q, id, 0);
        var r := queue.Remove(id);
        scheduled := scheduled - {id};
        canceled := canceled + multiset{id};
      }
      return 0;
    }

    /** The calls a handler makes. */
    method Execute(calls: seq<Call>)
      requires Valid() && Delayed(calls, max)
      modifies this, queue, mem
      ensures Valid() && W() == DoCalls(old(W()), calls)
    {
      hide Dues, Sound, DoCall;
      for i := 0 to |calls|
        invariant Valid() && DoCalls(W(), calls[i..]) == DoCalls(old(W()), calls)
      {
        assert calls[i..][0] == calls[i] && calls[i..][1..] == calls[i + 1..];
        var r := Invoke(calls[i]);
      }
    }

    /** k_event_schedule without a delay: the handler runs at once. */
    method ScheduleNow(id: Id, calls: seq<Call>) returns (ret: int)
      requires Valid() && Delayed(calls, max)
      modifies this, queue, mem
      ensures Valid() && W() == Apply(slice, max, old(W()), Now(id, calls))
      ensures ret == if id in old(scheduled) then EAGAIN else 0
    {
      hide Dues, Sound, DoCalls;
      if id in scheduled {
        return EAGAIN;
      }
      Execute(calls);
      return 0;
    }

    /** k_event_pending. */
    method Pending(id: Id) returns (pending: bool)
      requires Valid()
      ensures pending <==> id in Items(queue.q)
    {
      QueueFacts(queue.q, W());
      pending := id in scheduled;
    }

    /** z_event_q_process: `acts` is what the handlers do. */
    method Process(acts: Handlers)
      requires Valid() && Allowed(max, Op.Pass(acts))
      modifies this, queue, mem
      ensures Valid() && W() == Apply(slice, max, old(W()), Op.Pass(acts))
    {
      hide Dues, Seg, Items, Total, Shift, UniqueItems, Sound, HandleAll, Handled, Zeros, Delayed;
      ShiftMeans(queue.q, slice, 0);
      AgedSound(W(), slice);
      queue.Elapse(slice);
      ghost var w0 := W();
      while true
        invariant Valid() && Sound(w0) && HandleAll(W(), acts, max) == HandleAll(w0, acts, max)
        decreases Zeros(W().l)
      {
        FrontFacts(queue.q, W(), acts, max);
        var more := HandleOne(acts);
        if !more {
          break;
        }
      }
    }

    /** One round of the loop of z_event_q_process. */
    method HandleOne(acts: Handlers) returns (more: bool)
      requires Valid() && Allowed(max, Op.Pass(acts))
      modifies this, queue, mem
      ensures Valid()
      ensures if old(W()).l != [] && old(W()).l[0].left == 0 then more && W() == Handled(old(W()), acts)
              else !more && W() == old(W())
    {
      hide Dues, Seg, Items, Total, UniqueItems, Sound, HandleAll, Zeros, DoCalls, Delayed;
      FrontFacts(queue.q, W(), acts, max);
      var id := queue.Pop();
      if id == Null {
        return false;
      }
      scheduled := scheduled - {id};
      handled := handled + multiset{id};
      Execute(Handler(acts, id));
      return true;
    }
  }
}
