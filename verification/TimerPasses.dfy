/**
  The software timers of src/avrtos/timer.c, on the list of the times left to the running
  ones: what the calls and one processing pass do, whatever the handlers do.
*/
module TimerPasses {
  import opened Links
  import opened DeltaQueue

  /** `max` is the largest k_delta_t: K_FOREVER, and the mark of a stopped timer. */
  datatype Config = Config(slice: nat, max: nat)

  datatype Timers = Timers(l: seq<Due>, periods: map<Id, nat>)

  datatype Call = Start(id: Id, delay: nat) | Stop(id: Id)

  /** What a handler does: calls on timers, its own among them, and its return code. */
  datatype Act = Act(calls: seq<Call>, ret: int)

  type Acts = map<Id, Act>

  /** A handler that is not listed does nothing and returns 0. */
  function ActOf(acts: Acts, id: Id): Act {
    if id in acts then acts[id] else Act([], 0)
  }

  /** The timer is queued but carries the mark of a stopped one: all the time there is is left
      to it, and none to the timers before it. */
  ghost predicate Hidden(max: nat, l: seq<Due>, id: Id) {
    exists i :: 0 <= i < |l| && l[i] == Due(id, max) && (i == 0 || l[i - 1].left == 0)
  }

  /** k_timer_start and k_timer_stop: both go by the mark. */
  ghost function DoCall(c: Config, s: Timers, call: Call): Timers {
    match call
    case Start(id, delay) =>
      if id in Times(s.l) || id !in s.periods || delay >= c.max then s else s.(l := InsertDue(s.l, id, delay))
    case Stop(id) => if Hidden(c.max, s.l, id) then s else s.(l := Forget(s.l, id))
  }

  /** A call made by the handler of `own`, which is popped: its own timer counts as running, so
      starting it does nothing, and stopping it only sets the mark. */
  ghost function HandlerCall(c: Config, s: Timers, call: Call, own: Id): Timers {
    if call.id == own then s else DoCall(c, s, call)
  }

  ghost function DoCalls(c: Config, s: Timers, calls: seq<Call>, own: Id): Timers
    decreases |calls|
  {
    if calls == [] then s else DoCalls(c, HandlerCall(c, s, calls[0], own), calls[1..], own)
  }

  /** The handler's timer is re-armed: it returns 0 and does not stop its own timer. */
  predicate Rearms(act: Act, own: Id) {
    act.ret == 0 && Stop(own) !in act.calls
  }

  /** The call is on a timer that was initialised, and does not link a queued timer again. */
  ghost predicate CallSafe(c: Config, s: Timers, call: Call) {
    && call.id in s.periods
    && (call.Start? ==> call.delay <= c.max && (Hidden(c.max, s.l, call.id) ==> call.delay == c.max))
  }

  ghost predicate CallsSafe(c: Config, s: Timers, calls: seq<Call>, own: Id)
    decreases |calls|
  {
    || calls == []
    || ((if calls[0].id == own then calls[0].Start? ==> calls[0].delay <= c.max else CallSafe(c, s, calls[0]))
        && CallsSafe(c, HandlerCall(c, s, calls[0], own), calls[1..], own))
  }

  /** The running timers are in order, each once, each with a period, and no time exceeds K_FOREVER. */
  ghost predicate Sound(c: Config, s: Timers) {
    && c.slice >= 1 && Null !in s.periods
    && Unique(s.l) && Sorted(s.l) && Bounded(c, s)
  }

  ghost predicate Bounded(c: Config, s: Timers) {
    forall d :: d in s.l ==> d.left <= c.max && d.id in s.periods && 1 <= s.periods[d.id] <= c.max
  }

  /** Handlers start other timers for later, and their own timer not after stopping it. */
  ghost predicate Later(calls: seq<Call>, own: Id) {
    && (forall i :: 0 <= i < |calls| && calls[i].Start? && calls[i].id != own ==> calls[i].delay >= 1)
    && (forall i, j :: 0 <= j < i < |calls| && calls[i].Start? && calls[i].id == own ==> calls[j] != Stop(own))
  }

  ghost predicate WellActs(acts: Acts) {
    forall x :: Later(ActOf(acts, x).calls, x)
  }

  // ----- one call -----

  lemma QueuedKeeps(c: Config, s: Timers, id: Id, t: nat)
    requires Sound(c, s) && id !in Times(s.l) && t <= c.max && id in s.periods && 1 <= s.periods[id] <= c.max
    ensures Sound(c, s.(l := InsertDue(s.l, id, t)))
    ensures Times(InsertDue(s.l, id, t)) == Times(s.l)[id := t]
  {
    hide Unique, Sorted, Times, InsertDue;
    InsertDueTimes(s.l, id, t);
    var k := InsertDueSplits(s.l, id, t);
    InsertDueMembers(s.l, id, t);
  }

  lemma StopKeeps(c: Config, s: Timers, id: Id)
    requires Sound(c, s)
    ensures Sound(c, s.(l := Forget(s.l, id))) && Times(Forget(s.l, id)) == Times(s.l) - {id}
    ensures Zeros(Forget(s.l, id)) <= Zeros(s.l)
  {
    hide Unique, Sorted, Times, Forget, Zeros;
    ForgetTimes(s.l, id);
    ForgetSorted(s.l, id);
    ForgetZeros(s.l, id);
  }

  /** Every initialised timer has a period. */
  ghost predicate Periodic(c: Config, s: Timers) {
    forall id :: id in s.periods ==> 1 <= s.periods[id] <= c.max
  }

  lemma CallKeeps(c: Config, s: Timers, call: Call)
    requires Sound(c, s) && Periodic(c, s)
    ensures Sound(c, DoCall(c, s, call)) && DoCall(c, s, call).periods == s.periods && Periodic(c, DoCall(c, s, call))
    ensures (call.Start? ==> call.delay >= 1) ==> Zeros(DoCall(c, s, call).l) <= Zeros(s.l)
  {
    hide Unique, Sorted, Times, InsertDue, Forget, Zeros, Hidden, Sound;
    match call
    case Start(id, t) =>
      if id !in Times(s.l) && id in s.periods && t < c.max {
        QueuedKeeps(c, s, id, t);
        if t >= 1 {
          ZerosInsert(s.l, id, t);
        }
      }
    case Stop(id) => StopKeeps(c, s, id);
  }

  lemma {:induction false} CallsKeep(c: Config, s: Timers, calls: seq<Call>, own: Id)
    requires Sound(c, s) && Periodic(c, s) && Later(calls, own)
    ensures var s' := DoCalls(c, s, calls, own); Sound(c, s') && s'.periods == s.periods && Zeros(s'.l) <= Zeros(s.l)
    decreases |calls|
  {
    hide Sound, Zeros, DoCall;
    if calls != [] {
      CallKeeps(c, s, calls[0]);
      CallsKeep(c, HandlerCall(c, s, calls[0], own), calls[1..], own);
    }
  }

  // ----- one pass -----

  datatype Round = Round(s: Timers, fired: seq<Id>)

  /** The timer at the front, popped: its handler runs, and it is re-armed unless that stops it or
      returns something else than 0. */
  ghost function FireOne(c: Config, s: Timers, acts: Acts): Timers
    requires s.l != []
  {
    var x := s.l[0].id;
    var s1 := DoCalls(c, s.(l := s.l[1..]), ActOf(acts, x).calls, x);
    if Rearms(ActOf(acts, x), x) && x in s1.periods then s1.(l := InsertDue(s1.l, x, s1.periods[x])) else s1
  }

  ghost predicate IsDue(s: Timers, id: Id) {
    id in Times(s.l) && Times(s.l)[id] == 0
  }

  lemma PopKeeps(c: Config, s: Timers)
    requires Sound(c, s) && s.l != [] && s.l[0].left == 0
    ensures Sound(c, s.(l := s.l[1..])) && Zeros(s.l[1..]) < Zeros(s.l)
    ensures s.l[0].id in s.periods
  {
    FirstDue(s.l);
    assert s.l[0] in s.l;
  }

  lemma FireOneKeeps(c: Config, s: Timers, acts: Acts)
    requires Sound(c, s) && Periodic(c, s) && WellActs(acts) && s.l != [] && s.l[0].left == 0
    ensures var s' := FireOne(c, s, acts); Sound(c, s') && Periodic(c, s') && s'.periods == s.periods && Zeros(s'.l) < Zeros(s.l)
  {
    hide Sound, Zeros, DoCalls, InsertDue, Times, Later;
    var x := s.l[0].id;
    var calls := ActOf(acts, x).calls;
    PopKeeps(c, s);
    FirstGone(c, s);
    CallsKeep(c, s.(l := s.l[1..]), calls, x);
    CallsOn(c, s.(l := s.l[1..]), calls, x, x);
    var s1 := DoCalls(c, s.(l := s.l[1..]), calls, x);
    QueuedKeeps(c, s1, x, s.periods[x]);
    ZerosInsert(s1.l, x, s.periods[x]);
  }

  lemma FirstGone(c: Config, s: Timers)
    requires Sound(c, s) && s.l != []
    ensures s.l[0].id !in Times(s.l[1..]) && s.l[0].id in Times(s.l) && Times(s.l)[s.l[0].id] == s.l[0].left
    ensures forall id :: id != s.l[0].id ==>
              (id in Times(s.l[1..]) <==> id in Times(s.l)) && (id in Times(s.l) ==> Times(s.l[1..])[id] == Times(s.l)[id])
  {
    FirstDue(s.l);
  }

  ghost predicate Spares(calls: seq<Call>, id: Id) {
    forall i :: 0 <= i < |calls| ==> calls[i] != Stop(id)
  }

  ghost predicate Unstarted(calls: seq<Call>, id: Id) {
    forall i :: 0 <= i < |calls| ==> calls[i].Stop? || calls[i].id != id
  }

  /** A call leaves a queued timer that it does not stop alone, makes none due, and queues none
      that it does not start. */
  lemma CallOn(c: Config, s: Timers, call: Call, id: Id)
    requires Sound(c, s) && Periodic(c, s) && (call.Start? ==> call.delay >= 1)
    ensures var s' := DoCall(c, s, call);
            && (IsDue(s', id) ==> IsDue(s, id))
            && (call != Stop(id) && id in Times(s.l) ==> id in Times(s'.l) && Times(s'.l)[id] == Times(s.l)[id])
            && ((call.Stop? || call.id != id) && id in Times(s'.l) ==> id in Times(s.l))
  {
    hide Unique, Sorted, Times, InsertDue, Forget, Hidden, Sound;
    match call
    case Start(x, t) => if x !in Times(s.l) && x in s.periods && t < c.max { QueuedKeeps(c, s, x, t); }
    case Stop(x) => StopKeeps(c, s, x);
  }

  lemma {:induction false} CallsOn(c: Config, s: Timers, calls: seq<Call>, own: Id, id: Id)
    requires Sound(c, s) && Periodic(c, s) && Later(calls, own)
    ensures var s' := DoCalls(c, s, calls, own);
            && (IsDue(s', id) ==> IsDue(s, id))
            && ((id == own || Spares(calls, id)) && id in Times(s.l) ==> id in Times(s'.l) && Times(s'.l)[id] == Times(s.l)[id])
            && ((id == own || Unstarted(calls, id)) && id in Times(s'.l) ==> id in Times(s.l))
    decreases |calls|
  {
    hide Sound, DoCall, Times, Zeros;
    if calls != [] {
      CallKeeps(c, s, calls[0]);
      if calls[0].id != own {
        CallOn(c, s, calls[0], id);
      }
      CallsOn(c, HandlerCall(c, s, calls[0], own), calls[1..], own, id);
    }
  }

  /** One timer fires: it is not due again, it is re-armed if and only if its handler returns 0
      and does not stop it, and the others are due afterwards only if they were before. */
  lemma FireOneOn(c: Config, s: Timers, acts: Acts, id: Id)
    requires Sound(c, s) && Periodic(c, s) && WellActs(acts) && s.l != [] && s.l[0].left == 0
    ensures var s', x := FireOne(c, s, acts), s.l[0].id;
            && IsDue(s, x) && !IsDue(s', x) && x in s.periods
            && (if Rearms(ActOf(acts, x), x) then x in Times(s'.l) && Times(s'.l)[x] == s.periods[x] else x !in Times(s'.l))
            && (id != x && IsDue(s', id) ==> IsDue(s, id))
            && (id != x && Spares(ActOf(acts, x).calls, id) && id in Times(s.l) ==>
                  id in Times(s'.l) && Times(s'.l)[id] == Times(s.l)[id])
            && (id != x && Unstarted(ActOf(acts, x).calls, id) && id in Times(s'.l) ==> id in Times(s.l))
  {
    hide Sound, Zeros, DoCalls, InsertDue, Times, Spares, Unstarted, Later;
    var x := s.l[0].id;
    var calls, s0 := ActOf(acts, x).calls, s.(l := s.l[1..]);
    PopKeeps(c, s);
    FirstGone(c, s);
    CallsKeep(c, s0, calls, x);
    CallsOn(c, s0, calls, x, id);
    CallsOn(c, s0, calls, x, x);
    var s1 := DoCalls(c, s0, calls, x);
    QueuedKeeps(c, s1, x, s.periods[x]);
  }

  /** The loop of z_timers_process: it ends because nothing becomes due while it runs. */
  ghost function FireAll(c: Config, s: Timers, acts: Acts): Round
    requires Sound(c, s) && Periodic(c, s) && WellActs(acts)
    decreases Zeros(s.l)
  {
    if s.l == [] || s.l[0].left != 0 then Round(s, [])
    else
      FireOneKeeps(c, s, acts);
      var r := FireAll(c, FireOne(c, s, acts), acts);
      r.(fired := [s.l[0].id] + r.fired)
  }

  /** Every call that a handler makes in the pass is safe when it is made. */
  ghost predicate PassSafe(c: Config, s: Timers, acts: Acts)
    requires Sound(c, s) && Periodic(c, s) && WellActs(acts)
    decreases Zeros(s.l)
  {
    if s.l == [] || s.l[0].left != 0 then true
    else
      FireOneKeeps(c, s, acts);
      CallsSafe(c, s.(l := s.l[1..]), ActOf(acts, s.l[0].id).calls, s.l[0].id) && PassSafe(c, FireOne(c, s, acts), acts)
  }

  lemma {:induction false} FireKeeps(c: Config, s: Timers, acts: Acts)
    requires Sound(c, s) && Periodic(c, s) && WellActs(acts)
    ensures var r := FireAll(c, s, acts); Sound(c, r.s) && r.s.periods == s.periods && Zeros(r.s.l) == 0
    decreases Zeros(s.l)
  {
    hide Sound, FireOne;
    if s.l != [] && s.l[0].left == 0 {
      FireOneKeeps(c, s, acts);
      FireKeeps(c, FireOne(c, s, acts), acts);
    }
  }

  /** No handler of another timer stops it. */
  ghost predicate SparedBy(acts: Acts, id: Id) {
    forall x :: x != id ==> Spares(ActOf(acts, x).calls, id)
  }

  /** No handler of another timer starts it. */
  ghost predicate StartedByNone(acts: Acts, id: Id) {
    forall x :: x != id ==> Unstarted(ActOf(acts, x).calls, id)
  }

  /**
    What a pass does to one timer, whatever the handlers do to others.  It fires only if it is due.
    If no other handler stops it, it fires if it is due, a timer that is not due keeps its time, and
    one that fires is re-armed with its period when its handler returns 0 and does not stop it.  If
    no other handler starts it either, it is out of the queue when its handler does otherwise.
  */
  lemma {:induction false} FireExact(c: Config, s: Timers, acts: Acts, id: Id)
    requires Sound(c, s) && Periodic(c, s) && WellActs(acts)
    ensures var r := FireAll(c, s, acts);
            && (id in r.fired ==> IsDue(s, id))
            && (SparedBy(acts, id) && IsDue(s, id) ==> id in r.fired)
            && (SparedBy(acts, id) && id in Times(s.l) && !IsDue(s, id) ==>
                  id in Times(r.s.l) && Times(r.s.l)[id] == Times(s.l)[id])
            && (SparedBy(acts, id) && IsDue(s, id) && Rearms(ActOf(acts, id), id) ==>
                  id in Times(r.s.l) && id in s.periods && Times(r.s.l)[id] == s.periods[id])
            && (StartedByNone(acts, id) && id in Times(r.s.l) ==> id in Times(s.l))
            && (SparedBy(acts, id) && StartedByNone(acts, id) && IsDue(s, id) && !Rearms(ActOf(acts, id), id) ==> id !in Times(r.s.l))
    decreases Zeros(s.l)
  {
    hide Sound, FireOne, Times, ActOf, Rearms, Spares, Unstarted, Zeros;
    if s.l != [] && s.l[0].left == 0 {
      FireOneKeeps(c, s, acts);
      FireOneOn(c, s, acts, id);
      FireExact(c, FireOne(c, s, acts), acts, id);
    } else {
      NobodyDue(c, s, id);
    }
  }

  lemma NobodyDue(c: Config, s: Timers, id: Id)
    requires Sound(c, s) && (s.l == [] || s.l[0].left != 0)
    ensures !IsDue(s, id)
  {
    if id in Times(s.l) {
      NoneDue(s.l, id);
    }
  }

  lemma {:induction false} FiredOnce(c: Config, s: Timers, acts: Acts)
    requires Sound(c, s) && Periodic(c, s) && WellActs(acts)
    ensures Distinct(FireAll(c, s, acts).fired)
    decreases Zeros(s.l)
  {
    hide Sound, FireOne, IsDue, Zeros;
    if s.l != [] && s.l[0].left == 0 {
      var s', x := FireOne(c, s, acts), s.l[0].id;
      FireOneKeeps(c, s, acts);
      FireOneOn(c, s, acts, x);
      FiredOnce(c, s', acts);
      FireExact(c, s', acts, x);
    }
  }
}
