/** Runs of the timer module: any calls between any number of passes. */
module TimerRuns {
  import opened Links
  import opened DeltaQueue
  import opened Waits
  import opened TimerPasses

  datatype Op =
    | Init(id: Id, period: nat, delay: nat)
    | Invoke(call: Call)
    | Pass(acts: Acts)

  /** A timer is not initialised while it is queued; calls, also those of the handlers, do not
      link a queued timer again. */
  ghost predicate Allowed(c: Config, s: Timers, op: Op) {
    match op
    case Init(id, period, delay) => id != Null && id !in Times(s.l) && period <= c.max && delay <= c.max
    case Invoke(call) => CallSafe(c, s, call)
    case Pass(acts) => WellActs(acts) && (Sound(c, Aged(c, s)) && Periodic(c, s) ==> PassSafe(c, Aged(c, s), acts))
  }

  ghost function Aged(c: Config, s: Timers): Timers {
    s.(l := Age(s.l, c.slice))
  }

  /** One pass; the list is always sound, see `RunSound`. */
  ghost function Processed(c: Config, s: Timers, acts: Acts): Round {
    if Sound(c, Aged(c, s)) && Periodic(c, s) && WellActs(acts) then FireAll(c, Aged(c, s), acts) else Round(s, [])
  }

  ghost function Apply(c: Config, s: Timers, op: Op): Timers {
    match op
    case Init(id, period, delay) =>
      if period == 0 then s
      else if period == c.max then s.(periods := s.periods[id := period])
      else Timers(InsertDue(s.l, id, delay), s.periods[id := period])
    case Invoke(call) => DoCall(c, s, call)
    case Pass(acts) => Processed(c, s, acts).s
  }

  /** The timers that fire in a pass, in order. */
  ghost function Fired(c: Config, s: Timers, acts: Acts): seq<Id> {
    Processed(c, s, acts).fired
  }

  // ----- every operation keeps the list sound -----

  lemma AgedSound(c: Config, s: Timers)
    requires Sound(c, s)
    ensures Sound(c, Aged(c, s))
    ensures Times(Aged(c, s).l).Keys == Times(s.l).Keys
    ensures forall id :: id in Times(s.l) ==> Times(Aged(c, s).l)[id] == Minus(Times(s.l)[id], c.slice)
  {
    hide Unique, Times;
    AgeTimes(s.l, c.slice);
  }

  lemma InitKeeps(c: Config, s: Timers, id: Id, period: nat, delay: nat)
    requires Sound(c, s) && Periodic(c, s) && Allowed(c, s, Init(id, period, delay)) && period > 0
    ensures var s' := Apply(c, s, Init(id, period, delay)); Sound(c, s') && Periodic(c, s')
    ensures forall x :: x != id && x in Times(s.l) ==>
              var s' := Apply(c, s, Init(id, period, delay)); x in Times(s'.l) && Times(s'.l)[x] == Times(s.l)[x]
  {
    hide Unique, Sorted, Times, InsertDue;
    var s1 := s.(periods := s.periods[id := period]);
    Reperiod(c, s, id, period);
    if period != c.max {
      QueuedKeeps(c, s1, id, delay);
    }
  }

  lemma Reperiod(c: Config, s: Timers, id: Id, period: nat)
    requires Sound(c, s) && Periodic(c, s) && id !in Times(s.l) && id != Null && 1 <= period <= c.max
    ensures Sound(c, s.(periods := s.periods[id := period])) && Periodic(c, s.(periods := s.periods[id := period]))
  {
    hide Unique, Times;
    forall d | d in s.l ensures d.id != id {
      TimesMember(s.l, d.id);
    }
  }

  lemma StepKeeps(c: Config, s: Timers, op: Op)
    requires Sound(c, s) && Periodic(c, s) && Allowed(c, s, op)
    ensures Sound(c, Apply(c, s, op)) && Periodic(c, Apply(c, s, op))
  {
    hide Sound, DoCall, FireAll, Aged, CallSafe, PassSafe, WellActs;
    match op
    case Init(id, period, delay) => if period > 0 { InitKeeps(c, s, id, period, delay); }
    case Invoke(call) => CallKeeps(c, s, call);
    case Pass(acts) =>
      AgedSound(c, s);
      AgedPeriods(c, s);
      FireKeeps(c, Aged(c, s), acts);
  }

  lemma AgedPeriods(c: Config, s: Timers)
    requires Periodic(c, s)
    ensures Aged(c, s).periods == s.periods && Periodic(c, Aged(c, s))
  {
  }

  ghost predicate Run(c: Config, ss: seq<Timers>, ops: seq<Op>) {
    && |ss| == |ops| + 1 && c.slice >= 1
    && ss[0] == Timers([], map[])
    && forall i :: 0 <= i < |ops| ==> Allowed(c, ss[i], ops[i]) && ss[i + 1] == Apply(c, ss[i], ops[i])
  }

  /** In every state of every run the queued timers are in order, each once, with a period, and
      no time exceeds K_FOREVER. */
  lemma {:induction false} RunSound(c: Config, ss: seq<Timers>, ops: seq<Op>, i: nat)
    requires Run(c, ss, ops) && i < |ss|
    ensures Sound(c, ss[i]) && Periodic(c, ss[i])
  {
    hide Apply, Allowed;
    if i > 0 {
      RunSound(c, ss, ops, i - 1);
      StepKeeps(c, ss[i - 1], ops[i - 1]);
    }
  }

  // ----- when a timer fires -----

  /** The time left to a timer, started with d and re-armed with p, after n passes. */
  function Remaining(d: nat, p: nat, slice: nat, n: nat): nat {
    if n == 0 then d
    else
      var r := Remaining(d, p, slice, n - 1);
      if r <= slice then p else r - slice
  }

  /** The passes in which it should fire: after the start delay, then once a period. */
  predicate Hits(d: nat, p: nat, slice: nat, n: nat)
    requires slice >= 1
  {
    var first, every := WaitTicks(d, slice), WaitTicks(p, slice);
    n >= first && every >= 1 && (n - first) % every == 0
  }

  lemma {:induction false} Countdown(d: nat, p: nat, slice: nat, k: nat)
    requires slice >= 1 && k < WaitTicks(d, slice)
    ensures Remaining(d, p, slice, k) + Spent(k, slice) == d
    ensures Remaining(d, p, slice, k) <= slice <==> k + 1 == WaitTicks(d, slice)
  {
    hide WaitTicks;
    RoundedUp(d, slice, k + 1);
    if k > 0 {
      RoundedUp(d, slice, k);
      Countdown(d, p, slice, k - 1);
    }
  }

  lemma {:induction false} Restart(d: nat, p: nat, slice: nat, m: nat, n: nat)
    ensures Remaining(d, p, slice, m + n) == Remaining(Remaining(d, p, slice, m), p, slice, n)
  {
    if n > 0 {
      Restart(d, p, slice, m, n - 1);
    }
  }

  lemma {:induction false} FiresWhen(d: nat, p: nat, slice: nat, n: nat)
    requires slice >= 1 && n >= 1
    ensures Remaining(d, p, slice, n - 1) <= slice <==> Hits(d, p, slice, n)
    decreases n
  {
    var first, every := WaitTicks(d, slice), WaitTicks(p, slice);
    RoundedUp(d, slice, 0);
    RoundedUp(p, slice, 0);
    hide WaitTicks;
    if n <= first {
      Countdown(d, p, slice, n - 1);
    } else {
      Countdown(d, p, slice, first - 1);
      Restart(d, p, slice, first, n - 1 - first);
      FiresWhen(p, p, slice, n - first);
      OneLater(n - first, every);
    }
  }

  lemma OneLater(x: nat, m: nat)
    requires x >= 1 && m >= 1
    ensures x % m == 0 <==> x >= m && (x - m) % m == 0
  {
    if x >= m {
      var q, r := (x - m) / m, (x - m) % m;
      assert x - m == q * m + r;
      assert (q + 1) * m == q * m + m;
      Division(x, m, q + 1, r);
    }
  }

  lemma Division(a: nat, m: nat, q: int, r: nat)
    requires m >= 1 && r < m && a == q * m + r
    ensures a % m == r
  {
    var q', r' := a / m, a % m;
    assert a == q' * m + r';
    assert (q - q') * m == q * m - q' * m == r' - r;
    if q > q' {
      Grows(q - q', m);
    } else if q < q' {
      Grows(q' - q, m);
    }
  }

  lemma {:induction false} Grows(k: nat, m: nat)
    requires k >= 1
    ensures k * m >= m
  {
    if k > 1 {
      Grows(k - 1, m);
      assert k * m == (k - 1) * m + m;
    }
  }

  /** The operation leaves the timer to run: nobody stops or initialises it, and its handler
      returns 0 without stopping it. */
  ghost predicate Leaves(op: Op, id: Id) {
    match op
    case Init(x, _, _) => x != id
    case Invoke(call) => call != Stop(id)
    case Pass(acts) => SparedBy(acts, id) && Rearms(ActOf(acts, id), id)
  }

  function Passes(ops: seq<Op>, i: nat, j: nat): nat
    requires i <= j <= |ops|
    decreases j
  {
    if i == j then 0 else Passes(ops, i, j - 1) + if ops[j - 1].Pass? then 1 else 0
  }

  /** One operation that leaves a running timer to run. */
  lemma RunsOn(c: Config, s: Timers, op: Op, id: Id)
    requires Sound(c, s) && Periodic(c, s) && Allowed(c, s, op) && id in Times(s.l) && id in s.periods && Leaves(op, id)
    ensures var s', left := Apply(c, s, op), Times(s.l)[id];
            && id in Times(s'.l) && id in s'.periods && s'.periods[id] == s.periods[id]
            && Times(s'.l)[id] == (if !op.Pass? then left else if left <= c.slice then s.periods[id] else left - c.slice)
            && (op.Pass? ==> (id in Fired(c, s, op.acts) <==> left <= c.slice))
  {
    hide Unique, Sorted, Times, InsertDue, Forget, FireAll, Sound, Hidden, SparedBy, PassSafe, WellActs;
    match op
    case Init(x, period, delay) => if period > 0 { InitKeeps(c, s, x, period, delay); }
    case Invoke(call) => CallLeaves(c, s, call, id);
    case Pass(acts) =>
      AgedSound(c, s);
      FireKeeps(c, Aged(c, s), acts);
      FireExact(c, Aged(c, s), acts, id);
  }

  /** A call of any delay leaves a queued timer that it does not stop alone. */
  lemma CallLeaves(c: Config, s: Timers, call: Call, id: Id)
    requires Sound(c, s) && Periodic(c, s) && id in Times(s.l) && call != Stop(id)
    ensures var s' := DoCall(c, s, call); id in Times(s'.l) && Times(s'.l)[id] == Times(s.l)[id] && s'.periods == s.periods
  {
    hide Unique, Sorted, Times, InsertDue, Forget, Hidden, Sound;
    match call
    case Start(x, t) => if x !in Times(s.l) && x in s.periods && t < c.max { QueuedKeeps(c, s, x, t); }
    case Stop(x) => StopKeeps(c, s, x);
  }

  lemma {:induction false} Tracks(c: Config, ss: seq<Timers>, ops: seq<Op>, i: nat, j: nat, id: Id)
    requires Run(c, ss, ops) && i <= j < |ss| && id in Times(ss[i].l) && id in ss[i].periods
    requires forall k :: i <= k < j ==> Leaves(ops[k], id)
    ensures id in Times(ss[j].l) && id in ss[j].periods && ss[j].periods[id] == ss[i].periods[id]
    ensures Times(ss[j].l)[id] == Remaining(Times(ss[i].l)[id], ss[i].periods[id], c.slice, Passes(ops, i, j))
    decreases j
  {
    hide Apply, Allowed, Sound, Leaves, Times, Fired;
    if i < j {
      Tracks(c, ss, ops, i, j - 1, id);
      RunSound(c, ss, ops, j - 1);
      RunsOn(c, ss[j - 1], ops[j - 1], id);
    }
  }

  /** In every run: a timer with d left at step i, that is left to run until step j, fires
      in the pass at j exactly when the number of passes since i says so: first after d, at
      least one pass and rounded up, and then once every period, rounded up. */
  lemma FiresOnSchedule(c: Config, ss: seq<Timers>, ops: seq<Op>, i: nat, j: nat, id: Id)
    requires Run(c, ss, ops) && i <= j < |ops| && ops[j].Pass? && id in Times(ss[i].l) && id in ss[i].periods
    requires forall k :: i <= k <= j ==> Leaves(ops[k], id)
    ensures id in Fired(c, ss[j], ops[j].acts) <==>
            Hits(Times(ss[i].l)[id], ss[i].periods[id], c.slice, Passes(ops, i, j) + 1)
  {
    hide Apply, Allowed, Sound, Leaves, Hits, Times;
    Tracks(c, ss, ops, i, j, id);
    RunSound(c, ss, ops, j);
    RunsOn(c, ss[j], ops[j], id);
    FiresWhen(Times(ss[i].l)[id], ss[i].periods[id], c.slice, Passes(ops, i, j) + 1);
  }

  // ----- the delay and the period asked for -----

  /** The call asks for the delay d, of a timer that is stopped. */
  ghost predicate Asks(c: Config, s: Timers, call: Call, id: Id, d: nat) {
    call == Start(id, d) && id !in Times(s.l) && id in s.periods && d < c.max
  }

  lemma AskedIsLeft(c: Config, s: Timers, call: Call, id: Id, d: nat)
    requires Sound(c, s) && Periodic(c, s) && Asks(c, s, call, id, d)
    ensures var s' := DoCall(c, s, call); id in Times(s'.l) && Times(s'.l)[id] == d && s'.periods == s.periods
  {
    hide Sound, Times, InsertDue;
    QueuedKeeps(c, s, id, d);
  }

  /** The n-th call of the handler of `own` asks for d, and none behind it stops the timer. */
  ghost predicate AsksAt(c: Config, s: Timers, calls: seq<Call>, own: Id, n: nat, id: Id, d: nat) {
    n < |calls| && id != own && Asks(c, DoCalls(c, s, calls[..n], own), calls[n], id, d) && Spares(calls[n + 1..], id)
  }

  lemma {:induction false} CallsSplit(c: Config, s: Timers, calls: seq<Call>, own: Id, n: nat)
    requires n <= |calls|
    ensures DoCalls(c, s, calls, own) == DoCalls(c, DoCalls(c, s, calls[..n], own), calls[n..], own)
    decreases n
  {
    hide HandlerCall;
    if n == 0 {
      assert calls[..0] == [] && calls[0..] == calls;
    } else {
      CallsSplit(c, HandlerCall(c, s, calls[0], own), calls[1..], own, n - 1);
      assert calls[..n][1..] == calls[1..][..n - 1] && calls[1..][n - 1..] == calls[n..] && calls[..n][0] == calls[0];
    }
  }

  lemma LaterParts(calls: seq<Call>, own: Id, n: nat)
    requires Later(calls, own) && n < |calls|
    ensures Later(calls[..n], own) && Later(calls[n + 1..], own)
    ensures calls[n].Start? && calls[n].id != own ==> calls[n].delay >= 1
  {
  }

  lemma AskedAtIsLeft(c: Config, s: Timers, calls: seq<Call>, own: Id, n: nat, id: Id, d: nat)
    requires Sound(c, s) && Periodic(c, s) && Later(calls, own) && AsksAt(c, s, calls, own, n, id, d)
    ensures var s' := DoCalls(c, s, calls, own); id in Times(s'.l) && Times(s'.l)[id] == d && d >= 1
  {
    hide Sound, Times, DoCall, Spares, Later, Zeros;
    var v := DoCalls(c, s, calls[..n], own);
    LaterParts(calls, own, n);
    CallsKeep(c, s, calls[..n], own);
    CallsSplit(c, s, calls, own, n);
    assert calls[n..][0] == calls[n] && calls[n..][1..] == calls[n + 1..];
    AskedIsLeft(c, v, calls[n], id, d);
    CallKeeps(c, v, calls[n]);
    CallsOn(c, DoCall(c, v, calls[n]), calls[n + 1..], own, id);
  }

  /** In a pass from s, the handler of x begins in the state v. */
  ghost predicate Begins(c: Config, s: Timers, acts: Acts, x: Id, v: Timers)
    requires Sound(c, s) && Periodic(c, s) && WellActs(acts)
    decreases Zeros(s.l)
  {
    if s.l == [] || s.l[0].left != 0 then false
    else if s.l[0].id == x then v == s.(l := s.l[1..])
    else FireOneKeeps(c, s, acts); Begins(c, FireOne(c, s, acts), acts, x, v)
  }

  /** No handler but that of x stops the timer. */
  ghost predicate OthersSpare(acts: Acts, x: Id, id: Id) {
    forall y :: y != x ==> Spares(ActOf(acts, y).calls, id)
  }

  lemma AskedInFire(c: Config, s: Timers, acts: Acts, n: nat, id: Id, d: nat)
    requires Sound(c, s) && Periodic(c, s) && WellActs(acts) && s.l != [] && s.l[0].left == 0
    requires AsksAt(c, s.(l := s.l[1..]), ActOf(acts, s.l[0].id).calls, s.l[0].id, n, id, d)
    ensures var s' := FireOne(c, s, acts); id in Times(s'.l) && Times(s'.l)[id] == d && d >= 1 && !IsDue(s', id)
  {
    hide Sound, Times, DoCalls, AsksAt, Zeros, InsertDue, Later;
    var x := s.l[0].id;
    var calls, s0 := ActOf(acts, x).calls, s.(l := s.l[1..]);
    PopKeeps(c, s);
    FirstGone(c, s);
    NotOwn(c, s0, calls, x, n, id, d);
    AskedAtIsLeft(c, s0, calls, x, n, id, d);
    CallsKeep(c, s0, calls, x);
    CallsOn(c, s0, calls, x, x);
    QueuedKeeps(c, DoCalls(c, s0, calls, x), x, s.periods[x]);
  }

  lemma NotOwn(c: Config, s: Timers, calls: seq<Call>, own: Id, n: nat, id: Id, d: nat)
    requires AsksAt(c, s, calls, own, n, id, d)
    ensures id != own
  {
  }

  /** What the handler of x asked for is left at the end of the pass. */
  lemma {:induction false} HandlerAsks(c: Config, s: Timers, acts: Acts, x: Id, v: Timers, n: nat, id: Id, d: nat)
    requires Sound(c, s) && Periodic(c, s) && WellActs(acts) && Begins(c, s, acts, x, v)
    requires AsksAt(c, v, ActOf(acts, x).calls, x, n, id, d) && OthersSpare(acts, x, id)
    ensures var s' := FireAll(c, s, acts).s; id in Times(s'.l) && Times(s'.l)[id] == d && s'.periods == s.periods
    decreases Zeros(s.l)
  {
    hide Sound, Times, AsksAt, OthersSpare, FireOne, IsDue;
    FireOneKeeps(c, s, acts);
    if s.l[0].id == x {
      AskedInFire(c, s, acts, n, id, d);
      FireOneOn(c, s, acts, x);
      RestKeeps(c, FireOne(c, s, acts), acts, x, id);
    } else {
      HandlerAsks(c, FireOne(c, s, acts), acts, x, v, n, id, d);
    }
  }

  /** The rest of a pass, after the handler of x, leaves a timer alone that is not due. */
  lemma {:induction false} RestKeeps(c: Config, s: Timers, acts: Acts, x: Id, id: Id)
    requires Sound(c, s) && Periodic(c, s) && WellActs(acts) && !IsDue(s, x) && !IsDue(s, id) && id in Times(s.l) && OthersSpare(acts, x, id)
    ensures var s' := FireAll(c, s, acts).s; id in Times(s'.l) && Times(s'.l)[id] == Times(s.l)[id] && s'.periods == s.periods
    decreases Zeros(s.l)
  {
    hide Sound, FireOne, Times, ActOf, Spares;
    if s.l != [] && s.l[0].left == 0 {
      FireOneKeeps(c, s, acts);
      FireOneOn(c, s, acts, id);
      FireOneOn(c, s, acts, x);
      RestKeeps(c, FireOne(c, s, acts), acts, x, id);
    }
  }

  /**
    The operation queues the timer with the delay d: by an initialisation with a finite period, or by
    a start of a stopped timer, from outside or from the handler of a timer x in a pass.
  */
  ghost predicate Sets(c: Config, s: Timers, op: Op, x: Id, v: Timers, n: nat, id: Id, d: nat) {
    match op
    case Init(y, p, delay) => y == id && delay == d && 0 < p < c.max
    case Invoke(call) => Asks(c, s, call, id, d)
    case Pass(acts) =>
      && Sound(c, Aged(c, s)) && Periodic(c, s) && WellActs(acts) && Begins(c, Aged(c, s), acts, x, v)
      && AsksAt(c, v, ActOf(acts, x).calls, x, n, id, d) && OthersSpare(acts, x, id)
  }

  /** The period after it: that of the initialisation, or the one it had. */
  ghost function PeriodAfter(s: Timers, op: Op, id: Id): nat {
    if op.Init? && op.id == id then op.period else if id in s.periods then s.periods[id] else 0
  }

  lemma SetIsLeft(c: Config, s: Timers, op: Op, x: Id, v: Timers, n: nat, id: Id, d: nat)
    requires Sound(c, s) && Periodic(c, s) && Allowed(c, s, op) && Sets(c, s, op, x, v, n, id, d)
    ensures var s' := Apply(c, s, op);
            id in Times(s'.l) && Times(s'.l)[id] == d && id in s'.periods && s'.periods[id] == PeriodAfter(s, op, id)
  {
    hide Sound, Times, DoCall, FireAll, InsertDue, AsksAt, OthersSpare, Begins, PassSafe, WellActs;
    match op
    case Init(y, p, delay) =>
      Reperiod(c, s, id, p);
      QueuedKeeps(c, s.(periods := s.periods[id := p]), id, d);
    case Invoke(call) => AskedIsLeft(c, s, call, id, d);
    case Pass(acts) =>
      HandlerAsks(c, Aged(c, s), acts, x, v, n, id, d);
      StepKeeps(c, s, op);
      QueuedHasPeriod(c, Apply(c, s, op), id);
  }

  lemma QueuedHasPeriod(c: Config, s: Timers, id: Id)
    requires Sound(c, s) && id in Times(s.l)
    ensures id in s.periods
  {
    hide Unique, Times;
    TimesMember(s.l, id);
  }

  /** In every run: a timer that a call at step i starts with the delay d, and that is left to run
      afterwards, fires in exactly the passes that d and its period ask for. */
  lemma FiresAsAsked(c: Config, ss: seq<Timers>, ops: seq<Op>, i: nat, j: nat, x: Id, v: Timers, n: nat, id: Id, d: nat)
    requires Run(c, ss, ops) && i < j < |ops| && ops[j].Pass? && Sets(c, ss[i], ops[i], x, v, n, id, d)
    requires forall k :: i < k <= j ==> Leaves(ops[k], id)
    ensures id in Fired(c, ss[j], ops[j].acts) <==> Hits(d, PeriodAfter(ss[i], ops[i], id), c.slice, Passes(ops, i + 1, j) + 1)
  {
    hide Apply, Allowed, Sound, Leaves, Hits, Times, Sets, Fired, PeriodAfter;
    RunSound(c, ss, ops, i);
    SetIsLeft(c, ss[i], ops[i], x, v, n, id, d);
    FiresOnSchedule(c, ss, ops, i + 1, j, id);
  }

  /** In every run a timer has the period of its last initialisation. */
  lemma {:induction false} PeriodAsAsked(c: Config, ss: seq<Timers>, ops: seq<Op>, i: nat, j: nat, id: Id)
    requires Run(c, ss, ops) && i < j < |ss| && ops[i].Init? && ops[i].id == id && ops[i].period > 0
    requires forall k :: i < k < j && ops[k].Init? && ops[k].period > 0 ==> ops[k].id != id
    ensures id in ss[j].periods && ss[j].periods[id] == ops[i].period
    decreases j
  {
    hide Sound, FireAll, InsertDue, DoCall, WellActs, Periodic;
    RunSound(c, ss, ops, j - 1);
    assert ss[j] == Apply(c, ss[j - 1], ops[j - 1]);
    if i < j - 1 {
      PeriodAsAsked(c, ss, ops, i, j - 1, id);
      PeriodsStay(c, ss[j - 1], ops[j - 1], id);
    }
  }

  lemma PeriodsStay(c: Config, s: Timers, op: Op, id: Id)
    requires Sound(c, s) && Periodic(c, s) && Allowed(c, s, op) && !(op.Init? && op.id == id && op.period > 0) && id in s.periods
    ensures id in Apply(c, s, op).periods && Apply(c, s, op).periods[id] == s.periods[id]
  {
    hide Sound, FireAll, InsertDue, DoCall, WellActs, PassSafe;
    match op
    case Init(y, p, delay) =>
    case Invoke(call) => CallKeeps(c, s, call);
    case Pass(acts) =>
      AgedSound(c, s);
      AgedPeriods(c, s);
      FireKeeps(c, Aged(c, s), acts);
  }

  // ----- a stopped timer -----

  /** The operation does not start the timer. */
  ghost predicate LeavesStopped(op: Op, id: Id) {
    match op
    case Init(x, _, _) => x != id
    case Invoke(call) => call.Stop? || call.id != id
    case Pass(acts) => StartedByNone(acts, id)
  }

  lemma StoppedStays(c: Config, s: Timers, op: Op, id: Id)
    requires Sound(c, s) && Periodic(c, s) && Allowed(c, s, op) && id !in Times(s.l) && LeavesStopped(op, id)
    ensures id !in Times(Apply(c, s, op).l) && (op.Pass? ==> id !in Fired(c, s, op.acts))
  {
    hide Sound, Times, FireAll, InsertDue, Forget, Hidden, StartedByNone, PassSafe, WellActs;
    match op
    case Init(x, p, delay) =>
      if 0 < p < c.max {
        Reperiod(c, s, x, p);
        QueuedKeeps(c, s.(periods := s.periods[x := p]), x, delay);
      }
    case Invoke(call) =>
      if call.Stop? {
        StopKeeps(c, s, call.id);
      } else if call.id !in Times(s.l) && call.id in s.periods && call.delay < c.max {
        QueuedKeeps(c, s, call.id, call.delay);
      }
    case Pass(acts) =>
      AgedSound(c, s);
      AgedPeriods(c, s);
      FireExact(c, Aged(c, s), acts, id);
      AgeTimes(s.l, c.slice);
  }

  /** In every run: a timer that is stopped while it is not hidden does not fire until it is started
      or initialised again, by whomever. */
  lemma {:induction false} SilentAfterStop(c: Config, ss: seq<Timers>, ops: seq<Op>, i: nat, j: nat, id: Id)
    requires Run(c, ss, ops) && i < j <= |ops| && ops[i] == Invoke(Stop(id)) && !Hidden(c.max, ss[i].l, id)
    requires forall k :: i < k < j ==> LeavesStopped(ops[k], id)
    ensures id !in Times(ss[j].l)
    ensures j < |ops| && ops[j].Pass? && LeavesStopped(ops[j], id) ==> id !in Fired(c, ss[j], ops[j].acts)
    decreases j
  {
    hide Allowed, Sound, Times, Fired, LeavesStopped, Hidden, Forget;
    RunSound(c, ss, ops, j - 1);
    RunSound(c, ss, ops, j);
    if i == j - 1 {
      StopKeeps(c, ss[i], id);
    } else {
      SilentAfterStop(c, ss, ops, i, j - 1, id);
      StoppedStays(c, ss[j - 1], ops[j - 1], id);
    }
    if j < |ops| && LeavesStopped(ops[j], id) {
      StoppedStays(c, ss[j], ops[j], id);
    }
  }
}
