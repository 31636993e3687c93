/** Runs of the scheduler: any sequence of enabled steps from a sound state. */
module SchedRuns {
  import opened Links
  import opened DeltaQueue
  import opened Sched
  import opened SchedInv
  import A = Abort

  datatype Step =
    | Yield
    | Block(q: Id, timeout: nat)
    | Sleep(timeout: nat)
    | Tick
    | Handoff(q: Id)
    | HandoffWith(q: Id, data: Swap)
    | CancelOne(q: Id)
    | CancelEvery(q: Id)
    | Notify(q: Id, t: Id, data: Swap)
    | Start(t: Id)
    | Abort(t: Id)
    | SetSwap(data: Swap)

  /** Only a READY thread blocks; only a thread whose wait-queue node is harmless sleeps
      without a queue; only abortable threads are aborted. */
  ghost predicate Enabled(s: Sys, step: Step) {
    match step
    case Block(q, t) => Of(s, s.current).state.Ready? && q in s.queues && 0 < t <= s.cfg.forever
    case Sleep(t) => Of(s, s.current).state.Ready? && (t == s.cfg.forever || Of(s, s.current).clean) && t <= s.cfg.forever
    case Notify(q, t, _) => t in Waiters(s, q)
    case Start(t) => t in s.tcbs && s.tcbs[t].state.Stopped?
    case Abort(t) => t in s.tcbs && t != IDLE && !s.tcbs[t].state.Stopped? && A.Abortable(s, t)
    case _ => true
  }

  function Do(s: Sys, step: Step): Sys {
    match step
    case Yield => Scheduler(s)
    case Block(q, t) => PendCurrentOn(s, q, t)
    case Sleep(t) => PendCurrent(s, t)
    case Tick => Sched.Tick(s)
    case Handoff(q) => Unpend(s, q)
    case HandoffWith(q, data) => UnpendSwap(s, q, data)
    case CancelOne(q) => CancelFirst(s, q)
    case CancelEvery(q) => CancelAll(s, q)
    case Notify(q, t, data) => WakeWaiter(s, q, t, data)
    case Start(t) => Schedule(s, t)
    case Abort(t) => Sched.Abort(s, t)
    case SetSwap(data) => Put(s, s.current, Of(s, s.current).(swap := data))
  }

  ghost predicate Run(ss: seq<Sys>, steps: seq<Step>) {
    && |ss| == |steps| + 1
    && Inv(ss[0])
    && forall i :: 0 <= i < |steps| ==> Enabled(ss[i], steps[i]) && ss[i + 1] == Do(ss[i], steps[i])
  }

  lemma StepKeeps(s: Sys, step: Step)
    requires Inv(s) && Enabled(s, step)
    ensures Inv(Do(s, step))
  {
    match step
    case Yield => SchedulerKeeps(s);
    case Block(q, t) => PendOnKeeps(s, q, t);
    case Sleep(t) => SleepKeeps(s, t);
    case Tick => AgeKeeps(s, s.cfg.slice); DrainKeeps(s.(timeouts := Age(s.timeouts, s.cfg.slice)));
    case Handoff(q) => UnpendKeeps(s, q);
    case HandoffWith(q, data) =>
      if Waiters(s, q) != [] {
        UnpendKeeps(s, q);
        UnpendWakes(s, q);
        var t := Waiters(s, q)[0];
        TweakKeeps(Unpend(s, q), t, Of(Unpend(s, q), t).(swap := data));
      }
    case CancelOne(q) => CancelFirstKeeps(s, q);
    case CancelEvery(q) => CancelAllKeeps(s, q);
    case Notify(q, t, data) =>
      WakeWaiterWakes(s, q, t, data);
      WokenKeeps(s, t, s.tcbs[t].(clean := false, swap := data));
    case Start(t) => StartWakes(s, t); WokenKeeps(s, t, s.tcbs[t]);
    case Abort(t) => A.AbortKeeps(s, t);
    case SetSwap(data) => TweakKeeps(s, s.current, Of(s, s.current).(swap := data));
  }

  /** The scheduler's invariant holds in every state of every run. */
  lemma {:induction false} RunInv(ss: seq<Sys>, steps: seq<Step>, i: nat)
    requires Run(ss, steps) && i < |ss|
    ensures Inv(ss[i])
  {
    if i > 0 {
      RunInv(ss, steps, i - 1);
      StepKeeps(ss[i - 1], steps[i - 1]);
    }
  }

  lemma {:induction false} DrainCfg(s: Sys)
    ensures Drain(s).cfg == s.cfg
    decreases |s.timeouts|
  {
    if s.timeouts != [] && s.timeouts[0].left == 0 {
      DrainCfg(Expire(s));
    }
  }

  lemma {:induction false} CancelAllCfg(s: Sys, q: Id)
    ensures CancelAll(s, q).cfg == s.cfg
    decreases |Waiters(s, q)|
  {
    if Waiters(s, q) != [] {
      CancelAllCfg(CancelFirst(s, q), q);
    }
  }

  lemma {:induction false} UnpendAllCfg(s: Sys, q: Id)
    ensures UnpendAll(s, q).cfg == s.cfg
    decreases |Waiters(s, q)|
  {
    if Waiters(s, q) != [] {
      UnpendAllCfg(Unpend(s, q), q);
    }
  }

  lemma PendCfg(s: Sys, timeout: nat)
    ensures PendCurrent(s, timeout).cfg == s.cfg
  {
  }

  lemma StepCfg(s: Sys, step: Step)
    ensures Do(s, step).cfg == s.cfg
  {
    hide CancelAll, UnpendAll, Drain, PendCurrent, PendCurrentOn, Age, Sched.Abort;
    match step
    case Block(q, t) => BlockCfg(s, q, t);
    case Sleep(t) => PendCfg(s, t);
    case Tick => DrainCfg(s.(timeouts := Age(s.timeouts, s.cfg.slice)));
    case CancelEvery(q) => CancelAllCfg(s, q);
    case Abort(t) => AbortCfg(s, t);
    case _ =>
  }

  lemma BlockCfg(s: Sys, q: Id, t: nat)
    ensures PendCurrentOn(s, q, t).cfg == s.cfg
  {
    hide PendCurrent;
    var s1 := s.(queues := s.queues[q := Waiters(s, q) + [s.current]]);
    PendCfg(Put(s1, s.current, Of(s, s.current).(waiting := q, clean := false)), t);
  }

  lemma AbortCfg(s: Sys, t: Id)
    ensures Sched.Abort(s, t).cfg == s.cfg
  {
    hide UnpendAll;
    UnpendAllCfg(A.Halted(s, t), A.JoinQueue(t));
  }

  /** The configuration never changes. */
  lemma {:induction false} RunCfg(ss: seq<Sys>, steps: seq<Step>, i: nat, j: nat)
    requires Run(ss, steps) && i <= j < |ss|
    ensures ss[j].cfg == ss[i].cfg
    decreases j
  {
    hide Do;
    if i < j {
      RunCfg(ss, steps, i, j - 1);
      StepCfg(ss[j - 1], steps[j - 1]);
    }
  }

  /** A thread's tie has one role at a time: in the ring or in the timeout queue, never both. */
  lemma OneRole(ss: seq<Sys>, steps: seq<Step>, i: nat, t: Id)
    requires Run(ss, steps) && i < |ss|
    ensures !(t in ss[i].ring && t in Times(ss[i].timeouts))
  {
    hide Do, Enabled;
    RunInv(ss, steps, i);
  }

  // ----- round robin -----

  function Yields(s: Sys, k: nat): Sys {
    if k == 0 then s else Do(Yields(s, k - 1), Yield)
  }

  lemma YieldTurns(s: Sys)
    requires Inv(s) && Of(s, s.current).state.Ready?
    ensures var s' := Do(s, Yield);
            && Inv(s') && Of(s', s'.current).state.Ready?
            && s.ring != [] && s'.ring == s.ring[1..] + [s.ring[0]] && s'.current == s'.ring[0]
  {
    hide TimeInv, QueueInv, TcbInv;
    StepKeeps(s, Yield);
    var s' := Do(s, Yield);
    assert s'.ring[0] in s'.ring;
  }

  /** As long as READY threads only yield, each of them runs once in every round, in the order of the ring. */
  lemma {:induction false} RoundRobin(s: Sys, k: nat)
    requires Inv(s) && Of(s, s.current).state.Ready? && k <= |s.ring|
    ensures var s', r := Yields(s, k), s.ring;
            && Inv(s') && Of(s', s'.current).state.Ready? && r != []
            && s'.ring == r[k..] + r[..k] && s'.current == r[if k == |r| then 0 else k]
  {
    hide Inv, Do, Of;
    FirstRuns(s);
    if k == 0 {
      assert s.ring[0..] + s.ring[..0] == s.ring;
    } else {
      RoundRobin(s, k - 1);
      YieldTurns(Yields(s, k - 1));
      var r := s.ring;
      var t := r[k - 1..] + r[..k - 1];
      assert t[1..] + [t[0]] == r[k..] + r[..k];
    }
  }

  lemma FirstRuns(s: Sys)
    requires Inv(s) && Of(s, s.current).state.Ready?
    ensures s.ring != [] && s.current == s.ring[0]
  {
  }
}
