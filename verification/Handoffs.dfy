/**
  Between a handoff and the moment the woken thread runs again.

  A giver wakes the first waiter and leaves the object with it.  The waiter's call returns
  only when the waiter runs, and other threads may run in between.  This module says what
  they cannot change, even by stopping and starting the waiter, and keeps the record of what was handed to whom.
*/
module Handoffs {
  import opened Links
  import opened Sched
  import opened SchedInv
  import opened SchedRuns
  import opened Waits
  import opened WaitQueues

  /** A woken waiter: READY, or stopped since, and its wait will return success. */
  ghost predicate OnItsWay(s: Sys, t: Id) {
    t in s.tcbs && (s.tcbs[t].state.Ready? || s.tcbs[t].state.Stopped?) && ReturnCode(s.tcbs[t]) == 0
  }

  /** Until a woken thread runs, nobody changes its result or its data, also not by stopping and
      starting it. */
  lemma StaysOnItsWay(s: Sys, step: Step, t: Id)
    requires Inv(s) && Enabled(s, step) && OnItsWay(s, t) && t != s.current
    ensures var c, c' := Of(s, t), Of(Do(s, step), t);
            OnItsWay(Do(s, step), t) && c' == c.(state := c'.state)
  {
    hide Do, Inv;
    if step == Abort(t) {
      AbortedThread(s, t);
      NoWakeup(s, t);
    } else if step == Start(t) {
      StartedThread(s, t);
    } else {
      BystanderStep(s, step, t);
    }
  }

  lemma NoWakeup(s: Sys, t: Id)
    requires Inv(s) && t in s.tcbs && !s.tcbs[t].state.Pending?
    ensures !s.tcbs[t].wakeup && s.tcbs[t].waiting == Null
  {
  }

  lemma StartedThread(s: Sys, t: Id)
    requires Inv(s) && Enabled(s, Start(t))
    ensures t in Do(s, Start(t)).tcbs && Of(Do(s, Start(t)), t) == s.tcbs[t].(state := Ready)
  {
    StartWakes(s, t);
    NoWakeup(s, t);
  }

  /** The waiter a handoff wakes is on its way; the running thread goes on running. */
  lemma HandedOver(s: Sys, q: Id, step: Step)
    requires Inv(s) && q in s.queues && Waiters(s, q) != [] && (step == Handoff(q) || (step.HandoffWith? && step.q == q))
    ensures var t, s' := Waiters(s, q)[0], Do(s, step);
            OnItsWay(s', t) && s'.current == s.current && t != s.current && !OnItsWay(s, t)
  {
    hide RingInv, TimeInv, QueueInv, Unpend;
    var t := Waiters(s, q)[0];
    WaiterPends(s, q, t);
    UnpendOn(s, q, t);
    UnpendWakes(s, q);
    RunningNotWaiting(s, q);
  }

  lemma HandoffEnabled(s: Sys, q: Id, data: Swap)
    ensures Enabled(s, Handoff(q)) && Enabled(s, HandoffWith(q, data)) && Enabled(s, CancelEvery(q))
  {
  }

  lemma SetSwapEnabled(s: Sys, data: Swap)
    ensures Enabled(s, SetSwap(data))
  {
  }

  // ----- the record of what was handed to whom -----

  /** Handed to a thread that has not run since, or returned by its call. */
  datatype Progress = InFlight | Returned

  datatype Transfer<T> = Transfer(what: T, to: Id, state: Progress)

  ghost function Values<T>(log: seq<Transfer<T>>): (v: seq<T>)
    ensures |v| == |log| && forall i :: 0 <= i < |log| ==> v[i] == log[i].what
  {
    seq(|log|, i requires 0 <= i < |log| => log[i].what)
  }

  ghost predicate Flying<T>(x: Transfer<T>, t: Id) {
    x.state.InFlight? && x.to == t
  }

  /** What is in flight to t is returned by its call. */
  ghost function Landed<T>(log: seq<Transfer<T>>, t: Id): (r: seq<Transfer<T>>)
    ensures |r| == |log|
    ensures forall i :: 0 <= i < |log| ==> r[i] == if Flying(log[i], t) then log[i].(state := Returned) else log[i]
  {
    seq(|log|, i requires 0 <= i < |log| => if Flying(log[i], t) then log[i].(state := Returned) else log[i])
  }

  /** No thread has two things in flight to it, and none that is in flight runs. */
  ghost predicate Singly<T(!new)>(log: seq<Transfer<T>>) {
    forall i, j :: 0 <= i < j < |log| && log[i].state.InFlight? && log[j].state.InFlight? ==> log[i].to != log[j].to
  }

  ghost predicate Grounded<T(!new)>(log: seq<Transfer<T>>, t: Id) {
    forall i :: 0 <= i < |log| ==> !Flying(log[i], t)
  }

  lemma LandedValues<T>(log: seq<Transfer<T>>, t: Id)
    ensures Values(Landed(log, t)) == Values(log)
  {
  }

  lemma ValuesAdd<T>(log: seq<Transfer<T>>, x: Transfer<T>)
    ensures Values(log + [x]) == Values(log) + [x.what]
  {
  }
}
