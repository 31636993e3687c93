/**
  Whole runs of a timeout queue against the wall clock.

  A run interleaves scheduling, the passage of time, pops, removals and rescheduling in
  any order.  Each scheduling draws a ticket and fixes a deadline on the wall clock; the
  queue itself stores only deltas.  The theorems say that the queue nevertheless serves
  its items in the order of (deadline, ticket), never early, and that the sum of its
  deltas always fits `k_delta_t`.
*/
module DeadlineOrder {
  import opened Links
  import opened DeltaQueue

  /** What was agreed when an item was scheduled. */
  datatype Plan = Plan(deadline: nat, ticket: nat)

  datatype Clock = Clock(q: seq<Entry>, now: nat, tickets: nat, plans: map<Id, Plan>, popped: seq<Plan>)

  datatype Op =
    | Schedule(id: Id, timeout: nat)
    | Elapse(time: nat)
    | Pop
    | PopReschedule(timeout: nat)
    | Remove(id: Id)
    | Reschedule(id: Id, timeout: nat)

  const START := Clock([], 0, 0, map[], [])

  /** Callers schedule items that are not queued, and timeouts fit k_delta_t. */
  ghost predicate Allowed(s: Clock, op: Op, max: nat) {
    match op
    case Schedule(id, t) => id !in Items(s.q) && t <= max
    case Reschedule(id, t) => t <= max
    case PopReschedule(t) => t <= max
    case _ => true
  }

  function Queued(s: Clock, id: Id, t: nat): Clock {
    s.(q := Insert(s.q, id, t), tickets := s.tickets + 1, plans := s.plans[id := Plan(s.now + t, s.tickets)])
  }

  ghost predicate Expired(s: Clock) {
    s.q != [] && s.q[0].delay == 0
  }

  ghost function Popped(s: Clock): Clock {
    if Expired(s) && s.q[0].id in s.plans
    then s.(q := s.q[1..], popped := s.popped + [s.plans[s.q[0].id]])
    else s
  }

  ghost function Apply(s: Clock, op: Op): Clock {
    match op
    case Schedule(id, t) => Queued(s, id, t)
    case Elapse(t) => s.(q := Shift(s.q, t), now := s.now + t)
    case Pop => Popped(s)
    case PopReschedule(t) => if Expired(s) then Queued(Popped(s), s.q[0].id, t) else s
    case Remove(id) => s.(q := Delete(s.q, id))
    case Reschedule(id, t) => if id in Items(s.q) then Queued(s.(q := Delete(s.q, id)), id, t) else s
  }

  ghost predicate Run(ss: seq<Clock>, ops: seq<Op>, max: nat) {
    && |ss| == |ops| + 1
    && ss[0] == START
    && forall i :: 0 <= i < |ops| ==> Allowed(ss[i], ops[i], max) && ss[i + 1] == Apply(ss[i], ops[i])
  }

  ghost predicate Before(p: Plan, r: Plan) {
    p.deadline < r.deadline || (p.deadline == r.deadline && p.ticket < r.ticket)
  }

  // ----- the invariant of a run -----

  /** The queued items, in the order of their plans, have what is left of their plans. */
  ghost predicate OnPlan(l: seq<Due>, plans: map<Id, Plan>, now: nat, tickets: nat, max: nat) {
    && (forall i :: 0 <= i < |l| ==>
          && l[i].id in plans
          && l[i].left == Minus(plans[l[i].id].deadline, now)
          && plans[l[i].id].deadline <= now + max
          && plans[l[i].id].ticket < tickets)
    && (forall i, j :: 0 <= i < j < |l| && l[i].id in plans && l[j].id in plans ==> Before(plans[l[i].id], plans[l[j].id]))
  }

  /** What was popped came in order, on time, and before everything still queued. */
  ghost predicate InOrder(s: Clock, l: seq<Due>) {
    && (forall i, j :: 0 <= i < j < |s.popped| ==> Before(s.popped[i], s.popped[j]))
    && (forall i :: 0 <= i < |s.popped| ==> s.popped[i].deadline <= s.now && s.popped[i].ticket < s.tickets)
    && (forall i, j :: 0 <= i < |s.popped| && 0 <= j < |l| && l[j].id in s.plans ==> Before(s.popped[i], s.plans[l[j].id]))
  }

  ghost predicate Inv(s: Clock, max: nat) {
    && Unique(Dues(s.q))
    && OnPlan(Dues(s.q), s.plans, s.now, s.tickets, max)
    && InOrder(s, Dues(s.q))
  }

  /** The list with a new plan in its place. */
  lemma PlanInserted(l: seq<Due>, plans: map<Id, Plan>, now: nat, tickets: nat, max: nat, id: Id, t: nat, k: nat)
    requires OnPlan(l, plans, now, tickets, max) && t <= max
    requires k <= |l| && forall i :: 0 <= i < |l| ==> l[i].id != id && (i < k <==> l[i].left <= t)
    ensures OnPlan(l[..k] + [Due(id, t)] + l[k..], plans[id := Plan(now + t, tickets)], now, tickets + 1, max)
  {
    var l' := l[..k] + [Due(id, t)] + l[k..];
    var plans' := plans[id := Plan(now + t, tickets)];
    assert forall i :: 0 <= i < |l'| && i < k ==> l'[i] == l[i];
    assert forall i :: k < i < |l'| ==> l'[i] == l[i - 1];
    forall i, j | 0 <= i < j < |l'| && l'[i].id in plans' && l'[j].id in plans'
      ensures Before(plans'[l'[i].id], plans'[l'[j].id])
    {
      var a, b := if i < k then i else i - 1, if j < k then j else j - 1;
      if i != k && j != k {
        assert l'[i] == l[a] && l'[j] == l[b] && a < b;
      } else if j == k {
        assert l'[i] == l[i];
      } else {
        assert l'[j] == l[j - 1];
      }
    }
  }

  lemma OrderInserted(s: Clock, l: seq<Due>, id: Id, t: nat, k: nat)
    requires InOrder(s, l) && k <= |l| && forall i :: 0 <= i < |l| ==> l[i].id != id
    ensures InOrder(s.(tickets := s.tickets + 1, plans := s.plans[id := Plan(s.now + t, s.tickets)]),
                    l[..k] + [Due(id, t)] + l[k..])
  {
    var l' := l[..k] + [Due(id, t)] + l[k..];
    var s' := s.(tickets := s.tickets + 1, plans := s.plans[id := Plan(s.now + t, s.tickets)]);
    forall i, j | 0 <= i < |s'.popped| && 0 <= j < |l'| && l'[j].id in s'.plans
      ensures Before(s'.popped[i], s'.plans[l'[j].id])
    {
      if j != k {
        assert l'[j] == l[if j < k then j else j - 1];
      }
    }
  }

  lemma QueuedKeeps(s: Clock, id: Id, t: nat, max: nat)
    requires Inv(s, max) && id !in Items(s.q) && t <= max
    ensures Inv(Queued(s, id, t), max)
  {
    hide Dues, Insert, Items, Unique, OnPlan;
    var l := Dues(s.q);
    var k := InsertPlace(s.q, id, t);
    PlanInserted(l, s.plans, s.now, s.tickets, max, id, t, k);
    OrderInserted(s, l, id, t, k);
  }

  lemma ElapseKeeps(s: Clock, t: nat, max: nat)
    requires Inv(s, max)
    ensures Inv(Apply(s, Elapse(t)), max)
  {
    hide Dues, Shift, Unique;
    ShiftMeans(s.q, t, 0);
    AgeTimes(Dues(s.q), t);
  }

  lemma PoppedKeeps(s: Clock, max: nat)
    requires Inv(s, max)
    ensures Inv(Popped(s), max)
    ensures Expired(s) ==> Popped(s).q == s.q[1..] && s.q[0].id !in Items(s.q[1..])
  {
    if Expired(s) {
      var l := Dues(s.q);
      assert l[0].id == s.q[0].id && l[1..] == Dues(s.q[1..]);
      ItemsAreDues(s.q[1..], 0);
    }
  }

  lemma RemoveKeeps(s: Clock, id: Id, max: nat)
    requires Inv(s, max)
    ensures Inv(s.(q := Delete(s.q, id)), max) && id !in Items(Delete(s.q, id))
  {
    var l := Dues(s.q);
    DeleteMeans(s.q, id, 0);
    ForgetTimes(l, id);
    ItemsAreDues(Delete(s.q, id), 0);
    PlanForgotten(l, id, s, max);
  }

  lemma PlanForgotten(l: seq<Due>, id: Id, s: Clock, max: nat)
    requires OnPlan(l, s.plans, s.now, s.tickets, max) && InOrder(s, l)
    ensures OnPlan(Forget(l, id), s.plans, s.now, s.tickets, max) && InOrder(s, Forget(l, id))
  {
    hide Forget;
    var k := ForgetSplits(l, id);
    if k < |l| {
      var r := l[..k] + l[k + 1..];
      assert forall i :: 0 <= i < |r| ==> r[i] == l[if i < k then i else i + 1];
      forall i, j | 0 <= i < j < |r| && r[i].id in s.plans && r[j].id in s.plans
        ensures Before(s.plans[r[i].id], s.plans[r[j].id])
      {
        var a, b := if i < k then i else i + 1, if j < k then j else j + 1;
        assert r[i] == l[a] && r[j] == l[b] && a < b;
      }
    }
  }

  lemma StepKeeps(s: Clock, op: Op, max: nat)
    requires Inv(s, max) && Allowed(s, op, max)
    ensures Inv(Apply(s, op), max)
  {
    match op
    case Schedule(id, t) => QueuedKeeps(s, id, t, max);
    case Elapse(t) => ElapseKeeps(s, t, max);
    case Pop => PoppedKeeps(s, max);
    case PopReschedule(t) =>
      PoppedKeeps(s, max);
      if Expired(s) {
        QueuedKeeps(Popped(s), s.q[0].id, t, max);
      }
    case Remove(id) => RemoveKeeps(s, id, max);
    case Reschedule(id, t) =>
      RemoveKeeps(s, id, max);
      if id in Items(s.q) {
        QueuedKeeps(s.(q := Delete(s.q, id)), id, t, max);
      }
  }

  lemma {:induction false} RunInv(ss: seq<Clock>, ops: seq<Op>, max: nat, i: nat)
    requires Run(ss, ops, max) && i < |ss|
    ensures Inv(ss[i], max)
  {
    if i > 0 {
      RunInv(ss, ops, max, i - 1);
      StepKeeps(ss[i - 1], ops[i - 1], max);
    }
  }

  // ----- theorems over every run -----

  /** The popped items come in increasing order of (deadline, ticket), and never early. */
  lemma PoppedInOrder(ss: seq<Clock>, ops: seq<Op>, max: nat, i: nat)
    requires Run(ss, ops, max) && i < |ss|
    ensures forall a, b :: 0 <= a < b < |ss[i].popped| ==> Before(ss[i].popped[a], ss[i].popped[b])
    ensures forall a :: 0 <= a < |ss[i].popped| ==> ss[i].popped[a].deadline <= ss[i].now
  {
    RunInv(ss, ops, max, i);
  }

  /** An item can be popped if and only if some queued item has reached its deadline. */
  lemma ExpiredOnTime(ss: seq<Clock>, ops: seq<Op>, max: nat, i: nat)
    requires Run(ss, ops, max) && i < |ss|
    ensures Items(ss[i].q) <= ss[i].plans.Keys
    ensures Expired(ss[i]) <==> exists id :: id in Items(ss[i].q) && ss[i].plans[id].deadline <= ss[i].now
  {
    var s := ss[i];
    RunInv(ss, ops, max, i);
    var l := Dues(s.q);
    ItemsAreDues(s.q, 0);
    DuesSorted(s.q, 0);
    forall id | id in Items(s.q)
      ensures id in s.plans && (s.plans[id].deadline <= s.now ==> Expired(s))
    {
      TimesMember(l, id);
      var k :| 0 <= k < |l| && l[k] == Due(id, Times(l)[id]);
      assert l[0].left <= l[k].left;
    }
    if Expired(s) {
      assert l[0].left == 0 && s.q[0].id in Items(s.q);
    }
  }

  /** The sum of the deltas fits k_delta_t in every state of every run. */
  lemma TotalNeverWraps(ss: seq<Clock>, ops: seq<Op>, max: nat, i: nat)
    requires Run(ss, ops, max) && i < |ss|
    ensures Total(ss[i].q) <= max
  {
    RunInv(ss, ops, max, i);
    DuesSorted(ss[i].q, 0);
  }
}
