/**
  The timer module of src/avrtos/timer.c: the queue of running timers and the mark of the
  stopped ones.  The mark is kept in the field that holds a queued timer's delta, so a queued
  timer can carry it.
*/
module Timer {
  import opened Links
  import opened DeltaQueue
  import opened TimeQueue
  import opened TimerPasses
  import opened TimerRuns
  import opened Errno

  // ----- deltas and the mark -----

  lemma {:induction false} ItemIndex(q: seq<Entry>, id: Id) returns (i: nat)
    requires id in Items(q)
    ensures i < |q| && q[i].id == id
  {
    if q[0].id == id {
      i := 0;
    } else {
      var k := ItemIndex(q[1..], id);
      i := k + 1;
    }
  }

  lemma {:induction false} ItemAt(q: seq<Entry>, i: nat)
    requires i < |q|
    ensures q[i].id in Items(q)
  {
    if i > 0 {
      ItemAt(q[1..], i - 1);
    }
  }

  lemma {:induction false} OneIndex(q: seq<Entry>, i: nat, j: nat)
    requires UniqueItems(q) && i < |q| && j < |q| && q[i].id == q[j].id
    ensures i == j
  {
    if i > 0 && j > 0 {
      OneIndex(q[1..], i - 1, j - 1);
    } else if i > 0 {
      ItemAt(q[1..], i - 1);
    } else if j > 0 {
      ItemAt(q[1..], j - 1);
    }
  }

  lemma {:induction false} SegAt(c: Cells, root: Id, q: seq<Entry>, i: nat)
    requires Seg(c, root, q, Null) && i < |q|
    ensures Delay(c, q[i].id) == q[i].delay
    decreases |q|
  {
    if i > 0 {
      SegAt(c, After(c, root), q[1..], i - 1);
    }
  }

  /** A delta is the time left to an item less the time left to the one before it. */
  lemma {:induction false} DeltaOf(q: seq<Entry>, base: nat, i: nat)
    requires i < |q|
    ensures Dues(q, base)[i].left == (if i == 0 then base else Dues(q, base)[i - 1].left) + q[i].delay
  {
    hide Dues;
    DuesCons(q, base);
    if i > 0 {
      DeltaOf(q[1..], base + q[0].delay, i - 1);
      assert Dues(q, base)[i] == Dues(q, base)[1..][i - 1];
      assert i > 1 ==> Dues(q, base)[i - 1] == Dues(q, base)[1..][i - 2];
    }
  }

  /** A queued timer carries the mark of a stopped one if and only if K_FOREVER is left to it and
      nothing to the timers before it. */
  lemma MarkExact(c: Cells, root: Id, q: seq<Entry>, max: nat, id: Id)
    requires Seg(c, root, q, Null) && UniqueItems(q) && id in Items(q) && forall d :: d in Dues(q) ==> d.left <= max
    ensures Delay(c, id) == max <==> Hidden(max, Dues(q), id)
  {
    hide Dues, Seg, Items, UniqueItems;
    var i := ItemIndex(q, id);
    var l := Dues(q);
    SegAt(c, root, q, i);
    DeltaOf(q, 0, i);
    assert l[i] in l && l[i].id == id;
    if Hidden(max, l, id) {
      var j :| 0 <= j < |l| && l[j] == Due(id, max) && (j == 0 || l[j - 1].left == 0);
      OneIndex(q, i, j);
    }
  }

  lemma SoundQueue(c: Config, q: seq<Entry>, periods: map<Id, nat>)
    requires Sound(c, Timers(Dues(q), periods))
    ensures Times(Dues(q)).Keys == Items(q) && UniqueItems(q) && Null !in periods && Items(q) <= periods.Keys
    ensures forall d :: d in Dues(q) ==> d.left <= c.max
  {
    hide Dues, Times, Items, UniqueItems, Unique;
    ItemsAreDues(q, 0);
    UniqueAreDues(q, 0);
    forall id | id in Items(q) ensures id in periods {
      TimesMember(Dues(q), id);
    }
  }

  lemma HiddenQueued(max: nat, l: seq<Due>, id: Id)
    requires Hidden(max, l, id) && Unique(l)
    ensures id in Times(l)
  {
    TimesMember(l, id);
  }

  class TimerModule {
    const mem: Memory
    const queue: TQueue
    const slice: nat
    const max: nat
    var periods: map<Id, nat>
    ghost var fired: seq<Id>

    ghost function Conf(): Config {
      Config(slice, max)
    }

    ghost function S(): Timers
      reads this, queue
    {
      Timers(Dues(queue.q), periods)
    }

    /** Stopped timers carry the mark; `popped` is the timer whose handler runs, if any. */
    ghost predicate Marked(popped: Id)
      reads this, queue, mem
    {
      forall id :: id in periods && id !in Items(queue.q) && id != popped ==> Delay(mem.cells, id) == max
    }

    ghost predicate Intact(popped: Id)
      reads this, queue, mem
    {
      && queue.mem == mem && queue.max == max && 1 <= slice <= max
      && queue.Valid() && Sound(Conf(), S()) && Periodic(Conf(), S()) && Marked(popped)
    }

    ghost predicate Valid()
      reads this, queue, mem
    {
      Intact(Null)
    }

    constructor (slice: nat, max: nat)
      requires 1 <= slice <= max
      ensures Valid() && this.slice == slice && this.max == max && S() == Timers([], map[])
      ensures fresh(queue) && fresh(mem)
    {
      var m := new Memory();
      mem := m;
      queue := new TQueue(m, max);
      this.slice, this.max, periods, fired := slice, max, map[], [];
    }

    /** The mark says that a timer is not queued, except for the queued timers that carry it. */
    lemma MarkMeans(popped: Id, id: Id)
      requires Intact(popped) && id in periods && id != popped
      ensures Delay(mem.cells, id) == max <==> id !in Items(queue.q) || Hidden(max, S().l, id)
      ensures Times(S().l).Keys == Items(queue.q) && UniqueItems(queue.q) && id != Null && Null !in Items(queue.q)
    {
      hide Dues, Seg, Items, Total, Times, Unique, Sorted, Hidden, UniqueItems;
      SoundQueue(Conf(), queue.q, periods);
      if id in Items(queue.q) {
        MarkExact(mem.cells, queue.root, queue.q, max, id);
      }
    }

    /** k_timer_started: true if and only if the timer is queued and not hidden by the mark. */
    method Started(id: Id) returns (started: bool)
      requires Valid() && id in periods && id != Null
      ensures started <==> id in Items(queue.q) && !Hidden(max, S().l, id)
    {
      MarkMeans(Null, id);
      started := Delay(mem.cells, id) != max;
    }

    /** z_timer_start. */
    method Enqueue(id: Id, delay: nat)
      requires queue.mem == mem && queue.max == max && queue.Valid()
      requires id != Null && id !in Items(queue.q) && delay <= max
      modifies queue, mem
      ensures queue.Valid() && Dues(queue.q) == InsertDue(Dues(old(queue.q)), id, delay)
      ensures Items(queue.q) == Items(old(queue.q)) + {id}
      ensures Frame(old(mem.cells), mem.cells, Items(old(queue.q)) + {id})
    {
      hide Dues, Seg, Items, Total, Insert, InsertDue, UniqueItems;
      InsertMeans(queue.q, id, delay, 0);
      InsertItems(queue.q, id, delay);
      queue.Schedule(id, delay);
    }

    /** k_timer_init. */
    method Init(id: Id, period: nat, delay: nat) returns (ret: int)
      requires Valid() && Allowed(Conf(), S(), Op.Init(id, period, delay))
      modifies this, queue, mem
      ensures Valid() && S() == Apply(Conf(), old(S()), Op.Init(id, period, delay))
      ensures ret == if period == 0 then EINVAL else 0
    {
      hide Dues, Seg, Items, Total, InsertDue, Times, Unique, Sound, Periodic, Insert, UniqueItems;
      SoundQueue(Conf(), queue.q, periods);
      StepKeeps(Conf(), S(), Op.Init(id, period, delay));
      if period == 0 {
        return EINVAL;
      }
      periods := periods[id := period];
      if period != max {
        Enqueue(id, delay);
      } else {
        mem.SetDelay(id, max);
        SegFramed(old(mem.cells), mem.cells, queue.root, queue.q, Null);
      }
      return 0;
    }

    /** k_timer_start and k_timer_stop, from outside or from the handler of another timer. */
    method Invoke(call: Call, ghost popped: Id) returns (ret: int)
      requires Intact(popped) && CallSafe(Conf(), S(), call) && call.id != popped && popped !in Items(queue.q)
      modifies queue, mem
      ensures Intact(popped) && S() == DoCall(Conf(), old(S()), call) && popped !in Items(queue.q)
      ensures At(mem.cells, popped) == At(old(mem.cells), popped)
      ensures ret == if call.Start? && call.id !in Times(old(S()).l) && call.delay == max then EINVAL
                     else if call.Start? && Hidden(max, old(S()).l, call.id) then EINVAL else 0
    {
      hide Dues, Seg, Items, Total, InsertDue, Times, Unique, Sorted, Sound, Periodic, Hidden, Insert, UniqueItems, Forget, Delete;
      var id := call.id;
      CallKeeps(Conf(), S(), call);
      MarkMeans(popped, id);
      HiddenIn(Conf(), S(), id);
      if call.Start? {
        ret := StartTimer(id, call.delay);
      } else {
        StopTimer(id);
        ret := 0;
      }
    }

    method StartTimer(id: Id, delay: nat) returns (ret: int)
      requires queue.mem == mem && queue.max == max && queue.Valid() && id != Null && delay <= max
      requires Delay(mem.cells, id) == max ==> delay == max || id !in Items(queue.q)
      modifies queue, mem
      ensures queue.Valid() && ret == if old(Delay(mem.cells, id)) == max && delay == max then EINVAL else 0
      ensures if old(Delay(mem.cells, id)) != max || delay == max then queue.q == old(queue.q) && mem.cells == old(mem.cells)
              else && Dues(queue.q) == InsertDue(Dues(old(queue.q)), id, delay) && Items(queue.q) == Items(old(queue.q)) + {id}
                   && Frame(old(mem.cells), mem.cells, Items(old(queue.q)) + {id})
    {
      if Delay(mem.cells, id) != max {
        return 0;
      }
      if delay == max {
        return EINVAL;
      }
      Enqueue(id, delay);
      return 0;
    }

    method StopTimer(id: Id)
      requires queue.mem == mem && queue.max == max && queue.Valid() && id != Null
      modifies queue, mem
      ensures queue.Valid()
      ensures if old(Delay(mem.cells, id)) == max then queue.q == old(queue.q) && mem.cells == old(mem.cells)
              else && Dues(queue.q) == Forget(Dues(old(queue.q)), id) && Items(queue.q) == Items(old(queue.q)) - {id}
                   && Frame(old(mem.cells), mem.cells, Items(old(queue.q)) + {id}) && Delay(mem.cells, id) == max
    {
      hide Dues, Seg, Items, Total, Delete, Forget, UniqueItems;
      if Delay(mem.cells, id) == max {
        return;
      }
      DeleteMeans(queue.q, id, 0);
      DeleteItems(queue.q, id);
      var r := queue.Remove(id);
      ghost var c := mem.cells;
      mem.SetDelay(id, max);
      SegFramed(c, mem.cells, queue.root, queue.q, Null);
    }

    /** The calls of a handler, while its own timer is popped: stopping that one sets the mark. */
    method Execute(calls: seq<Call>, popped: Id)
      requires Intact(popped) && CallsSafe(Conf(), S(), calls, popped) && Later(calls, popped)
      requires popped !in Items(queue.q) && popped != Null && Delay(mem.cells, popped) == 0
      modifies queue, mem
      ensures Intact(popped) && S() == DoCalls(Conf(), old(S()), calls, popped) && popped !in Items(queue.q)
      ensures Delay(mem.cells, popped) == if Stop(popped) in calls then max else 0
    {
      hide Dues, Items, Sound, Periodic, DoCall, CallSafe, Times, Seg, Total, UniqueItems;
      for i := 0 to |calls|
        invariant Intact(popped) && popped !in Items(queue.q) && CallsSafe(Conf(), S(), calls[i..], popped)
        invariant DoCalls(Conf(), S(), calls[i..], popped) == DoCalls(Conf(), old(S()), calls, popped)
        invariant Delay(mem.cells, popped) == if Stop(popped) in calls[..i] then max else 0
      {
        assert calls[i..][0] == calls[i] && calls[i..][1..] == calls[i + 1..] && calls[..i + 1] == calls[..i] + [calls[i]];
        if calls[i].id == popped {
          InvokeOwn(calls[i], popped);
        } else {
          var r := Invoke(calls[i], popped);
        }
      }
      assert calls[..|calls|] == calls;
    }

    /** A call of a handler on its own timer: a start finds it running, a stop finds nothing to
        remove and sets the mark. */
    method InvokeOwn(call: Call, popped: Id)
      requires Intact(popped) && call.id == popped && popped !in Items(queue.q) && popped != Null
      requires call.Start? ==> Delay(mem.cells, popped) == 0 && call.delay <= max
      modifies queue, mem
      ensures Intact(popped) && S() == old(S()) && popped !in Items(queue.q)
      ensures Delay(mem.cells, popped) == if call.Stop? then max else 0
    {
      hide Dues, Seg, Items, Total, InsertDue, Times, Unique, Sorted, Sound, Periodic, Insert, UniqueItems, Forget, Delete;
      SoundQueue(Conf(), queue.q, periods);
      ForgetAbsent(S().l, popped);
      if call.Start? {
        var r := StartTimer(popped, call.delay);
      } else {
        StopTimer(popped);
      }
    }

    /** One round of the loop of z_timers_process. */
    method FireNext(acts: Acts) returns (more: bool)
      requires Valid() && WellActs(acts) && PassSafe(Conf(), S(), acts)
      modifies queue, mem
      ensures Valid()
      ensures var s := old(S());
              if s.l != [] && s.l[0].left == 0 then more && S() == FireOne(Conf(), s, acts) else !more && S() == s
    {
      hide Dues, Seg, Items, Total, Times, Unique, Sorted, Zeros, Insert, InsertDue, UniqueItems, DoCalls, CallsSafe, Sound, Periodic, Hidden, Later;
      PopFacts(Conf(), mem.cells, queue.root, queue.q, periods, acts);
      ghost var q0, s0 := queue.q, S();
      var item := queue.Pop();
      if item == Null {
        return false;
      }
      var act := ActOf(acts, item);
      FireOneKeeps(Conf(), s0, acts);
      Execute(act.calls, item);
      if act.ret != 0 {
        ghost var c := mem.cells;
        mem.SetDelay(item, max);
        SegFramed(c, mem.cells, queue.root, queue.q, Null);
      }
      if Delay(mem.cells, item) != max {
        Enqueue(item, periods[item]);
      }
      return true;
    }

    /** z_timers_process: `acts` is what the handlers do. */
    method Process(acts: Acts)
      requires Valid() && Allowed(Conf(), S(), Op.Pass(acts))
      modifies this, queue, mem
      ensures Valid() && S() == Apply(Conf(), old(S()), Op.Pass(acts))
      ensures fired == Fired(Conf(), old(S()), acts)
    {
      hide Dues, Seg, Items, Total, Shift, Sound, Periodic, UniqueItems, Times, FireAll, FireOne, Zeros, PassSafe, WellActs;
      AgedSound(Conf(), S());
      AgedPeriods(Conf(), S());
      ShiftMeans(queue.q, slice, 0);
      ShiftItems(queue.q, slice);
      queue.Elapse(slice);
      ghost var s0 := S();
      fired := [];
      while true
        invariant Valid() && periods == s0.periods && WellActs(acts) && PassSafe(Conf(), S(), acts)
        invariant Sound(Conf(), s0) && Periodic(Conf(), s0)
        invariant var r := FireAll(Conf(), S(), acts); FireAll(Conf(), s0, acts) == Round(r.s, fired + r.fired)
        decreases Zeros(S().l)
      {
        ghost var s := S();
        PassRound(Conf(), s, acts);
        var more := FireNext(acts);
        if !more {
          assert fired + [] == fired;
          break;
        }
        ghost var r := FireAll(Conf(), S(), acts);
        assert fired + ([s.l[0].id] + r.fired) == (fired + [s.l[0].id]) + r.fired;
        fired := fired + [s.l[0].id];
      }
    }
  }

  /** What popping the front of the queue means. */
  lemma PopFacts(c: Config, cells: Cells, root: Id, q: seq<Entry>, periods: map<Id, nat>, acts: Acts)
    requires Sound(c, Timers(Dues(q), periods)) && Periodic(c, Timers(Dues(q), periods)) && WellActs(acts)
    requires PassSafe(c, Timers(Dues(q), periods), acts) && Seg(cells, root, q, Null) && c.max >= 1
    ensures var s := Timers(Dues(q), periods);
            && (s.l == [] <==> q == []) && Null !in periods
            && (q != [] ==> s.l[0] == Due(q[0].id, q[0].delay))
            && (q != [] && q[0].delay == 0 ==>
                  && s.l[1..] == Dues(q[1..]) && q[0].id !in Items(q[1..]) && Items(q) == Items(q[1..]) + {q[0].id}
                  && Delay(cells, q[0].id) == 0 && q[0].id in periods && periods[q[0].id] <= c.max && q[0].id != Null
                  && Sound(c, s.(l := s.l[1..])) && Periodic(c, s.(l := s.l[1..]))
                  && CallsSafe(c, s.(l := s.l[1..]), ActOf(acts, q[0].id).calls, q[0].id) && Later(ActOf(acts, q[0].id).calls, q[0].id))
  {
    hide Dues, Times, Unique, Sorted, Zeros, CallsSafe, FireOne, Later, Hidden;
    var s := Timers(Dues(q), periods);
    SoundQueue(c, q, periods);
    if q != [] {
      DuesCons(q, 0);
      if q[0].delay == 0 {
        PopKeeps(c, s);
        SegAt(cells, root, q, 0);
      }
    }
  }

  lemma PassRound(c: Config, s: Timers, acts: Acts)
    requires Sound(c, s) && Periodic(c, s) && WellActs(acts) && PassSafe(c, s, acts)
    ensures if s.l == [] || s.l[0].left != 0 then FireAll(c, s, acts) == Round(s, [])
            else var s' := FireOne(c, s, acts);
                 && Sound(c, s') && Periodic(c, s') && s'.periods == s.periods && Zeros(s'.l) < Zeros(s.l) && PassSafe(c, s', acts)
                 && FireAll(c, s, acts) == FireAll(c, s', acts).(fired := [s.l[0].id] + FireAll(c, s', acts).fired)
  {
    hide Sound, FireOne, CallsSafe;
    if s.l != [] && s.l[0].left == 0 {
      FireOneKeeps(c, s, acts);
    }
  }

  lemma HiddenIn(c: Config, s: Timers, id: Id)
    requires Sound(c, s)
    ensures Hidden(c.max, s.l, id) ==> id in Times(s.l)
    ensures id !in Times(s.l) ==> Forget(s.l, id) == s.l
  {
    hide Times, Unique, Forget;
    if Hidden(c.max, s.l, id) {
      HiddenQueued(c.max, s.l, id);
    }
    if id !in Times(s.l) {
      ForgetAbsent(s.l, id);
    }
  }
}
