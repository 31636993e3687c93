/** How a queued timer comes to carry the mark of a stopped one. */
module TimerHidden {
  import opened Links
  import opened DeltaQueue
  import opened TimeQueue
  import opened TimerPasses
  import opened TimerRuns
  import opened Timer

  /** A timer queued with K_FOREVER, as its start delay or its period, is hidden from the start if
      and only if no time is left to any other timer. */
  lemma HiddenAtOnce(c: Config, s: Timers, id: Id)
    requires Sound(c, s) && id !in Times(s.l) && c.max >= 1
    ensures Hidden(c.max, InsertDue(s.l, id, c.max), id) <==> forall d :: d in s.l ==> d.left == 0
  {
    hide Unique, Times, InsertDue, Hidden;
    var k := InsertDuePlace(s.l, id, c.max);
    var l := s.l;
    Fits(c, s, k);
    assert l[..k] == l && l[k..] == [];
    assert InsertDue(l, id, c.max) == l + [Due(id, c.max)];
    HiddenLast(c.max, l, id);
    LastIsMost(l);
  }

  lemma HiddenLast(max: nat, l: seq<Due>, id: Id)
    requires forall i :: 0 <= i < |l| ==> l[i].id != id
    ensures Hidden(max, l + [Due(id, max)], id) <==> l == [] || l[|l| - 1].left == 0
  {
    var l' := l + [Due(id, max)];
    assert l'[|l|] == Due(id, max) && forall i :: 0 <= i < |l| ==> l'[i] == l[i];
  }

  lemma LastIsMost(l: seq<Due>)
    requires Sorted(l)
    ensures l == [] || l[|l| - 1].left == 0 <==> forall d :: d in l ==> d.left == 0
  {
    if l != [] {
      assert l[|l| - 1] in l;
      forall d | d in l ensures d.left <= l[|l| - 1].left {
        var i :| 0 <= i < |l| && l[i] == d;
      }
    }
  }

  lemma Fits(c: Config, s: Timers, k: nat)
    requires Sound(c, s) && k <= |s.l| && forall i :: 0 <= i < |s.l| ==> (i < k <==> s.l[i].left <= c.max)
    ensures k == |s.l|
  {
    hide Unique;
    assert s.l != [] ==> s.l[|s.l| - 1] in s.l;
  }

  const A := Item(1)
  const F := Item(2)

  function Pair(l: seq<Due>, max: nat): Timers {
    Timers(l, map[A := 5, F := max])
  }

  /** Two timers at most: the list in full. */
  lemma Short(x: Due, y: Due)
    requires x.id != y.id
    ensures Unique([x]) && Unique([x, y]) && Times([x]) == map[x.id := x.left]
    ensures Times([x, y]) == map[y.id := y.left, x.id := x.left]
    ensures Forget([x, y], x.id) == [y]
  {
    assert [x][1..] == [] && [x, y][1..] == [y] && [y][1..] == [];
    assert Times([x]) == Times([])[x.id := x.left];
    assert Times([y]) == Times([])[y.id := y.left];
  }

  lemma Initialised(max: nat)
    requires max > 10
    ensures var c := Config(1, max);
            var s1 := Timers([Due(A, 10)], map[A := 5]);
            && Allowed(c, Timers([], map[]), Init(A, 5, 10)) && Apply(c, Timers([], map[]), Init(A, 5, 10)) == s1
            && Allowed(c, s1, Init(F, max, 0)) && Apply(c, s1, Init(F, max, 0)) == Pair(s1.l, max)
  {
    Short(Due(A, 10), Due(F, 0));
  }

  lemma Started(max: nat)
    requires max > 10
    ensures var c, s := Config(1, max), Pair([Due(A, 10)], max);
            CallSafe(c, s, Start(F, 1)) && DoCall(c, s, Start(F, 1)) == Pair([Due(F, 1), Due(A, 10)], max)
  {
    Short(Due(A, 10), Due(F, 1));
  }

  lemma NothingDue(c: Config, s: Timers)
    requires Sound(c, s) && Periodic(c, s) && s.l != [] && s.l[0].left > 0
    ensures PassSafe(c, s, map[]) && WellActs(map[]) && FireAll(c, s, map[]) == Round(s, [])
  {
  }

  lemma Sounds(max: nat)
    requires max > 10
    ensures var c := Config(1, max);
            && Periodic(c, Pair([], max))
            && Sound(c, Pair([Due(F, 0), Due(A, 9)], max)) && Sound(c, Pair([Due(A, 9), Due(F, max)], max))
  {
    hide Times, Unique;
    Short(Due(F, 0), Due(A, 9));
    Short(Due(A, 9), Due(F, max));
  }

  /** A pass in which F, whose period is K_FOREVER, fires. */
  lemma ForeverFires(max: nat)
    requires max > 10
    ensures var c, s := Config(1, max), Pair([Due(F, 1), Due(A, 10)], max);
            && Allowed(c, s, Pass(map[])) && Apply(c, s, Pass(map[])) == Pair([Due(A, 9), Due(F, max)], max)
  {
    hide Times, Unique, Sound, Periodic, WellActs;
    var c, s := Config(1, max), Pair([Due(F, 1), Due(A, 10)], max);
    var s1, s2 := Pair([Due(F, 0), Due(A, 9)], max), Pair([Due(A, 9), Due(F, max)], max);
    Sounds(max);
    assert Age(s.l, 1) == s1.l;
    Rearmed(max);
    AgedPeriods(c, Pair([], max));
    assert Periodic(c, s) && Periodic(c, s1) && Periodic(c, s2) by { SamePeriods(c, Pair([], max), s); SamePeriods(c, Pair([], max), s1); SamePeriods(c, Pair([], max), s2); }
    NothingDue(c, s2);
    PassRound(c, s1, map[]);
  }

  lemma SamePeriods(c: Config, s: Timers, s': Timers)
    requires Periodic(c, s) && s'.periods == s.periods
    ensures Periodic(c, s')
  {
  }

  lemma Rearmed(max: nat)
    requires max > 10
    ensures FireOne(Config(1, max), Pair([Due(F, 0), Due(A, 9)], max), map[]) == Pair([Due(A, 9), Due(F, max)], max)
  {
    assert [Due(F, 0), Due(A, 9)][1..] == [Due(A, 9)];
    assert InsertDue([Due(A, 9)], F, max) == [Due(A, 9)] + InsertDue([], F, max);
  }

  lemma Stopped(max: nat)
    requires max > 10
    ensures var c, s := Config(1, max), Pair([Due(A, 9), Due(F, max)], max);
            && CallSafe(c, s, Stop(A)) && DoCall(c, s, Stop(A)) == Pair([Due(F, max)], max)
            && !Hidden(max, s.l, F) && Hidden(max, [Due(F, max)], F)
            && F in Times(s.l) && F in Times([Due(F, max)])
  {
    hide Times, Unique, Forget;
    Short(Due(A, 9), Due(F, max));
    Short(Due(F, max), Due(A, 9));
    assert [Due(F, max)][0] == Due(F, max);
  }

  /**
    F has the period K_FOREVER.  It is started, it fires and is re-armed behind A, and k_timer_started
    says so.  Then A is stopped.  F is still queued, and k_timer_started says that it is not.
  */
  method StoppedByTheMark(max: nat) returns (m: TimerModule, before: bool, after: bool)
    requires max > 10
    ensures m.Valid() && before && !after && F in Items(m.queue.q)
  {
    hide Sound, Periodic, Times, Unique, Sorted, Dues, Items, Total, UniqueItems, Hidden, Forget, InsertDue, FireAll, PassSafe, WellActs, Allowed, Apply, DoCall, CallSafe;
    m := new TimerModule(1, max);
    Initialised(max);
    var r := m.Init(A, 5, 10);
    r := m.Init(F, max, 0);
    m.MarkMeans(Null, F);
    Started(max);
    r := m.Invoke(Start(F, 1), Null);
    ForeverFires(max);
    m.Process(map[]);
    Stopped(max);
    m.MarkMeans(Null, F);
    before := m.Started(F);
    r := m.Invoke(Stop(A), Null);
    m.MarkMeans(Null, F);
    after := m.Started(F);
  }

  // ----- linking a queued timer again -----

  /** k_timer_start with a finite delay of a timer that is hidden: the code takes it for a stopped
      one and links it again, and always the list of timers has no end then. */
  method StartHidden(m: TimerModule, id: Id, delay: nat)
    requires m.Valid() && id in m.periods && Hidden(m.max, m.S().l, id) && delay < m.max
    modifies m.queue, m.mem
    ensures forall q :: !Seg(m.mem.cells, m.queue.root, q, Null)
  {
    hide Dues, Items, Seg, UniqueItems, Total, Unique, Sound, Periodic, Hidden, Times;
    HiddenIn(m.Conf(), m.S(), id);
    SoundQueue(m.Conf(), m.queue.q, m.periods);
    m.MarkMeans(Null, id);
    assert Delay(m.mem.cells, id) == m.max;
    m.queue.ScheduleQueued(id, delay);
  }

  /** k_timer_init of a timer that is queued: with a finite period the list of timers has no end
      then; with K_FOREVER the timer's delta is overwritten by the mark. */
  method InitQueued(m: TimerModule, id: Id, period: nat, delay: nat) returns (ret: int)
    requires m.Valid() && id in Items(m.queue.q) && 0 < period <= m.max && delay <= m.max
    modifies m, m.queue, m.mem
    ensures ret == 0 && m.periods == old(m.periods)[id := period]
    ensures period < m.max ==> forall q :: !Seg(m.mem.cells, m.queue.root, q, Null)
    ensures period == m.max ==> Frame(old(m.mem.cells), m.mem.cells, {id}) && Delay(m.mem.cells, id) == m.max
                                && After(m.mem.cells, id) == old(After(m.mem.cells, id)) && m.queue.root == old(m.queue.root)
  {
    hide Dues, Items, Seg, UniqueItems, Total, Unique, Sound, Periodic, Times;
    m.periods := m.periods[id := period];
    if period != m.max {
      m.queue.ScheduleQueued(id, delay);
    } else {
      m.mem.SetDelay(id, m.max);
    }
    return 0;
  }
}
