/** How the kernel's memory represents the state of the scheduler, piece by piece. */
module KernelRep {
  import opened Links
  import opened DeltaQueue
  import opened TimeQueue
  import opened Sched
  import opened SchedInv
  import A = Abort

  /** The bits of `thread->flags`. */
  datatype Bits = Bits(state: State, expired: bool, canceled: bool, wakeup: bool)

  function BitsOf(c: Tcb): Bits {
    Bits(c.state, c.expired, c.canceled, c.wakeup)
  }

  ghost predicate FlagsRep(flags: map<Id, Bits>, swap: map<Id, Swap>, tcbs: map<Id, Tcb>) {
    && flags.Keys == tcbs.Keys == swap.Keys
    && forall t :: t in tcbs ==> flags[t] == BitsOf(tcbs[t]) && swap[t] == tcbs[t].swap
  }

  ghost predicate RingRep(c: Cells, ring: seq<Id>) {
    ring != [] ==> Ring(c, ring)
  }

  ghost predicate QueuesRep(w: Cells, queues: map<Id, seq<Id>>) {
    forall q :: q in queues ==> Ring(w, [q] + queues[q])
  }

  /** Unlinking the node changes nothing: it points to itself. */
  ghost predicate Harmless(w: Cells, t: Id) {
    At(w, t) == Node(t, t)
  }

  /** Nothing was ever stored through a null pointer, and the nodes that are to be harmless are. */
  ghost predicate TiesRep(w: Cells, tcbs: map<Id, Tcb>) {
    && Null !in w
    && forall t :: t in tcbs && tcbs[t].waiting == Null && tcbs[t].clean ==> Harmless(w, t)
  }

  /** No tie is in the run ring and in the timeout queue at once. */
  ghost predicate Apart(ring: seq<Id>, q: seq<Entry>) {
    forall t :: t in ring ==> t !in Items(q)
  }

  /** The kernel's variables and memory at one moment. */
  datatype Image = Image(flags: map<Id, Bits>, swap: map<Id, Swap>, current: Id, runQueue: Id, readyCount: nat,
                         ties: Cells, waits: Cells, root: Id, q: seq<Entry>)

  /** The image represents the state s of the scheduler. */
  ghost predicate Rep(m: Image, s: Sys) {
    && |s.tcbs| <= 256
    && FlagsRep(m.flags, m.swap, s.tcbs)
    && m.current == s.current && m.runQueue == s.cursor && m.readyCount == |s.ring| < 256
    && RingRep(m.ties, s.ring)
    && Seg(m.ties, m.root, m.q, Null) && UniqueItems(m.q) && Total(m.q) <= s.cfg.forever && Dues(m.q) == s.timeouts
    && Apart(s.ring, m.q)
    && QueueInv(s.tcbs, s.queues) && QueuesRep(m.waits, s.queues) && TiesRep(m.waits, s.tcbs)
  }

  // ----- the flags of one thread change -----

  lemma FlagsPut(flags: map<Id, Bits>, swap: map<Id, Swap>, tcbs: map<Id, Tcb>, t: Id, c: Tcb)
    requires FlagsRep(flags, swap, tcbs) && t in tcbs && c.swap == tcbs[t].swap
    ensures t in flags && flags[t] == BitsOf(tcbs[t])
    ensures FlagsRep(flags[t := BitsOf(c)], swap, tcbs[t := c])
  {
  }

  lemma SwapPut(flags: map<Id, Bits>, swap: map<Id, Swap>, tcbs: map<Id, Tcb>, t: Id, c: Tcb)
    requires FlagsRep(flags, swap, tcbs) && t in tcbs && BitsOf(c) == BitsOf(tcbs[t])
    ensures FlagsRep(flags, swap[t := c.swap], tcbs[t := c])
  {
  }

  lemma TiesSame(w: Cells, tcbs: map<Id, Tcb>, t: Id, c: Tcb)
    requires TiesRep(w, tcbs) && t in tcbs && tcbs[t].waiting == c.waiting && tcbs[t].clean == c.clean
    ensures TiesRep(w, tcbs[t := c])
  {
  }

  // ----- the run ring and the timeout queue share one memory -----

  lemma RingRepFramed(c: Cells, c': Cells, ring: seq<Id>, touched: set<Id>)
    requires RingRep(c, ring) && Frame(c, c', touched) && forall t :: t in ring ==> t !in touched
    ensures RingRep(c', ring)
  {
    if ring != [] {
      RingFramed(c, c', ring, touched);
    }
  }

  lemma TimeoutsFramed(c: Cells, c': Cells, root: Id, q: seq<Entry>, ring: seq<Id>, t: Id)
    requires Seg(c, root, q, Null) && Apart(ring, q) && t !in Items(q) && Frame(c, c', Elems(ring) + {t})
    ensures Seg(c', root, q, Null)
  {
    SegFramed(c, c', root, q, Null);
  }

  lemma ApartJoined(ring: seq<Id>, q: seq<Entry>, t: Id)
    requires Apart(ring, q) && t !in Items(q)
    ensures Apart(Joined(ring, t), q)
  {
    forall x | x in Joined(ring, t) ensures x in ring || x == t { }
  }

  lemma ApartLess(ring: seq<Id>, q: seq<Entry>, ring': seq<Id>, q': seq<Entry>)
    requires Apart(ring, q) && Items(q') <= Items(q) && forall x :: x in ring' ==> x in ring
    ensures Apart(ring', q')
  {
  }

  // ----- the initial state -----

  function BootFlags(ready: seq<Id>, others: set<Id>): map<Id, Bits> {
    map x | x in BootTcbs(ready, others) :: BitsOf(BootTcbs(ready, others)[x])
  }

  function BootSwap(ready: seq<Id>, others: set<Id>): map<Id, Swap> {
    map x | x in BootTcbs(ready, others) :: Nothing
  }

  lemma BootRep(cfg: Config, ready: seq<Id>, others: set<Id>, queues: set<Id>)
    requires Inv(Boot(cfg, ready, others, queues)) && |ready| + |others| <= 254
    ensures var s := Boot(cfg, ready, others, queues);
            && FlagsRep(BootFlags(ready, others), BootSwap(ready, others), s.tcbs) && QueueInv(s.tcbs, s.queues)
            && Apart(s.ring, []) && |s.tcbs| <= 256
  {
    hide BootTcbs, RingInv, TimeInv, QueueInv;
    var s := Boot(cfg, ready, others, queues);
    forall t | t in s.tcbs ensures s.tcbs[t].swap == Nothing {
      BootTcb(ready, others, t);
    }
    BootSize(ready, others);
    assert |s.tcbs| == |s.tcbs.Keys|;
  }

  lemma BootSize(ready: seq<Id>, others: set<Id>)
    ensures |BootTcbs(ready, others).Keys| <= |ready| + |others| + 2
  {
    hide BootTcbs;
    ElemsSize(ready);
    var all := others + Elems(ready) + {MAIN, IDLE};
    forall t | t in BootTcbs(ready, others).Keys ensures t in all {
      BootTcb(ready, others, t);
    }
    UnionSize(others, Elems(ready));
    UnionSize(others + Elems(ready), {MAIN, IDLE});
    SubsetSize(BootTcbs(ready, others).Keys, all);
  }

  lemma UnionSize(a: set<Id>, b: set<Id>)
    ensures |a + b| <= |a| + |b|
  {
    assert a + b == a + (b - a);
    SubsetSize(b - a, b);
  }

  lemma {:induction false} ElemsSize(s: seq<Id>)
    ensures |Elems(s)| <= |s|
  {
    if s != [] {
      ElemsSize(s[1..]);
      assert Elems(s) == {s[0]} + Elems(s[1..]);
    }
  }

  lemma BootQueues(w: Cells, cfg: Config, ready: seq<Id>, others: set<Id>, queues: set<Id>)
    requires Null !in w && forall q :: q in queues ==> Ring(w, [q])
    ensures var s := Boot(cfg, ready, others, queues); QueuesRep(w, s.queues) && TiesRep(w, s.tcbs)
  {
    hide BootTcbs;
    var s := Boot(cfg, ready, others, queues);
    forall q | q in s.queues ensures Ring(w, [q] + s.queues[q]) {
      assert [q] + s.queues[q] == [q];
    }
    forall t | t in s.tcbs ensures !s.tcbs[t].clean {
      BootTcb(ready, others, t);
    }
  }

  lemma BootImage(m: Image, cfg: Config, ready: seq<Id>, others: set<Id>, queues: set<Id>)
    requires var s := Boot(cfg, ready, others, queues);
             && |s.tcbs| <= 256 && FlagsRep(m.flags, m.swap, s.tcbs) && QueueInv(s.tcbs, s.queues) && Apart(s.ring, [])
             && QueuesRep(m.waits, s.queues) && TiesRep(m.waits, s.tcbs)
    requires Ring(m.ties, [MAIN] + ready) && m.current == MAIN && m.runQueue == MAIN && m.readyCount == 1 + |ready| < 256
    requires m.root == Null && m.q == []
    ensures Rep(m, Boot(cfg, ready, others, queues)) && Boot(cfg, ready, others, queues).cfg == cfg
  {
    hide FlagsRep, QueueInv, Apart, QueuesRep, TiesRep, Ring;
  }

  lemma NextFresh(ready: seq<Id>, i: nat)
    requires Distinct([MAIN] + ready) && i < |ready| && Null !in ready
    ensures ready[i] !in [MAIN] + ready[..i] && ready[i] != Null
  {
    var r := [MAIN] + ready;
    assert r[i + 1] == ready[i] && forall k :: 0 <= k < i + 1 ==> r[k] == ([MAIN] + ready[..i])[k];
  }

  // ----- the functions of the kernel -----

  lemma RepFacts(m: Image, s: Sys)
    requires Rep(m, s)
    ensures m.current == s.current && m.runQueue == s.cursor && m.readyCount == |s.ring| < 256
    ensures RingRep(m.ties, s.ring) && Apart(s.ring, m.q) && Dues(m.q) == s.timeouts
    ensures Seg(m.ties, m.root, m.q, Null) && UniqueItems(m.q) && Total(m.q) <= s.cfg.forever
  {
  }

  lemma RepNull(m: Image, s: Sys)
    requires Rep(m, s)
    ensures Null !in m.waits
  {
  }

  /** The counter of READY threads has room for one that is not READY. */
  lemma RingRoom(m: Image, s: Sys, t: Id)
    requires Rep(m, s) && Core(s) && t in s.tcbs && t !in s.ring && t != IDLE
    ensures |s.ring| < 255
  {
    hide Rep;
    RingSize(s.ring, s.tcbs.Keys - {t, IDLE});
    RepSize(m, s);
  }

  lemma RepSize(m: Image, s: Sys)
    requires Rep(m, s)
    ensures |s.tcbs| <= 256
  {
  }

  lemma {:induction false} RingSize(r: seq<Id>, all: set<Id>)
    requires Distinct(r) && forall x :: x in r ==> x in all
    ensures |r| <= |all|
  {
    if r != [] {
      assert r[0] in r;
      RingSize(r[1..], all - {r[0]});
    }
  }

  lemma RepThread(m: Image, s: Sys, t: Id)
    requires Rep(m, s) && t in s.tcbs
    ensures t != Null && t in m.flags && m.flags[t] == BitsOf(s.tcbs[t]) && t in m.swap && m.swap[t] == s.tcbs[t].swap
  {
  }

  /** z_schedule: the flags changed and the tie was linked in behind the cursor. */
  lemma ScheduleRep(m: Image, s: Sys, t: Id, ties': Cells)
    requires Rep(m, s) && t in s.tcbs && t !in Items(m.q) && |s.ring| < 255
    requires Frame(m.ties, ties', Elems(s.ring) + {t}) && Ring(ties', Joined(s.ring, t))
    ensures Rep(m.(flags := m.flags[t := BitsOf(s.tcbs[t].(state := Ready))], ties := ties', readyCount := m.readyCount + 1,
                   runQueue := if s.ring == [] then t else m.runQueue), Schedule(s, t))
  {
    hide FlagsRep, QueueInv, QueuesRep, TiesRep, Apart, Items, Seg, Ring;
    var c := s.tcbs[t].(state := Ready);
    FlagsPut(m.flags, m.swap, s.tcbs, t, c);
    QueueSame(s.tcbs, s.queues, t, c);
    TiesSame(m.waits, s.tcbs, t, c);
    ApartJoined(s.ring, m.q, t);
    TimeoutsFramed(m.ties, ties', m.root, m.q, s.ring, t);
  }

  /** Only bits of one thread's flags changed. */
  lemma BitsRep(m: Image, s: Sys, t: Id, c: Tcb)
    requires Rep(m, s) && t in s.tcbs
    requires c.swap == s.tcbs[t].swap && c.waiting == s.tcbs[t].waiting && c.clean == s.tcbs[t].clean
    ensures Rep(m.(flags := m.flags[t := BitsOf(c)]), Put(s, t, c))
  {
    hide FlagsRep, QueueInv, QueuesRep, TiesRep, Apart, Items, Seg, Ring, RingRep;
    FlagsPut(m.flags, m.swap, s.tcbs, t, c);
    QueueSame(s.tcbs, s.queues, t, c);
    TiesSame(m.waits, s.tcbs, t, c);
  }

  /** swap_data was set. */
  lemma SwapRep(m: Image, s: Sys, t: Id, data: Swap)
    requires Rep(m, s) && t in s.tcbs
    ensures Rep(m.(swap := m.swap[t := data]), Put(s, t, s.tcbs[t].(swap := data)))
  {
    hide FlagsRep, QueueInv, QueuesRep, TiesRep, Apart, Items, Seg, Ring, RingRep;
    var c := s.tcbs[t].(swap := data);
    SwapPut(m.flags, m.swap, s.tcbs, t, c);
    QueueSame(s.tcbs, s.queues, t, c);
    TiesSame(m.waits, s.tcbs, t, c);
  }

  /** The timeout queue lost items, or only time. */
  lemma TimeoutsRep(m: Image, s: Sys, ties': Cells, root': Id, q': seq<Entry>)
    requires Rep(m, s) && Frame(m.ties, ties', Items(m.q)) && Items(q') <= Items(m.q)
    requires Seg(ties', root', q', Null) && UniqueItems(q') && Total(q') <= s.cfg.forever
    ensures Rep(m.(ties := ties', root := root', q := q'), s.(timeouts := Dues(q')))
  {
    hide FlagsRep, QueueInv, QueuesRep, TiesRep, Items, Seg, Ring, RingRep;
    RingRepFramed(m.ties, ties', s.ring, Items(m.q));
    ApartLess(s.ring, m.q, s.ring, q');
  }

  /** An item was scheduled that is not in the ring. */
  lemma ScheduledRep(m: Image, s: Sys, t: Id, timeout: nat, ties': Cells, root': Id)
    requires Rep(m, s) && t !in s.ring && t !in Items(m.q) && Frame(m.ties, ties', Items(m.q) + {t})
    requires var q' := Insert(m.q, t, timeout);
             Seg(ties', root', q', Null) && UniqueItems(q') && Total(q') <= s.cfg.forever
    ensures Rep(m.(ties := ties', root := root', q := Insert(m.q, t, timeout)),
                s.(timeouts := InsertDue(s.timeouts, t, timeout)))
  {
    hide FlagsRep, QueueInv, QueuesRep, TiesRep, Seg, Ring, RingRep, Items, Insert, InsertDue, Dues;
    RingRepFramed(m.ties, ties', s.ring, Items(m.q) + {t});
    InsertItems(m.q, t, timeout);
    InsertMeans(m.q, t, timeout, 0);
  }

  /** The ring was relinked without changing its members otherwise than by losing some. */
  lemma RelinkedRep(m: Image, s: Sys, ties': Cells, ring': seq<Id>, cursor': Id)
    requires Rep(m, s) && Frame(m.ties, ties', Elems(s.ring)) && RingRep(ties', ring') && |ring'| < 256
    requires forall x :: x in ring' ==> x in s.ring
    ensures Rep(m.(ties := ties', runQueue := cursor', readyCount := |ring'|), s.(ring := ring', cursor := cursor'))
  {
    hide FlagsRep, QueueInv, QueuesRep, TiesRep, Seg, Ring, RingRep, Items;
    ApartLess(s.ring, m.q, ring', m.q);
    SegFramed(m.ties, ties', m.root, m.q, Null);
  }

  /** The thread before the one that left, found through the links of the one that left. */
  lemma PredecessorFound(c: Cells, c': Cells, ring: seq<Id>)
    requires Ring(c, ring) && |ring| > 1 && Ring(c', ring[1..]) && At(c', ring[0]) == At(c, ring[0])
    ensures Prev(c', Next(c', ring[0])) == ring[|ring| - 1]
    ensures Ring(c', Backed(ring)) && Backed(ring)[0] == ring[|ring| - 1]
  {
    var r := ring[1..];
    assert Adjacent(c, ring[0], ring[1]);
    assert Adjacent(c', r[|r| - 1], r[0]);
    RingRotated(c', r, |r| - 1);
    assert r[|r| - 1..] + r[..|r| - 1] == Backed(ring);
  }

  lemma LeaveFrame(c: Cells, ring: seq<Id>, k: nat)
    requires Ring(c, ring) && k < |ring|
    ensures Prev(c, ring[k]) in ring && Next(c, ring[k]) in ring
  {
    var n := |ring|;
    var p, x := if k == 0 then n - 1 else k - 1, if k == n - 1 then 0 else k + 1;
    assert Adjacent(c, ring[p], ring[k]) && Adjacent(c, ring[k], ring[x]);
  }

  /** z_suspend of a READY thread: the ring closed over it and the cursor was set. */
  lemma LeaveRep(m: Image, s: Sys, t: Id, ties': Cells, cursor': Id)
    requires Rep(m, s) && t in s.ring && s.cursor == s.ring[0] && Distinct(s.ring) && Of(s, t).state.Ready?
    requires t == s.current ==> t == s.ring[0]
    requires Frame(m.ties, ties', {Prev(m.ties, t), Next(m.ties, t)})
    requires |s.ring| > 1 ==> Ring(ties', Without(s.ring, IndexOf(s.ring, t))) && At(ties', t) == At(m.ties, t)
    requires cursor' == if |s.ring| == 1 then IDLE
                        else if t == s.current then Prev(ties', Next(ties', t)) else s.cursor
    ensures Rep(m.(ties := ties', runQueue := cursor', readyCount := |s.ring| - 1), Suspend(s, t))
    ensures Suspend(s, t).cfg == s.cfg
  {
    hide Rep, IndexOf, Ring, Distinct, Suspend, Without;
    RepFacts(m, s);
    LeaveFrame(m.ties, s.ring, IndexOf(s.ring, t));
    DropMembers(s.ring, t);
    SuspendReady(s, t);
    if |s.ring| == 1 {
      RelinkedRep(m, s, ties', [], IDLE);
    } else if t == s.current {
      SuspendBacks(s);
      DropFirst(s.ring);
      PredecessorFound(m.ties, ties', s.ring);
      BackedMembers(s.ring);
      RelinkedRep(m, s, ties', Backed(s.ring), cursor');
    } else {
      RelinkedRep(m, s, ties', Drop(s.ring, t), s.cursor);
    }
  }

  lemma SuspendReady(s: Sys, t: Id)
    requires t in s.ring && Of(s, t).state.Ready?
    ensures Suspend(s, t).cfg == s.cfg
    ensures |s.ring| == 1 ==> Suspend(s, t) == s.(ring := [], cursor := IDLE)
    ensures |s.ring| > 1 && t != s.current ==> Suspend(s, t) == s.(ring := Drop(s.ring, t))
    ensures |Drop(s.ring, t)| == |s.ring| - 1
  {
    hide IndexOf;
  }

  /** `run_queue = run_queue->next`. */
  lemma RotateRep(m: Image, s: Sys)
    requires Rep(m, s) && s.ring != [] && s.cursor == s.ring[0]
    ensures var r := s.ring[1..] + [s.ring[0]];
            && Next(m.ties, m.runQueue) == r[0]
            && Rep(m.(runQueue := r[0]), s.(ring := r, cursor := r[0]))
  {
    hide FlagsRep, QueueInv, QueuesRep, TiesRep, Seg, Items, Apart;
    var r := s.ring[1..] + [s.ring[0]];
    if |s.ring| > 1 {
      assert Adjacent(m.ties, s.ring[0], s.ring[1]);
    }
    RingRotated(m.ties, s.ring, if |s.ring| == 1 then 0 else 1);
    assert r == if |s.ring| == 1 then s.ring[0..] + s.ring[..0] else s.ring[1..] + s.ring[..1];
    RelinkedRep(m, s, m.ties, r, r[0]);
  }

  lemma CurrentRep(m: Image, s: Sys, t: Id)
    requires Rep(m, s)
    ensures Rep(m.(current := t), s.(current := t))
  {
  }

  // ----- wait queues -----

  /** Two wait queues have no node in common. */
  lemma QueuesDisjoint(tcbs: map<Id, Tcb>, queues: map<Id, seq<Id>>, p: Id, q: Id, x: Id)
    requires QueueInv(tcbs, queues) && p in queues && q in queues && p != q
    requires x in [p] + queues[p]
    ensures x !in [q] + queues[q]
  {
    assert x == p || (x in queues[p] && x.Thread?);
  }

  /** One queue was relinked; the node t, in no other queue, may have changed too. */
  lemma QueueChanged(w: Cells, w': Cells, tcbs: map<Id, Tcb>, queues: map<Id, seq<Id>>, q: Id, t: Id, r: seq<Id>)
    requires QueueInv(tcbs, queues) && QueuesRep(w, queues) && q in queues
    requires t in tcbs && (tcbs[t].waiting == Null || tcbs[t].waiting == q)
    requires Frame(w, w', Elems([q] + queues[q]) + {t}) && Ring(w', [q] + r)
    ensures QueuesRep(w', queues[q := r])
  {
    hide Ring;
    forall p | p in queues[q := r] ensures Ring(w', [p] + queues[q := r][p]) {
      if p != q {
        forall x | x in [p] + queues[p] ensures x !in Elems([q] + queues[q]) + {t} {
          QueuesDisjoint(tcbs, queues, p, q, x);
        }
        RingFramed(w, w', [p] + queues[p], Elems([q] + queues[q]) + {t});
      }
    }
  }

  lemma TiesChanged(w: Cells, w': Cells, tcbs: map<Id, Tcb>, queues: map<Id, seq<Id>>, q: Id, t: Id, c: Tcb)
    requires QueueInv(tcbs, queues) && TiesRep(w, tcbs) && q in queues && t in tcbs
    requires Frame(w, w', Elems([q] + queues[q]) + {t}) && Null !in w'
    requires c.waiting == Null && c.clean ==> Harmless(w', t)
    ensures TiesRep(w', tcbs[t := c])
  {
    forall x | x in tcbs && x != t && tcbs[x].waiting == Null ensures x !in Elems([q] + queues[q]) + {t} { }
  }

  /** The wait queue q of thread t was relinked and t's control block became c. */
  lemma WaitsRep(m: Image, s: Sys, waits': Cells, q: Id, t: Id, c: Tcb, r: seq<Id>)
    requires Rep(m, s) && q in s.queues && t in s.tcbs && (s.tcbs[t].waiting == Null || s.tcbs[t].waiting == q)
    requires Frame(m.waits, waits', Elems([q] + s.queues[q]) + {t}) && Ring(waits', [q] + r) && Null !in waits'
    requires BitsOf(c) == BitsOf(s.tcbs[t]) && c.swap == s.tcbs[t].swap
    requires c.waiting == Null && c.clean ==> Harmless(waits', t)
    requires QueueInv(s.tcbs[t := c], s.queues[q := r])
    ensures Rep(m.(waits := waits'), Put(s, t, c).(queues := s.queues[q := r]))
  {
    hide FlagsRep, QueueInv, QueuesRep, TiesRep, Seg, Ring, RingRep, Items, Apart, Elems;
    QueueChanged(m.waits, waits', s.tcbs, s.queues, q, t, r);
    TiesChanged(m.waits, waits', s.tcbs, s.queues, q, t, c);
    FlagsPut(m.flags, m.swap, s.tcbs, t, c);
    FlagsSame(m.flags, m.swap, s.tcbs, t, c);
  }

  lemma FlagsSame(flags: map<Id, Bits>, swap: map<Id, Swap>, tcbs: map<Id, Tcb>, t: Id, c: Tcb)
    requires FlagsRep(flags, swap, tcbs) && t in tcbs && BitsOf(c) == BitsOf(tcbs[t]) && c.swap == tcbs[t].swap
    ensures FlagsRep(flags, swap, tcbs[t := c])
  {
  }

  /** What z_pend_current_on finds when it links the running thread into a wait queue. */
  lemma BlockFacts(m: Image, s: Sys, q: Id)
    requires Rep(m, s) && Inv(s) && s.tcbs[s.current].state.Ready? && q in s.queues
    ensures var t, w := s.current, s.queues[q];
            && t in s.tcbs && t != Null && t !in [q] + w && Ring(m.waits, [q] + w)
            && s.tcbs[t].waiting == Null
            && s.ring != [] && s.ring[0] == t && s.cursor == t && Distinct(s.ring)
            && QueueInv(s.tcbs[t := s.tcbs[t].(waiting := q, clean := false)], s.queues[q := w + [t]])
  {
    var t, w := s.current, s.queues[q];
    assert t !in w && t.Thread?;
    QueueAdd(s.tcbs, s.queues, t, s.tcbs[t].(waiting := q, clean := false), q);
  }

  lemma RepQueue(m: Image, s: Sys, q: Id)
    requires Rep(m, s) && q in s.queues
    ensures Ring(m.waits, [q] + s.queues[q]) && q != Null
    ensures forall t :: t in s.queues[q] ==> t != q && t != Null && t in s.tcbs
    ensures s.queues[q] != [] ==> s.queues[q][0] in s.queues[q] && s.queues[q][0] !in [q] + s.queues[q][1..]
  {
    hide FlagsRep, TiesRep, Seg, Items, Apart, RingRep, Ring, QueueInv;
    QueueFacts(s.tcbs, s.queues, q);
  }

  lemma QueueFacts(tcbs: map<Id, Tcb>, queues: map<Id, seq<Id>>, q: Id)
    requires QueueInv(tcbs, queues) && q in queues
    ensures q != Null && forall t :: t in queues[q] ==> t != q && t != Null && t in tcbs
    ensures queues[q] != [] ==> queues[q][0] in queues[q] && queues[q][0] !in [q] + queues[q][1..]
  {
    var w := queues[q];
    assert Distinct(w);
    forall t | t in w ensures t.Thread? && t in tcbs { assert tcbs[t].waiting == q; }
  }

  /** Nothing in the wait queues changed. */
  lemma SameWaits(m: Image, s: Sys, waits': Cells)
    requires Rep(m, s) && SameMemory(m.waits, waits') && Null !in waits'
    ensures Rep(m.(waits := waits'), s)
  {
    hide FlagsRep, QueueInv, Seg, Ring, RingRep, Items, Apart;
    forall q | q in s.queues ensures Ring(waits', [q] + s.queues[q]) {
      RingFramed(m.waits, waits', [q] + s.queues[q], {});
    }
  }

  /** The first waiter was unlinked and its node re-initialised. */
  lemma UnlinkRep(m: Image, s: Sys, q: Id, waits': Cells)
    requires Rep(m, s) && q in s.queues && s.queues[q] != []
    requires var w := s.queues[q];
             && Frame(m.waits, waits', Elems([q] + w)) && Ring(waits', [q] + w[1..]) && Ring(waits', [w[0]]) && Null !in waits'
    ensures Rep(m.(waits := waits'), Unlink(s, q, s.queues[q][0], true))
  {
    hide Rep, QueueInv, Ring, IndexOf;
    var w := s.queues[q];
    var t := w[0];
    RepWaiting(m, s, q, t);
    var c := s.tcbs[t].(waiting := Null, clean := true);
    QueueDrop(s.tcbs, s.queues, t, c);
    DropFirst(w);
    HarmlessWhenAlone(waits', t);
    WaitsRep(m, s, waits', q, t, c, w[1..]);
  }

  lemma RepWaiting(m: Image, s: Sys, q: Id, t: Id)
    requires Rep(m, s) && q in s.queues && t in s.queues[q]
    ensures QueueInv(s.tcbs, s.queues) && t in s.tcbs && s.tcbs[t].waiting == q && q != Null
  {
    hide FlagsRep, Seg, Items, Apart, QueuesRep, TiesRep, RingRep;
  }

  lemma DropFirst(w: seq<Id>)
    requires w != []
    ensures Drop(w, w[0]) == w[1..]
  {
  }

  lemma HarmlessWhenAlone(w: Cells, t: Id)
    requires Ring(w, [t])
    ensures Harmless(w, t)
  {
  }

  /** What z_wake_up needs to know about the thread that was unlinked. */
  lemma UnpendFacts(m: Image, s: Sys, q: Id)
    requires Rep(m, s) && Core(s) && q in s.queues && s.queues[q] != []
    ensures var t := s.queues[q][0];
            && t in s.tcbs && t !in s.ring && |s.ring| < 255 && (s.ring != [] ==> s.cursor == s.ring[0])
            && (s.tcbs[t].wakeup || t !in Items(m.q))
  {
    var t := s.queues[q][0];
    WaiterPends(s, q, t);
    RingRoom(m, s, t);
    ItemsAreDues(m.q, 0);
  }

  // ----- the tick -----

  /** What the tick finds about the thread it popped. */
  lemma ExpireFacts(m: Image, s: Sys)
    requires Rep(m, s) && Core(s) && m.q != []
    ensures s.timeouts != [] && s.timeouts[0].id == m.q[0].id && s.timeouts[0].left == m.q[0].delay
    ensures var t := m.q[0].id;
            && t in s.tcbs && t !in s.ring && |s.ring| < 255 && (s.ring != [] ==> s.cursor == s.ring[0])
            && t !in Items(m.q[1..]) && Items(m.q[1..]) <= Items(m.q) && UniqueItems(m.q[1..]) && Total(m.q[1..]) <= Total(m.q)
            && t != Null
            && (s.tcbs[t].waiting != Null ==> s.tcbs[t].waiting in s.queues && t in s.queues[s.tcbs[t].waiting])
  {
    var t := m.q[0].id;
    ItemsAreDues(m.q, 0);
    assert t in Items(m.q);
    assert s.tcbs[t].wakeup;
    RingRoom(m, s, t);
  }

  /** The popped item: its flags changed and the queue moved on, to the time left of the others. */
  lemma PopRep(m: Image, s: Sys, root': Id)
    requires Rep(m, s) && Core(s) && m.q != [] && m.q[0].delay == 0 && Seg(m.ties, root', m.q[1..], Null)
    ensures s.timeouts != [] && m.q[0].id in s.tcbs
    ensures var t := m.q[0].id;
            var c := s.tcbs[t].(expired := true, wakeup := false);
            Rep(m.(flags := m.flags[t := BitsOf(c)], root := root', q := m.q[1..]), Put(s, t, c).(timeouts := s.timeouts[1..]))
  {
    hide Rep, Core, Items, Seg;
    var t := m.q[0].id;
    ExpireFacts(m, s);
    RepFacts(m, s);
    var c := s.tcbs[t].(expired := true, wakeup := false);
    BitsRep(m, s, t, c);
    TimeoutsRep(m.(flags := m.flags[t := BitsOf(c)]), Put(s, t, c), m.ties, root', m.q[1..]);
    assert Dues(m.q[1..]) == s.timeouts[1..];
  }

  /** A waiter left its queue by dlist_remove, which does not re-initialise its node. */
  lemma UnlinkStaleRep(m: Image, s: Sys, q: Id, t: Id, waits': Cells)
    requires Rep(m, s) && q in s.queues && t in s.queues[q] && t in s.tcbs && s.tcbs[t].waiting == q
    requires var w := s.queues[q]; var k := 1 + IndexOf(w, t);
             && Frame(m.waits, waits', {Prev(m.waits, t), Next(m.waits, t)})
             && Ring(waits', Without([q] + w, k)) && Null !in waits'
    ensures Rep(m.(waits := waits'), Unlink(s, q, t, false))
  {
    hide Rep, QueueInv, Ring, IndexOf, Without, Drop;
    var w := s.queues[q];
    RepWaiter(m, s, q, t);
    ConsWithout(q, w, t);
    LeaveFrame(m.waits, [q] + w, 1 + IndexOf(w, t));
    var c := s.tcbs[t].(waiting := Null, clean := false);
    QueueDrop(s.tcbs, s.queues, t, c);
    WaitsRep(m, s, waits', q, t, c, Drop(w, t));
  }

  // ----- unlinking the node of a thread that waits on no queue -----

  /** The node is in use: it is the head of a wait queue, its thread waits, or it is to be harmless. */
  ghost predicate Live(tcbs: map<Id, Tcb>, queues: map<Id, seq<Id>>, n: Id) {
    n in queues || (n in tcbs && (tcbs[n].waiting != Null || tcbs[n].clean))
  }

  /** The test on pointers that decides whether unlinking the node does damage: both recorded
      neighbours exist, and those in use still have each other for neighbours. */
  ghost predicate Unlinkable(w: Cells, tcbs: map<Id, Tcb>, queues: map<Id, seq<Id>>, t: Id) {
    var p, x := Prev(w, t), Next(w, t);
    && p != Null && x != Null
    && (Live(tcbs, queues, p) ==> Next(w, p) == x)
    && (Live(tcbs, queues, x) ==> Prev(w, x) == p)
  }

  /** Every node in use stands in one circle: its wait queue, or alone. */
  lemma CircleOf(w: Cells, tcbs: map<Id, Tcb>, queues: map<Id, seq<Id>>, n: Id) returns (r: seq<Id>)
    requires QueueInv(tcbs, queues) && QueuesRep(w, queues) && TiesRep(w, tcbs) && Live(tcbs, queues, n) && n != Null
    ensures Ring(w, r) && n in r
    ensures (exists q :: q in queues && r == [q] + queues[q]) || (r == [n] && n in tcbs && tcbs[n].waiting == Null && tcbs[n].clean)
  {
    if n in queues {
      r := [n] + queues[n];
    } else if tcbs[n].waiting != Null {
      var q := tcbs[n].waiting;
      assert n in queues[q];
      r := [q] + queues[q];
    } else {
      r := [n];
    }
  }

  lemma QueueNodesLive(tcbs: map<Id, Tcb>, queues: map<Id, seq<Id>>, q: Id, n: Id)
    requires QueueInv(tcbs, queues) && q in queues && n in [q] + queues[q]
    ensures Live(tcbs, queues, n)
  {
  }

  /** dlist_remove of such a node leaves every wait queue and every harmless node as it is, and
      stores nothing through a null pointer, if and only if the test holds. */
  lemma UnlinkExact(w: Cells, w': Cells, tcbs: map<Id, Tcb>, queues: map<Id, seq<Id>>, t: Id)
    requires QueueInv(tcbs, queues) && QueuesRep(w, queues) && TiesRep(w, tcbs)
    requires Unlinked(w, w', t) && (Null in w' <==> Null in w || Null in {Prev(w, t), Next(w, t)})
    ensures QueuesRep(w', queues) && TiesRep(w', tcbs) <==> Unlinkable(w, tcbs, queues, t)
  {
    hide QueueInv, Ring, Unlinked;
    var p, x := Prev(w, t), Next(w, t);
    if Unlinkable(w, tcbs, queues, t) {
      UnlinkKeeps(w, w', tcbs, queues, t);
    } else if p != Null && x != Null {
      var n := if Live(tcbs, queues, p) && Next(w, p) != x then p else x;
      var r := CircleOf(w, tcbs, queues, n);
      RingAfterUnlink(w, w', t, r);
      if r == [n] {
        Alone(w', n);
      }
    }
  }

  lemma Alone(w: Cells, n: Id)
    ensures Harmless(w, n) && n != Null ==> Ring(w, [n])
  {
  }

  lemma UnlinkKeeps(w: Cells, w': Cells, tcbs: map<Id, Tcb>, queues: map<Id, seq<Id>>, t: Id)
    requires QueueInv(tcbs, queues) && QueuesRep(w, queues) && TiesRep(w, tcbs) && Unlinkable(w, tcbs, queues, t)
    requires Unlinked(w, w', t) && (Null in w' <==> Null in w || Null in {Prev(w, t), Next(w, t)})
    ensures QueuesRep(w', queues) && TiesRep(w', tcbs)
  {
    hide Ring, Unlinked;
    var p, x := Prev(w, t), Next(w, t);
    forall q | q in queues ensures Ring(w', [q] + queues[q]) {
      var r := [q] + queues[q];
      RingAfterUnlink(w, w', t, r);
      if p in r {
        QueueNodesLive(tcbs, queues, q, p);
      }
      if x in r {
        QueueNodesLive(tcbs, queues, q, x);
      }
    }
    forall n | n in tcbs && tcbs[n].waiting == Null && tcbs[n].clean ensures Harmless(w', n) {
      assert n.Thread? && Harmless(w, n);
      Alone(w, n);
      RingAfterUnlink(w, w', t, [n]);
      HarmlessWhenAlone(w', n);
    }
  }

  /** The unlinked node belonged to a thread that waits on no queue. */
  lemma UnlinkIdleRep(m: Image, s: Sys, t: Id, waits': Cells)
    requires Rep(m, s) && t in s.tcbs && s.tcbs[t].waiting == Null
    requires Unlinked(m.waits, waits', t) && (Null in waits' <==> Null in m.waits || Null in {Prev(m.waits, t), Next(m.waits, t)})
    ensures Rep(m.(waits := waits'), s) <==> Unlinkable(m.waits, s.tcbs, s.queues, t)
  {
    hide FlagsRep, QueueInv, QueuesRep, TiesRep, Seg, Ring, RingRep, Items, Apart, Unlinked, Unlinkable;
    UnlinkExact(m.waits, waits', s.tcbs, s.queues, t);
  }

  /** The expired sleeper is READY now; the test is the same. */
  lemma UnlinkableSame(w: Cells, s: Sys, t: Id, c: Tcb)
    requires t in s.tcbs && c.waiting == s.tcbs[t].waiting && c.clean == s.tcbs[t].clean
    ensures Unlinkable(w, s.tcbs[t := c], s.queues, t) <==> Unlinkable(w, s.tcbs, s.queues, t)
  {
  }

  /** The node of a waiting thread has real neighbours. */
  lemma QueueNeighbours(m: Image, s: Sys, t: Id)
    requires Rep(m, s) && t in s.tcbs && s.tcbs[t].waiting in s.queues && t in s.queues[s.tcbs[t].waiting]
    ensures Prev(m.waits, t) != Null && Next(m.waits, t) != Null
  {
    hide Rep, Ring, QueueInv;
    var q := s.tcbs[t].waiting;
    RepWaiter(m, s, q, t);
    ConsWithout(q, s.queues[q], t);
    LeaveFrame(m.waits, [q] + s.queues[q], 1 + IndexOf(s.queues[q], t));
    RingReal(m.waits, [q] + s.queues[q]);
  }

  /** The tick can expire the first sleeper without damage. */
  ghost predicate Expirable(w: Cells, s: Sys)
    requires s.timeouts != []
  {
    var t := s.timeouts[0].id;
    Of(s, t).waiting != Null || Unlinkable(w, s.tcbs, s.queues, t)
  }

  /** In a tidy state the tick does no damage. */
  lemma TidyExpires(m: Image, s: Sys)
    requires Rep(m, s) && Core(s) && Tidy(s)
    ensures s.timeouts != [] ==> Expirable(m.waits, s)
    ensures s.timeouts != [] ==> Core(Expire(s)) && Tidy(Expire(s)) && |Expire(s).timeouts| < |s.timeouts|
  {
    hide Rep, Unlinkable, RingInv, QueueInv, TcbInv;
    if s.timeouts != [] {
      ExpireKeeps(s);
      ExpireWakes(s);
      var t := s.timeouts[0].id;
      if s.tcbs[t].waiting == Null {
        HarmlessUnlinkable(m, s, t);
      }
    }
  }

  /** A harmless node passes the test. */
  lemma HarmlessUnlinkable(m: Image, s: Sys, t: Id)
    requires Rep(m, s) && t in s.tcbs && s.tcbs[t].waiting == Null && s.tcbs[t].clean
    ensures Unlinkable(m.waits, s.tcbs, s.queues, t)
  {
    hide FlagsRep, QueuesRep, Seg, RingRep, Items, Apart;
    assert t.Thread?;
  }

  lemma RepWaiter(m: Image, s: Sys, q: Id, t: Id)
    requires Rep(m, s) && q in s.queues && t in s.queues[q]
    ensures Ring(m.waits, [q] + s.queues[q]) && QueueInv(s.tcbs, s.queues) && q != Null && t != q
  {
    RepQueue(m, s, q);
  }

  lemma ConsWithout(q: Id, w: seq<Id>, t: Id)
    requires t in w
    ensures var k := 1 + IndexOf(w, t); ([q] + w)[k] == t && Without([q] + w, k) == [q] + Drop(w, t)
  {
    hide IndexOf;
    TailWithout(q, w, IndexOf(w, t));
  }

  /** The head of the timeout queue, in both forms. */
  lemma HeadLeft(m: Image, s: Sys)
    requires Rep(m, s)
    ensures m.q == [] <==> s.timeouts == []
    ensures m.q != [] ==> s.timeouts[0].left == m.q[0].delay
  {
    hide FlagsRep, QueueInv, QueuesRep, TiesRep, Seg, Ring, RingRep, Apart, Items;
  }

  lemma DrainStep(s: Sys)
    ensures s.timeouts != [] && s.timeouts[0].left == 0 ==> Drain(s) == Drain(Expire(s))
    ensures s.timeouts == [] || s.timeouts[0].left > 0 ==> Drain(s) == s
  {
  }

  /** What k_thread_start finds. */
  lemma StartFacts(m: Image, s: Sys, t: Id)
    requires Rep(m, s) && Inv(s) && t in s.tcbs && s.tcbs[t].state.Stopped?
    ensures t !in s.ring && t !in Items(m.q) && |s.ring| < 255 && (s.ring != [] ==> s.cursor == s.ring[0])
  {
    RingRoom(m, s, t);
    ItemsAreDues(m.q, 0);
  }

  /** What k_thread_abort finds, and what its first two steps compute. */
  lemma AbortFacts(s: Sys, t: Id)
    requires Inv(s) && t in s.tcbs && t != IDLE && !s.tcbs[t].state.Stopped?
    ensures t.Thread? && A.JoinQueue(t) == Join(t.n) && Join(t.n) in A.Halted(s, t).queues
    ensures A.Halted(s, t).queues == s.queues && A.Halted(s, t).current == s.current
    ensures s.tcbs[t].state.Pending? || s.tcbs[t].state.Ready?
    ensures s.tcbs[t].state.Ready? ==> t in s.ring && s.cursor == s.ring[0] && Distinct(s.ring) && (t == s.current ==> t == s.ring[0])
    ensures t in Suspend(s, t).tcbs && Suspend(s, t).tcbs[t].(state := Stopped) == A.Halted(s, t).tcbs[t]
    ensures A.Halted(s, t) == Put(Suspend(s, t), t, Suspend(s, t).tcbs[t].(state := Stopped))
    ensures var s2 := UnpendAll(A.Halted(s, t), Join(t.n));
            Sched.Abort(s, t) == if t == s.current then Scheduler(s2) else s2
  {
    CancelWakeUpForgets(s, t);
  }

  lemma NobodyJoins(s: Sys, q: Id)
    requires Waiters(s, q) == []
    ensures Unpend(s, q) == s && UnpendAll(s, q) == s
  {
  }

  /** What the rest of k_thread_abort relies on. */
  lemma AbortStops(s: Sys, t: Id)
    requires Inv(s) && t in s.tcbs && t != IDLE && !s.tcbs[t].state.Stopped?
    requires A.Abortable(s, t) || Waiters(s, A.JoinQueue(t)) == []
    ensures Waiters(A.Halted(s, t), A.JoinQueue(t)) != [] ==> Core(A.Halted(s, t))
    ensures t !in Waiters(A.Halted(s, t), A.JoinQueue(t)) && Of(A.Halted(s, t), t).state.Stopped?
    ensures Of(Sched.Abort(s, t), t).state.Stopped?
    ensures t == s.current ==> A.Abortable(s, t)
  {
    hide UnpendAll, A.Halted, RingInv, TimeInv;
    var s1, q := A.Halted(s, t), A.JoinQueue(t);
    AbortFacts(s, t);
    if A.Abortable(s, t) {
      A.HaltedKeeps(s, t);
      A.AbortKeeps(s, t);
      assert s1.tcbs[t].waiting == Null;
    } else {
      A.UnpendAllOnly(s1, q, t);
    }
    RunningAbortable(s);
  }

  lemma RunningAbortable(s: Sys)
    requires Inv(s)
    ensures s.current != IDLE ==> A.Abortable(s, s.current)
  {
    if s.current != IDLE {
      assert s.current in s.ring;
    }
  }

  lemma UnpendStep(s: Sys, q: Id)
    requires Core(s)
    ensures q in s.queues ==> q in Unpend(s, q).queues
    ensures UnpendAll(Unpend(s, q), q) == UnpendAll(s, q)
    ensures Waiters(s, q) == [] ==> Unpend(s, q) == s && UnpendAll(s, q) == s
    ensures Waiters(s, q) != [] ==> Waiters(Unpend(s, q), q) == Waiters(s, q)[1..]
  {
    UnpendThread(s, q);
  }

  /** The running thread stands first in the ring unless it is the idle thread. */
  lemma YieldFacts(s: Sys)
    requires Inv(s)
    ensures s.current in s.tcbs && Distinct(s.ring) && (s.ring != [] ==> s.cursor == s.ring[0])
    ensures s.tcbs[s.current].state.Ready? ==> s.ring != [] && s.ring[0] == s.current
  {
  }

  lemma NotifyFacts(m: Image, s: Sys, q: Id, t: Id)
    requires Rep(m, s) && Inv(s) && q in s.queues && t in s.queues[q]
    ensures t in s.tcbs && t !in s.ring && |s.ring| < 255 && (s.ring != [] ==> s.cursor == s.ring[0])
    ensures s.tcbs[t].wakeup || t !in Items(m.q)
  {
    WaiterPends(s, q, t);
    RingRoom(m, s, t);
    ItemsAreDues(m.q, 0);
  }
}
