/** The singly linked timeout queue of src/avrtos/dstruct/tqueue.c. */
module TimeQueue {
  import opened Links
  import opened DeltaQueue
  import opened Errno

  /** Following the pointers from `from` meets exactly the items of q, then `to`. */
  ghost predicate Seg(c: Cells, from: Id, q: seq<Entry>, to: Id)
    decreases |q|
  {
    if q == [] then from == to
    else from != Null && At(c, from) == Timed(q[0].delay, After(c, from)) && q[0].id == from
         && Seg(c, After(c, from), q[1..], to)
  }

  ghost predicate SameAt(c: Cells, c': Cells, s: set<Id>) {
    forall x :: x in s ==> At(c', x) == At(c, x)
  }

  lemma {:induction false} SegFramed(c: Cells, c': Cells, from: Id, q: seq<Entry>, to: Id)
    requires Seg(c, from, q, to) && SameAt(c, c', Items(q))
    ensures Seg(c', from, q, to)
    decreases |q|
  {
    if q != [] {
      SegFramed(c, c', After(c, from), q[1..], to);
    }
  }

  lemma {:induction false} SegJoin(c: Cells, from: Id, q: seq<Entry>, mid: Id, r: seq<Entry>, to: Id)
    requires Seg(c, from, q, mid) && Seg(c, mid, r, to)
    ensures Seg(c, from, q + r, to)
    decreases |q|
  {
    if q == [] {
      assert q + r == r;
    } else {
      SegJoin(c, After(c, from), q[1..], mid, r, to);
      assert (q + r)[1..] == q[1..] + r;
    }
  }

  lemma {:induction false} SegNonNull(c: Cells, from: Id, q: seq<Entry>, to: Id)
    requires Seg(c, from, q, to)
    ensures Null !in Items(q)
    decreases |q|
  {
    if q != [] {
      SegNonNull(c, After(c, from), q[1..], to);
    }
  }

  /** One more item is passed. */
  lemma SegStep(c: Cells, from: Id, a: seq<Entry>, cur: Id, b: seq<Entry>)
    requires Seg(c, from, a, cur) && Seg(c, cur, b, Null) && cur != Null
    ensures b != [] && b[0].id == cur && At(c, cur) == Timed(b[0].delay, After(c, cur))
    ensures Seg(c, from, a + [b[0]], After(c, cur)) && Seg(c, After(c, cur), b[1..], Null)
  {
    var one := [b[0]];
    assert one[1..] == [];
    assert Seg(c, After(c, cur), [], After(c, cur));
    SegJoin(c, from, a, cur, one, After(c, cur));
  }

  /** The last item of a segment is pointed elsewhere. */
  lemma {:induction false} SegRetarget(c: Cells, c': Cells, from: Id, a: seq<Entry>, last: Entry, to: Id, to': Id)
    requires Seg(c, from, a + [last], to) && last.id !in Items(a)
    requires SameAt(c, c', Items(a)) && At(c', last.id) == Timed(last.delay, to')
    ensures Seg(c', from, a + [last], to')
    decreases |a|
  {
    var q := a + [last];
    if a == [] {
      assert q[1..] == [];
      assert Seg(c', to', [], to');
    } else {
      assert q[1..] == a[1..] + [last];
      SegRetarget(c, c', After(c, from), a[1..], last, to, to');
    }
  }

  /** k_delta_t arithmetic: values above max wrap round. */
  function Wrap(x: int, max: nat): (r: nat)
    ensures r <= max
    ensures 0 <= x <= max ==> r == x
  {
    if 0 <= x <= max then x else x % (max + 1)
  }

  /** The last of the items already passed, or null in front of the first. */
  function LastId(a: seq<Entry>): Id {
    if a == [] then Null else a[|a| - 1].id
  }

  /** The state of a walk along a queue: a has been passed, b is ahead. */
  ghost predicate Walked(c: Cells, root: Id, a: seq<Entry>, prev: Id, cur: Id, b: seq<Entry>) {
    Seg(c, root, a, cur) && Seg(c, cur, b, Null) && prev == LastId(a) && UniqueItems(a + b)
  }

  lemma WalkAdvances(c: Cells, c': Cells, root: Id, a: seq<Entry>, prev: Id, cur: Id, b: seq<Entry>, item: Id)
    requires Walked(c, root, a, prev, cur, b) && cur != Null
    requires Frame(c, c', {item}) && item !in Items(a + b)
    ensures b != [] && cur == b[0].id && At(c, cur) == Timed(b[0].delay, After(c, cur)) && cur != item
    ensures Walked(c', root, a + [b[0]], cur, After(c, cur), b[1..])
    ensures a + [b[0]] + b[1..] == a + b
  {
    SegStep(c, root, a, cur, b);
    var a' := a + [b[0]];
    assert a' + b[1..] == a + b;
    ItemsConcat(a', b[1..]);
    SegFramed(c, c', root, a', After(c, cur));
    SegFramed(c, c', After(c, cur), b[1..], Null);
    ItemsConcat(a, b);
  }

  /** Something is put between what was passed and what is ahead. */
  lemma Spliced(c: Cells, c': Cells, root: Id, root': Id, a: seq<Entry>, prev: Id, cur: Id, b: seq<Entry>,
                mid: Id, r: seq<Entry>)
    requires Walked(c, root, a, prev, cur, b)
    requires Seg(c', mid, r, Null)
    requires SameAt(c, c', Items(a) - {prev})
    requires a != [] ==> At(c', prev) == Timed(Delay(c, prev), mid)
    requires root' == if a == [] then mid else root
    ensures Seg(c', root', a + r, Null)
  {
    if a == [] {
      assert a + r == r;
    } else {
      var a0, last := a[..|a| - 1], a[|a| - 1];
      assert a == a0 + [last];
      SegNonNull(c, root, a, cur);
      ItemsConcat(a0, [last]);
      ItemsConcat(a, b);
      SegLast(c, root, a0, last, cur);
      SegRetarget(c, c', root, a0, last, cur, mid);
      SegJoin(c', root, a, mid, r, Null);
    }
  }

  lemma {:induction false} SegLast(c: Cells, from: Id, a: seq<Entry>, last: Entry, to: Id)
    requires Seg(c, from, a + [last], to)
    ensures last.id != Null && At(c, last.id) == Timed(last.delay, to)
    decreases |a|
  {
    var q := a + [last];
    if a == [] {
      assert q[1..] == [];
    } else {
      assert q[1..] == a[1..] + [last];
      SegLast(c, After(c, from), a[1..], last, to);
    }
  }

  /** Memory after item went in between a and b, and b's first delay was cut. */
  lemma Inserted(c: Cells, c': Cells, root: Id, root': Id, a: seq<Entry>, prev: Id, cur: Id, b: seq<Entry>, item: Id, d: nat)
    requires Walked(c, root, a, prev, cur, b) && item != Null && item !in Items(a + b)
    requires At(c', item) == Timed(d, cur)
    requires cur != Null ==> d < Delay(c, cur) && At(c', cur) == Timed(Delay(c, cur) - d, After(c, cur))
    requires a != [] ==> At(c', prev) == Timed(Delay(c, prev), item)
    requires SameAt(c, c', Items(a + b) - {prev, cur})
    requires root' == if a == [] then item else root
    ensures Seg(c', root', a + Insert(b, item, d), Null)
  {
    var r := Insert(b, item, d);
    ItemsConcat(a, b);
    SegNonNull(c, root, a, cur);
    SegNonNull(c, cur, b, Null);
    if cur != Null {
      assert r[1..][1..] == b[1..];
      if a != [] { LastItem(a); }
      SegFramed(c, c', After(c, cur), b[1..], Null);
      assert Seg(c', cur, r[1..], Null);
    } else {
      assert r[1..] == [];
    }
    assert Seg(c', item, r, Null);
    Spliced(c, c', root, root', a, prev, cur, b, item, r);
  }

  lemma LastItem(a: seq<Entry>)
    requires a != []
    ensures LastId(a) in Items(a)
  {
    ItemsConcat(a[..|a| - 1], [a[|a| - 1]]);
    assert a == a[..|a| - 1] + [a[|a| - 1]];
  }

  /** The delay of the item in front of the walk is overwritten. */
  lemma HeadChanged(c: Cells, c': Cells, root: Id, a: seq<Entry>, prev: Id, cur: Id, b: seq<Entry>, d: nat)
    requires Walked(c, root, a, prev, cur, b) && cur != Null
    requires Frame(c, c', {cur}) && At(c', cur) == Timed(d, After(c, cur))
    ensures b != [] && Walked(c', root, a, prev, cur, [Entry(b[0].id, d)] + b[1..])
    ensures Items([Entry(b[0].id, d)] + b[1..]) == Items(b)
  {
    SegStep(c, root, a, cur, b);
    var b' := [Entry(b[0].id, d)] + b[1..];
    assert b'[1..] == b[1..];
    ItemsConcat(a, b);
    ItemsConcat(a, b');
    SegFramed(c, c', root, a, cur);
    SegFramed(c, c', After(c, cur), b[1..], Null);
  }

  /** Memory after the item in front of the walk was taken out. */
  lemma Deleted(c: Cells, c': Cells, root: Id, root': Id, a: seq<Entry>, prev: Id, cur: Id, b: seq<Entry>)
    requires Walked(c, root, a, prev, cur, b) && cur != Null
    requires a != [] ==> At(c', prev) == Timed(Delay(c, prev), After(c, cur))
    requires After(c, cur) != Null ==> At(c', After(c, cur)) == Timed(Delay(c, After(c, cur)) + Delay(c, cur), After(c, After(c, cur)))
    requires SameAt(c, c', Items(a + b) - {prev, cur, After(c, cur)})
    requires root' == if a == [] then After(c, cur) else root
    ensures Seg(c', root', a + Delete(b, cur), Null)
  {
    SegStep(c, root, a, cur, b);
    ItemsConcat(a, b);
    SegNonNull(c, root, a, cur);
    SegNonNull(c, cur, b, Null);
    if a != [] { LastItem(a); }
    var next, r := After(c, cur), Delete(b, cur);
    if next != Null {
      assert r[1..] == b[1..][1..];
      SegFramed(c, c', After(c, next), b[1..][1..], Null);
    }
    Spliced(c, c', root, root', a, prev, cur, b, next, r);
  }

  /** The state of the loop of tqueue_shift: a has been zeroed, `passed` is still to be consumed. */
  ghost predicate Shifting(c: Cells, root: Id, a: seq<Entry>, prev: Id, cur: Id, b: seq<Entry>, passed: nat,
                           q: seq<Entry>, time: nat) {
    && Walked(c, root, a, prev, cur, b)
    && a + Shift(b, passed) == Shift(q, time)
    && Items(a + b) == Items(q)
    && Total(b) <= Total(q)
  }

  lemma ShiftStarts(c: Cells, root: Id, q: seq<Entry>, time: nat)
    requires Seg(c, root, q, Null) && UniqueItems(q)
    ensures Shifting(c, root, [], Null, root, q, time, q, time)
  {
    assert [] + q == q;
    assert [] + Shift(q, time) == Shift(q, time);
  }

  lemma ShiftBounds(c: Cells, root: Id, a: seq<Entry>, prev: Id, cur: Id, b: seq<Entry>, passed: nat,
                    q: seq<Entry>, time: nat)
    requires Shifting(c, root, a, prev, cur, b, passed, q, time) && cur != Null
    ensures b != [] && b[0].id == cur && cur in Items(q) && At(c, cur) == Timed(b[0].delay, After(c, cur)) && b[0].delay <= Total(q)
  {
    SegStep(c, root, a, cur, b);
    ItemsConcat(a, b);
  }

  lemma ShiftAdvances(c: Cells, c': Cells, root: Id, a: seq<Entry>, prev: Id, cur: Id, b: seq<Entry>, passed: nat,
                      q: seq<Entry>, time: nat)
    requires Shifting(c, root, a, prev, cur, b, passed, q, time) && cur != Null && Delay(c, cur) <= passed
    requires Frame(c, c', {cur}) && At(c', cur) == Timed(0, After(c, cur))
    ensures b != [] && cur in Items(q) && b[0].delay == Delay(c, cur)
    ensures Shifting(c', root, a + [Entry(b[0].id, 0)], cur, After(c, cur), b[1..], passed - Delay(c, cur), q, time)
  {
    ShiftBounds(c, root, a, prev, cur, b, passed, q, time);
    HeadChanged(c, c', root, a, prev, cur, b, 0);
    var b' := [Entry(b[0].id, 0)] + b[1..];
    ItemsConcat(a, b);
    ItemsConcat(a, b');
    SegNonNull(c', root, a, cur);
    SegNonNull(c', cur, b', Null);
    WalkAdvances(c', c', root, a, prev, cur, b', Null);
    assert b'[1..] == b[1..];
    assert Shift(b, passed) == [b'[0]] + Shift(b[1..], passed - b[0].delay);
    Assoc(a, b'[0], Shift(b[1..], passed - b[0].delay));
  }

  lemma ShiftEnds(c: Cells, c': Cells, root: Id, a: seq<Entry>, prev: Id, cur: Id, b: seq<Entry>, passed: nat,
                  q: seq<Entry>, time: nat)
    requires Shifting(c, root, a, prev, cur, b, passed, q, time)
    requires cur == Null ==> c' == c
    requires cur != Null ==> Delay(c, cur) > passed && Frame(c, c', {cur})
                             && At(c', cur) == Timed(Delay(c, cur) - passed, After(c, cur))
    ensures Seg(c', root, Shift(q, time), Null)
  {
    if cur == Null {
      assert b == [] && a + Shift(b, passed) == a;
    } else {
      SegStep(c, root, a, cur, b);
      HeadChanged(c, c', root, a, prev, cur, b, Delay(c, cur) - passed);
      SegJoin(c', root, a, cur, Shift(b, passed), Null);
    }
  }

  /** What is known where a walk stopped. */
  lemma WalkFacts(c: Cells, root: Id, a: seq<Entry>, prev: Id, cur: Id, b: seq<Entry>, item: Id)
    requires Walked(c, root, a, prev, cur, b) && item !in Items(a + b) && item != Null
    ensures prev != item && cur != item && (a == [] <==> prev == Null) && (prev != Null ==> prev in Items(a + b))
    ensures cur != Null ==> cur in Items(a + b) && cur != prev && Delay(c, cur) <= Total(a + b) && At(c, cur) == Timed(Delay(c, cur), After(c, cur))
    ensures prev != Null ==> At(c, prev) == Timed(Delay(c, prev), After(c, prev))
  {
    ItemsConcat(a, b);
    TotalConcat(a, b);
    SegNonNull(c, root, a, cur);
    SegNonNull(c, cur, b, Null);
    if a != [] {
      LastItem(a);
      assert a == a[..|a| - 1] + [a[|a| - 1]];
      SegLast(c, root, a[..|a| - 1], a[|a| - 1], cur);
    }
  }

  // ----- an item that is linked twice -----

  function Ahead(a: seq<Entry>, to: Id, k: nat): Id {
    if k < |a| then a[k].id else to
  }

  /** The next pointers lead through a to `to`, which is not in a. */
  ghost predicate Chain(c: Cells, a: seq<Entry>, to: Id) {
    && to != Null
    && forall k :: 0 <= k < |a| ==> a[k].id != Null && a[k].id != to && After(c, a[k].id) == Ahead(a, to, k + 1)
  }

  lemma {:induction false} LeadsTo(c: Cells, root: Id, q: seq<Entry>, item: Id) returns (a: seq<Entry>)
    requires Seg(c, root, q, Null) && item in Items(q)
    ensures Chain(c, a, item) && root == Ahead(a, item, 0)
    decreases |q|
  {
    if q[0].id == item {
      a := [];
    } else {
      var a1 := LeadsTo(c, After(c, root), q[1..], item);
      a := [q[0]] + a1;
      assert forall k :: 1 <= k < |a| ==> a[k] == a1[k - 1];
    }
  }

  ghost function Heads(a: seq<Entry>, item: Id): set<Id> {
    (set k | 0 <= k < |a| :: a[k].id) + {item}
  }

  ghost predicate Closed(c: Cells, s: set<Id>) {
    Null !in s && forall x :: x in s ==> After(c, x) in s
  }

  /** From nodes that lead only to each other a list does not end. */
  lemma {:induction false} NeverEnds(c: Cells, s: set<Id>, from: Id, q: seq<Entry>)
    requires Closed(c, s) && from in s
    ensures !Seg(c, from, q, Null)
    decreases |q|
  {
    if q != [] {
      NeverEnds(c, s, After(c, from), q[1..]);
    }
  }

  /** The walk along such a queue, k items on; behind the item itself it is at the end. */
  ghost predicate Passing(c: Cells, a: seq<Entry>, item: Id, prev: Id, cur: Id, k: nat) {
    && Chain(c, a, item) && After(c, item) == Null && k <= |a| + 1
    && cur == (if k <= |a| then Ahead(a, item, k) else Null)
    && prev == (if k == 0 then Null else Ahead(a, item, k - 1))
  }

  lemma PassingStarts(c: Cells, c': Cells, a: seq<Entry>, item: Id)
    requires Chain(c, a, item) && Frame(c, c', {item}) && After(c', item) == Null
    ensures Passing(c', a, item, Null, Ahead(a, item, 0), 0)
  {
  }

  lemma PassingAt(c: Cells, a: seq<Entry>, item: Id, prev: Id, cur: Id, k: nat)
    requires Passing(c, a, item, prev, cur, k)
    ensures item != Null && item in Heads(a, item) && (prev == Null <==> k == 0)
    ensures cur == Null ==> prev == item
    ensures prev == item ==> cur == Null
  {
  }

  lemma PassesOn(c: Cells, c': Cells, a: seq<Entry>, item: Id, prev: Id, cur: Id, k: nat)
    requires Passing(c, a, item, prev, cur, k) && cur != Null
    requires Frame(c, c', {item}) && After(c', item) == After(c, item)
    ensures k <= |a| && Passing(c', a, item, cur, After(c', cur), k + 1)
  {
  }

  /** The last writes of the scheduling code, when the walk passed the item itself or stopped before it. */
  lemma TiedUp(c: Cells, c': Cells, a: seq<Entry>, item: Id, prev: Id, cur: Id, k: nat)
    requires Passing(c, a, item, prev, cur, k) && cur != item
    requires After(c', item) == (if cur == Null then item else cur)
    requires prev != Null ==> After(c', prev) == item
    requires forall x :: x != item && x != prev ==> After(c', x) == After(c, x)
    ensures Closed(c', Heads(a, item))
    ensures prev in Heads(a, item) || k == 0
    ensures Ahead(a, item, 0) in Heads(a, item)
  {
    forall x | x in Heads(a, item) ensures After(c', x) in Heads(a, item) {
      if x == item {
        assert cur != Null ==> k < |a| && a[k].id in Heads(a, item);
      } else if x != prev {
        var j :| 0 <= j < |a| && a[j].id == x;
        assert Ahead(a, item, j + 1) in Heads(a, item);
      }
    }
  }

  class TQueue {
    const mem: Memory
    const max: nat           // largest k_delta_t
    var root: Id
    ghost var q: seq<Entry>

    ghost predicate Valid()
      reads this, mem
    {
      Seg(mem.cells, root, q, Null) && UniqueItems(q) && Total(q) <= max
    }

    constructor (mem: Memory, max: nat)
      ensures Valid() && q == [] && this.mem == mem && this.max == max
    {
      this.mem := mem;
      this.max := max;
      root := Null;
      q := [];
    }

    /** `*prev_next_p = v`: the root, or the link of the item before. */
    method SetLink(prev: Id, v: Id)
      modifies this`root, mem
      ensures prev == Null ==> root == v && mem.cells == old(mem.cells)
      ensures prev != Null ==> root == old(root) && Frame(old(mem.cells), mem.cells, {prev})
                               && At(mem.cells, prev) == Timed(Delay(old(mem.cells), prev), v)
    {
      if prev == Null {
        root := v;
      } else {
        mem.SetAfter(prev, v);
      }
    }

    /** tqueue_schedule and z_tqueue_schedule. */
    method Schedule(item: Id, timeout: nat)
      requires Valid()
      requires item != Null && item !in Items(q) && timeout <= max
      modifies this, mem
      ensures Valid()
      ensures q == Insert(old(q), item, timeout)
      ensures Frame(old(mem.cells), mem.cells, Items(old(q)) + {item})
    {
      hide Seg, Items, UniqueItems, Total, Insert, Walked;
      mem.SetAfter(item, Null);
      mem.SetDelay(item, timeout);
      SegFramed(old(mem.cells), mem.cells, root, q, Null);
      var prev, cur, a, b := Walk(item);
      ghost var c := mem.cells;
      WalkFacts(c, root, a, prev, cur, b, item);
      if cur != Null {
        mem.SetAfter(item, cur);
        mem.SetDelay(cur, Wrap(Delay(mem.cells, cur) - Delay(mem.cells, item), max));
      }
      SetLink(prev, item);
      Inserted(c, mem.cells, old(root), root, a, prev, cur, b, item, Delay(c, item));
      InsertTotal(q, item, timeout, max);
      InsertItems(q, item, timeout);
      q := Insert(q, item, timeout);
    }

    /**
      tqueue_schedule of an item that is in the queue already: its old next pointer is gone, and
      the walk links it in front of itself or to itself.  Always the list has no end then.
    */
    method ScheduleQueued(item: Id, timeout: nat)
      requires Valid() && item in Items(q) && timeout <= max
      modifies this`root, mem
      ensures forall q' :: !Seg(mem.cells, root, q', Null)
    {
      hide Seg, Items, UniqueItems, Total, Chain, Passing, Closed, Heads;
      ghost var a := LeadsTo(mem.cells, root, q, item);
      ghost var c := mem.cells;
      mem.SetAfter(item, Null);
      mem.SetDelay(item, timeout);
      var prev, cur := Null, root;
      ghost var k := 0;
      PassingStarts(c, mem.cells, a, item);
      while cur != Null && Delay(mem.cells, cur) <= Delay(mem.cells, item)
        invariant Passing(mem.cells, a, item, prev, cur, k) && k <= |a| + 1 && root == old(root)
        decreases |a| + 1 - k
      {
        c := mem.cells;
        mem.SetDelay(item, Wrap(Delay(mem.cells, item) - Delay(mem.cells, cur), max));
        PassesOn(c, mem.cells, a, item, prev, cur, k);
        prev := cur;
        cur := After(mem.cells, cur);
        k := k + 1;
      }
      c := mem.cells;
      PassingAt(c, a, item, prev, cur, k);
      if cur != Null {
        mem.SetAfter(item, cur);
        mem.SetDelay(cur, Wrap(Delay(mem.cells, cur) - Delay(mem.cells, item), max));
      }
      SetLink(prev, item);
      TiedUp(c, mem.cells, a, item, prev, cur, k);
      forall q' ensures !Seg(mem.cells, root, q', Null) {
        NeverEnds(mem.cells, Heads(a, item), root, q');
      }
    }

    /** The loop of z_tqueue_schedule: passes the items that expire no later than `item`. */
    method Walk(item: Id) returns (prev: Id, cur: Id, ghost a: seq<Entry>, ghost b: seq<Entry>)
      requires Valid() && item != Null && item !in Items(q)
      requires At(mem.cells, item) == Timed(Delay(mem.cells, item), Null) && Delay(mem.cells, item) <= max
      modifies mem
      ensures Walked(mem.cells, root, a, prev, cur, b) && a + b == q
      ensures At(mem.cells, item) == Timed(Delay(mem.cells, item), Null) && Delay(mem.cells, item) <= max
      ensures cur != Null ==> Delay(mem.cells, item) < Delay(mem.cells, cur)
      ensures Insert(q, item, Delay(old(mem.cells), item)) == a + Insert(b, item, Delay(mem.cells, item))
      ensures Frame(old(mem.cells), mem.cells, {item})
    {
      prev := Null;
      cur := root;
      a, b := [], q;
      assert a + b == q;
      while cur != Null && Delay(mem.cells, cur) <= Delay(mem.cells, item)
        invariant Walked(mem.cells, root, a, prev, cur, b) && a + b == q
        invariant At(mem.cells, item) == Timed(Delay(mem.cells, item), Null) && Delay(mem.cells, item) <= max
        invariant Insert(q, item, Delay(old(mem.cells), item)) == a + Insert(b, item, Delay(mem.cells, item))
        invariant Frame(old(mem.cells), mem.cells, {item})
        decreases |b|
      {
        ghost var c, p := mem.cells, prev;
        mem.SetDelay(item, Wrap(Delay(mem.cells, item) - Delay(mem.cells, cur), max));
        prev := cur;
        cur := After(mem.cells, cur);
        WalkAdvances(c, mem.cells, root, a, p, prev, b, item);
        Assoc(a, b[0], Insert(b[1..], item, Delay(mem.cells, item)));
        a, b := a + [b[0]], b[1..];
      }
    }

    /** tqueue_shift: `time` passes. */
    method Elapse(time: nat)
      requires Valid() && time <= max
      modifies mem, this`q
      ensures Valid()
      ensures q == Shift(old(q), time)
      ensures Frame(old(mem.cells), mem.cells, Items(old(q)))
    {
      hide Seg, Items, Shift, Total, UniqueItems, Shifting;
      var prev, cur := Null, root;
      var passed: nat := time;
      ghost var a, b := [], q;
      ShiftStarts(mem.cells, root, q, time);
      while cur != Null && Delay(mem.cells, cur) <= passed
        invariant Shifting(mem.cells, root, a, prev, cur, b, passed, q, time) && passed <= max
        invariant q == old(q) && Frame(old(mem.cells), mem.cells, Items(q))
        decreases |b|
      {
        ghost var c, p := mem.cells, passed;
        ShiftBounds(c, root, a, prev, cur, b, passed, q, time);
        if Delay(mem.cells, cur) != 0 {
          passed := Wrap(passed - Delay(mem.cells, cur), max);
          mem.SetDelay(cur, 0);
        }
        ShiftAdvances(c, mem.cells, root, a, prev, cur, b, p, q, time);
        prev, cur := cur, After(mem.cells, cur);
        a, b := a + [Entry(b[0].id, 0)], b[1..];
      }
      ghost var c := mem.cells;
      if cur != Null {
        ShiftBounds(c, root, a, prev, cur, b, passed, q, time);
        mem.SetDelay(cur, Wrap(Delay(mem.cells, cur) - passed, max));
      }
      ShiftEnds(c, mem.cells, root, a, prev, cur, b, passed, q, time);
      ShiftItems(q, time);
      ShiftTotal(q, time);
      q := Shift(q, time);
    }

    /** tqueue_pop: takes the first item out if no time is left to it. */
    method Pop() returns (item: Id)
      requires Valid()
      modifies this
      ensures Valid()
      ensures if old(q) != [] && old(q)[0].delay == 0
              then item == old(q)[0].id && item != Null && q == old(q)[1..]
              else item == Null && q == old(q) && root == old(root)
    {
      item := Null;
      if root != Null && Delay(mem.cells, root) == 0 {
        item := root;
        root := After(mem.cells, root);
        q := q[1..];
      }
    }

    /** The search of tqueue_remove: stops in front of the item, or at the end. */
    method Find(item: Id) returns (prev: Id, cur: Id, ghost a: seq<Entry>, ghost b: seq<Entry>)
      requires Valid() && item != Null
      ensures Walked(mem.cells, root, a, prev, cur, b) && a + b == q
      ensures cur == if item in Items(q) then item else Null
      ensures a + Delete(b, item) == Delete(q, item)
    {
      prev, cur := Null, root;
      a, b := [], q;
      assert a + b == q;
      SegNonNull(mem.cells, root, q, Null);
      while cur != Null && cur != item
        invariant Walked(mem.cells, root, a, prev, cur, b) && a + b == q
        invariant item !in Items(a) && a + Delete(b, item) == Delete(q, item)
        decreases |b|
      {
        WalkAdvances(mem.cells, mem.cells, root, a, prev, cur, b, Null);
        DeletePast(a, b, item);
        prev, cur := cur, After(mem.cells, cur);
        a, b := a + [b[0]], b[1..];
      }
      ItemsConcat(a, b);
    }

    /** tqueue_remove: its time goes to the item behind it. */
    method Remove(item: Id) returns (ret: int)
      requires Valid()
      modifies this, mem
      ensures Valid()
      ensures ret == if item == Null then EINVAL else if item in Items(old(q)) then 0 else ENOENT
      ensures q == Delete(old(q), item)
      ensures ret != 0 ==> q == old(q) && mem.cells == old(mem.cells)
      ensures Frame(old(mem.cells), mem.cells, Items(old(q)))
    {
      SegNonNull(mem.cells, root, q, Null);
      if item == Null {
        DeleteAbsent(q, item);
        return EINVAL;
      }
      var prev, cur, a, b := Find(item);
      if cur == Null {
        DeleteAbsent(q, item);
        return ENOENT;
      }
      ghost var c := mem.cells;
      Neighbours(c, root, a, prev, cur, b);
      SetLink(prev, After(mem.cells, cur));
      var next := After(mem.cells, cur);
      if next != Null {
        mem.SetDelay(next, Wrap(Delay(mem.cells, next) + Delay(mem.cells, cur), max));
      }
      mem.SetAfter(item, Null);
      Deleted(c, mem.cells, old(root), root, a, prev, cur, b);
      DeleteItems(q, item);
      DeleteTotal(q, item);
      q := Delete(q, item);
      return 0;
    }

    /** tqueue_pop_reschedule. */
    method PopReschedule(timeout: nat) returns (item: Id)
      requires Valid() && timeout <= max
      modifies this, mem
      ensures Valid()
      ensures if old(q) != [] && old(q)[0].delay == 0
              then item == old(q)[0].id && item != Null && q == Insert(old(q)[1..], item, timeout)
              else item == Null && q == old(q)
      ensures Frame(old(mem.cells), mem.cells, Items(old(q)))
    {
      item := Pop();
      if item != Null {
        Schedule(item, timeout);
      }
    }

    /** tqueue_reschedule: the queue is left alone when the item is not in it. */
    method Reschedule(item: Id, timeout: nat) returns (ret: int)
      requires Valid() && timeout <= max
      modifies this, mem
      ensures Valid()
      ensures ret == if item == Null then EINVAL else if item in Items(old(q)) then 0 else ENOENT
      ensures q == if ret == 0 then Insert(Delete(old(q), item), item, timeout) else old(q)
      ensures Frame(old(mem.cells), mem.cells, Items(old(q)))
    {
      DeleteItems(q, item);
      ret := Remove(item);
      if ret != 0 {
        return;
      }
      Schedule(item, timeout);
    }
  }

  lemma DeletePast(a: seq<Entry>, b: seq<Entry>, id: Id)
    requires b != [] && b[0].id != id && id !in Items(a)
    ensures id !in Items(a + [b[0]])
    ensures a + [b[0]] + Delete(b[1..], id) == a + Delete(b, id)
  {
    ItemsConcat(a, [b[0]]);
    Assoc(a, b[0], Delete(b[1..], id));
  }

  /** The item in front of the walk, the one before it and the one behind it are three items. */
  lemma Neighbours(c: Cells, root: Id, a: seq<Entry>, prev: Id, cur: Id, b: seq<Entry>)
    requires Walked(c, root, a, prev, cur, b) && cur != Null
    ensures prev != cur && After(c, cur) != cur && cur in Items(a + b)
    ensures a != [] <==> prev != Null
    ensures a != [] ==> prev in Items(a + b) && prev != After(c, cur) && At(c, prev).Timed?
    ensures After(c, cur) != Null ==> After(c, cur) in Items(a + b) && At(c, After(c, cur)).Timed?
                                      && Delay(c, After(c, cur)) + Delay(c, cur) <= Total(a + b)
  {
    SegStep(c, root, a, cur, b);
    ItemsConcat(a, b);
    TotalConcat(a, b);
    if a != [] {
      LastItem(a);
      SegNonNull(c, root, a, cur);
      assert a == a[..|a| - 1] + [a[|a| - 1]];
      SegLast(c, root, a[..|a| - 1], a[|a| - 1], cur);
    }
  }
}
