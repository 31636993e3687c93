/**
  The doubly linked timeout queue of src/avrtos/dstruct/tdqueue.c: the same deltas as in
  TimeQueue, in nodes of a circular list.  It computes the same functions.
*/
module TdQueue {
  import opened Links
  import opened DeltaQueue
  import opened TimeQueue

  ghost function Ids(q: seq<Entry>): seq<Id> {
    if q == [] then [] else [q[0].id] + Ids(q[1..])
  }

  lemma {:induction false} IdsConcat(a: seq<Entry>, b: seq<Entry>)
    ensures Ids(a + b) == Ids(a) + Ids(b)
  {
    if a == [] {
      assert a + b == b;
    } else {
      IdsConcat(a[1..], b);
      assert (a + b)[1..] == a[1..] + b;
    }
  }

  lemma {:induction false} IdsLength(q: seq<Entry>)
    ensures |Ids(q)| == |q|
  {
    if q != [] {
      IdsLength(q[1..]);
    }
  }

  /** The ids around the border of a and b. */
  lemma IdsBorder(a: seq<Entry>, b: seq<Entry>)
    ensures |Ids(a + b)| == |a| + |b| && Ids(a + b)[..|a|] == Ids(a) && Ids(a + b)[|a|..] == Ids(b)
    ensures b != [] ==> Ids(a + b)[|a|] == b[0].id
    ensures |b| > 1 ==> Ids(a + b)[|a| + 1] == b[1].id
  {
    IdsConcat(a, b);
    IdsLength(a);
    IdsLength(b);
    if |b| > 1 {
      assert Ids(b)[1] == Ids(b[1..])[0] == b[1].id;
    }
  }

  lemma {:induction false} IdsAreItems(q: seq<Entry>)
    ensures forall x :: x in Ids(q) <==> x in Items(q)
  {
    if q != [] {
      IdsAreItems(q[1..]);
    }
  }

  /** The delay fields of the items. */
  ghost predicate Holds(delays: map<Id, nat>, q: seq<Entry>) {
    q == [] || (q[0].id in delays && delays[q[0].id] == q[0].delay && Holds(delays, q[1..]))
  }

  lemma {:induction false} HoldsFramed(delays: map<Id, nat>, q: seq<Entry>, id: Id, d: nat)
    requires Holds(delays, q) && id !in Items(q)
    ensures Holds(delays[id := d], q)
  {
    if q != [] {
      HoldsFramed(delays, q[1..], id, d);
    }
  }

  lemma {:induction false} HoldsConcat(delays: map<Id, nat>, a: seq<Entry>, b: seq<Entry>)
    ensures Holds(delays, a + b) <==> Holds(delays, a) && Holds(delays, b)
  {
    if a == [] {
      assert a + b == b;
    } else {
      HoldsConcat(delays, a[1..], b);
      assert (a + b)[1..] == a[1..] + b;
    }
  }

  /** The list of the queue, and where a loop over it stands: in front of b, behind a. */
  ghost predicate Standing(c: Cells, list: Id, delays: map<Id, nat>, a: seq<Entry>, b: seq<Entry>, node: Id) {
    && Ring(c, [list] + Ids(a + b)) && Holds(delays, a + b) && UniqueItems(a + b)
    && node == if b == [] then list else b[0].id
  }

  lemma StandingLinks(c: Cells, list: Id, delays: map<Id, nat>, a: seq<Entry>, b: seq<Entry>, node: Id)
    requires Standing(c, list, delays, a, b, node)
    ensures list !in Items(a + b)
    ensures node == list <==> b == []
    ensures b != [] ==> node in delays && delays[node] == b[0].delay
    ensures b != [] ==> Next(c, node) == if |b| == 1 then list else b[1].id
    ensures a == [] ==> Next(c, list) == if b == [] then list else b[0].id
  {
    hide Items, UniqueItems, Ids;
    var r := [list] + Ids(a + b);
    IdsAreItems(a + b);
    HoldsConcat(delays, a, b);
    IdsBorder(a, b);
    HeadApart(list, Ids(a + b));
    assert b != [] ==> r[1 + |a|] == b[0].id && Adjacent(c, r[|a|], r[1 + |a|]);
    assert |b| > 1 ==> r[2 + |a|] == b[1].id;
  }

  lemma HeadApart(list: Id, ids: seq<Id>)
    requires Distinct([list] + ids)
    ensures list !in ids
  {
    var r := [list] + ids;
    assert r[0] == list && forall i :: 0 <= i < |ids| ==> r[i + 1] == ids[i];
  }

  lemma Alone(a: seq<Entry>, b: seq<Entry>)
    requires UniqueItems(a + b) && b != []
    ensures b[0].id !in Items(a) && b[0].id !in Items(b[1..]) && UniqueItems(b)
  {
    ItemsConcat(a, b);
  }

  lemma Advance(c: Cells, list: Id, delays: map<Id, nat>, a: seq<Entry>, b: seq<Entry>, node: Id)
    requires Standing(c, list, delays, a, b, node) && b != []
    ensures Standing(c, list, delays, a + [b[0]], b[1..], Next(c, node))
  {
    hide Ring;
    StandingLinks(c, list, delays, a, b, node);
    assert a + [b[0]] + b[1..] == a + b;
  }

  /** One step of the loop of z_tdqueue_schedule: `item`, with d left, goes on behind b[0]. */
  lemma WalkStep(c: Cells, list: Id, delays: map<Id, nat>, a: seq<Entry>, b: seq<Entry>, node: Id, item: Id, d: nat)
    requires Standing(c, list, delays, a, b, node) && item !in Items(a + b) && b != [] && b[0].delay <= d
    ensures var a', b', next, y := a + [b[0]], b[1..], Next(c, node), delays[item := d - b[0].delay];
            && Standing(c, list, y, a', b', next) && a' + b' == a + b
            && a + Insert(b, item, d) == a' + Insert(b', item, d - b[0].delay)
            && (next == list <==> b' == []) && (b' != [] ==> next in y && y[next] == b'[0].delay)
  {
    hide Ring, Items, Ids, Holds, UniqueItems;
    var y := delays[item := d - b[0].delay];
    assert a + [b[0]] + b[1..] == a + b;
    HoldsFramed(delays, a + b, item, d - b[0].delay);
    assert Standing(c, list, y, a, b, node);
    Advance(c, list, y, a, b, node);
    StandingLinks(c, list, y, a + [b[0]], b[1..], Next(c, node));
    Assoc(a, b[0], Insert(b[1..], item, d - b[0].delay));
  }

  /** The front item of b with another delay. */
  lemma Changed(delays: map<Id, nat>, a: seq<Entry>, b: seq<Entry>, d: nat)
    requires Holds(delays, a + b) && UniqueItems(a + b) && b != []
    ensures var b' := [Entry(b[0].id, d)] + b[1..];
            && Holds(delays[b[0].id := d], a + b') && UniqueItems(a + b') && Ids(a + b') == Ids(a + b) && Items(a + b') == Items(a + b)
  {
    var id, b' := b[0].id, [Entry(b[0].id, d)] + b[1..];
    Alone(a, b);
    HoldsConcat(delays, a, b);
    HoldsFramed(delays, a, id, d);
    HoldsFramed(delays, b[1..], id, d);
    assert b'[1..] == b[1..];
    HoldsConcat(delays[id := d], a, b');
    ItemsConcat(a, b);
    ItemsConcat(a, b');
    IdsConcat(a, b);
    IdsConcat(a, b');
  }

  /** Rotating the circle after an insertion so that it begins at the list head again. */
  lemma Turned(c: Cells, list: Id, a: seq<Id>, item: Id, b: seq<Id>)
    requires Ring(c, b + ([list] + a) + [item])
    ensures Ring(c, [list] + (a + [item] + b))
  {
    var r := b + ([list] + a) + [item];
    RingRotated(c, r, |b|);
    assert r[|b|..] + r[..|b|] == [list] + (a + [item] + b);
  }

  class TdQueue {
    const mem: Memory
    const list: Id
    const max: nat
    var delays: map<Id, nat>
    ghost var q: seq<Entry>

    ghost predicate Valid()
      reads this, mem
    {
      Ring(mem.cells, [list] + Ids(q)) && Holds(delays, q) && UniqueItems(q) && Total(q) <= max
    }

    constructor (mem: Memory, list: Id, max: nat)
      requires list != Null
      modifies mem
      ensures Valid() && q == [] && this.mem == mem && this.list == list && this.max == max
    {
      this.mem, this.list, this.max := mem, list, max;
      delays, q := map[], [];
      new;
      mem.Init(list);
      assert [list] + Ids([]) == [list];
    }

    /** The node is linked in front of `node`, between a and b. */
    method Link(node: Id, item: Id, ghost a: seq<Entry>, ghost b: seq<Entry>)
      requires Standing(mem.cells, list, delays, a, b, node) && item != Null && item != list && item !in Items(a + b)
      modifies mem
      ensures Ring(mem.cells, [list] + (Ids(a) + [item] + Ids(b)))
    {
      hide Items, Holds, UniqueItems, Ring, Standing;
      AtRing(mem.cells, list, delays, a, b, node);
      ghost var r, k := [list] + Ids(a + b), if b == [] then 0 else 1 + |a|;
      StandingLinks(mem.cells, list, delays, a, b, node);
      IdsAreItems(a + b);
      IdsBorder(a, b);
      mem.Insert(node, item, r, k);
      if b == [] {
        assert r[0..] == r && r[..0] == [] && Ids(b) == [] && r == [list] + Ids(a);
        assert Ids(b) + ([list] + Ids(a)) == r && r + [] == r;
      } else {
        assert r[k..] == Ids(b) && r[..k] == [list] + Ids(a);
      }
      Turned(mem.cells, list, Ids(a), item, Ids(b));
    }

    /** tdqueue_schedule and z_tdqueue_schedule. */
    method Schedule(item: Id, timeout: nat)
      requires Valid() && item != Null && item != list && item !in Items(q) && timeout <= max
      modifies this, mem
      ensures Valid() && q == Insert(old(q), item, timeout)
    {
      hide Ring, Items, Holds, UniqueItems, Total, Insert, Ids;
      IdsAreItems(q);
      mem.Init(item);
      RingFramed(old(mem.cells), mem.cells, [list] + Ids(q), {item});
      delays := delays[item := timeout];
      HoldsFramed(old(delays), q, item, timeout);
      var node, a, b := Walk(item);
      StandingLinks(mem.cells, list, delays, a, b, node);
      Bounds(a, b);
      Link(node, item, a, b);
      ghost var x := delays;
      if node != list {
        delays := delays[node := Wrap(delays[node] - delays[item], max)];
      }
      Placed(old(q), a, b, item, timeout, x, delays);
      InsertTotal(q, item, timeout, max);
      InsertItems(q, item, timeout);
      q := Insert(q, item, timeout);
    }

    /** The loop of z_tdqueue_schedule. */
    method Walk(item: Id) returns (node: Id, ghost a: seq<Entry>, ghost b: seq<Entry>)
      requires Valid() && item !in Items(q) && item in delays && delays[item] <= max
      modifies this`delays
      ensures Standing(mem.cells, list, delays, a, b, node) && a + b == q && item in delays && delays[item] <= max
      ensures b != [] ==> delays[item] < b[0].delay
      ensures Insert(q, item, old(delays[item])) == a + Insert(b, item, delays[item])
    {
      hide Ring, Items, Total, Ids, Holds, UniqueItems, Standing, Insert;
      node, a, b := Next(mem.cells, list), [], q;
      assert [] + q == q && [] + Insert(q, item, delays[item]) == Insert(q, item, delays[item]);
      FirstNode(mem.cells, list, delays, q);
      while node != list && delays[node] <= delays[item]
        invariant Standing(mem.cells, list, delays, a, b, node) && a + b == q && item in delays && delays[item] <= max
        invariant node == list <==> b == []
        invariant b != [] ==> node in delays && delays[node] == b[0].delay
        invariant Insert(q, item, old(delays[item])) == a + Insert(b, item, delays[item])
        decreases |b|
      {
        WalkStep(mem.cells, list, delays, a, b, node, item, delays[item]);
        delays := delays[item := Wrap(delays[item] - delays[node], max)];
        node := Next(mem.cells, node);
        a, b := a + [b[0]], b[1..];
      }
    }

    /** tdqueue_shift. */
    method Elapse(time: nat)
      requires Valid() && time <= max
      modifies this
      ensures Valid() && q == Shift(old(q), time)
    {
      hide Ring, Items, Total, Ids, Holds, UniqueItems, Shift;
      var node, passed := Next(mem.cells, list), time;
      ghost var a, b := [], q;
      assert [] + q == q && [] + Shift(q, time) == Shift(q, time);
      FirstNode(mem.cells, list, delays, q);
      while node != list && delays[node] <= passed
        invariant Standing(mem.cells, list, delays, a, b, node) && 0 <= passed <= max
        invariant node == list <==> b == []
        invariant b != [] ==> node in delays && delays[node] == b[0].delay
        invariant a + Shift(b, passed) == Shift(q, time) && q == old(q) && |a| + |b| == |q|
        decreases |b|
      {
        ghost var b' := [Entry(b[0].id, 0)] + b[1..];
        ShiftPast(a, b, passed);
        Changed(delays, a, b, 0);
        assert delays[node] == 0 ==> delays[node := 0] == delays;
        if delays[node] != 0 {
          passed := Wrap(passed - delays[node], max);
          delays := delays[node := 0];
        }
        Advance(mem.cells, list, delays, a, b', node);
        node := Next(mem.cells, node);
        a, b := a + [b'[0]], b[1..];
        assert b'[1..] == b;
        StandingLinks(mem.cells, list, delays, a, b, node);
      }
      ShiftLast(a, b, passed, q, time);
      if node != list {
        Changed(delays, a, b, b[0].delay - passed);
        Bounded(q, a, b, time, passed, max);
        delays := delays[node := Wrap(delays[node] - passed, max)];
      } else {
        assert a + b == a;
      }
      ShiftItems(q, time);
      ShiftTotal(q, time);
      q := Shift(q, time);
    }

    /** tdqueue_pop.  `beside` is the word of memory before the list head: on an empty queue the
        code reads it as the delay of an item, and returns the head itself when it is 0. */
    method Pop(beside: nat) returns (item: Id)
      requires Valid()
      modifies this, mem
      ensures Valid() && list != Null && list !in Items(old(q))
      ensures if old(q) == [] then q == [] && item == (if beside == 0 then list else Null)
              else if old(q)[0].delay == 0 then item == old(q)[0].id && item != Null && q == old(q)[1..]
              else item == Null && q == old(q)
    {
      hide Ring, Items, Total, Ids, Holds, UniqueItems;
      FirstNode(mem.cells, list, delays, q);
      StandingLinks(mem.cells, list, delays, [], q, Next(mem.cells, list));
      assert [] + q == q;
      var head := Next(mem.cells, list);
      HeadRing(mem.cells, list, q);
      if q != [] {
        PoppedRing(mem.cells, list, delays, q);
      }
      if (if head == list then beside else delays[head]) == 0 {
        mem.Remove(head, [list] + Ids(q), 1);
        if q == [] {
          RingFramedOne(old(mem.cells), mem.cells, list);
        } else {
          q := q[1..];
        }
        item := head;
      } else {
        item := Null;
      }
    }

    /** tdqueue_pop_reschedule; `left` is what it leaves in the word before the list head. */
    method PopReschedule(timeout: nat, beside: nat) returns (item: Id, left: nat)
      requires Valid() && timeout <= max
      modifies this, mem
      ensures Valid()
      ensures if old(q) == [] then q == [] && (if beside == 0 then item == list && left == timeout else item == Null && left == beside)
              else if old(q)[0].delay == 0 then item == old(q)[0].id && q == Insert(old(q)[1..], item, timeout) && left == beside
              else item == Null && q == old(q) && left == beside
    {
      hide Ring, Total, Ids, Holds, Insert;
      left := beside;
      item := Pop(beside);
      if item == list {
        RelinkHead();
        left := timeout;
      } else if item != Null {
        Schedule(item, timeout);
      }
    }

    /** tdqueue_schedule of the list head itself: the loop ends at once. */
    method RelinkHead()
      requires Valid() && q == []
      modifies mem
      ensures Valid()
    {
      assert [list] + Ids([]) == [list];
      mem.Init(list);
      var prev := Prev(mem.cells, list);
      mem.SetNext(prev, list);
      mem.SetPrev(list, prev);
      mem.SetNext(list, list);
      mem.SetPrev(list, list);
    }

    /** tdqueue_remove of an item of the queue. */
    method Remove(item: Id)
      requires Valid() && item in Items(q)
      modifies this, mem
      ensures Valid() && q == Delete(old(q), item)
    {
      hide Ring, Items, Total, Ids, Holds, UniqueItems, Delete;
      ghost var a, b := SplitAt(q, item);
      TakenOut(mem.cells, list, delays, q, a, b, max);
      var next := Next(mem.cells, item);
      mem.Remove(item, [list] + Ids(q), 1 + |a|);
      if next != list {
        delays := delays[next := Wrap(delays[next] + delays[item], max)];
      }
      q := Delete(q, item);
    }
  }

  lemma FirstNode(c: Cells, list: Id, delays: map<Id, nat>, q: seq<Entry>)
    requires Ring(c, [list] + Ids(q)) && Holds(delays, q) && UniqueItems(q)
    ensures Standing(c, list, delays, [], q, Next(c, list))
    ensures Next(c, list) == list <==> q == []
    ensures q != [] ==> Next(c, list) in delays && delays[Next(c, list)] == q[0].delay
  {
    assert [] + q == q;
    var r := [list] + Ids(q);
    assert r[0] == list && (q != [] ==> r[1] == q[0].id);
  }

  lemma HeadRing(c: Cells, list: Id, q: seq<Entry>)
    requires Ring(c, [list] + Ids(q))
    ensures list != Null
    ensures q == [] ==> [list] + Ids(q) == [list] && At(c, list) == Node(list, list)
  {
    assert ([list] + Ids(q))[0] == list;
  }

  lemma RingFramedOne(c: Cells, c': Cells, list: Id)
    requires At(c, list) == Node(list, list) && list != Null && Unlinked(c, c', list)
    ensures Ring(c', [list])
  {
  }

  lemma AtRing(c: Cells, list: Id, delays: map<Id, nat>, a: seq<Entry>, b: seq<Entry>, node: Id)
    requires Standing(c, list, delays, a, b, node)
    ensures Ring(c, [list] + Ids(a + b))
    ensures node == if b == [] then list else b[0].id
  {
  }

  lemma Bounds(a: seq<Entry>, b: seq<Entry>)
    ensures b != [] ==> b[0].delay <= Total(a + b)
  {
    TotalConcat(a, b);
  }

  /** The fields after the insertion between a and b. */
  lemma Placed(q: seq<Entry>, a: seq<Entry>, b: seq<Entry>, item: Id, timeout: nat, x: map<Id, nat>, delays: map<Id, nat>)
    requires a + b == q && Holds(x, q) && UniqueItems(q) && item !in Items(q) && item in delays
    requires Insert(q, item, timeout) == a + Insert(b, item, delays[item])
    requires b == [] ==> delays == x
    requires b != [] ==> delays[item] < b[0].delay && delays == x[b[0].id := b[0].delay - delays[item]]
    ensures Ids(Insert(q, item, timeout)) == Ids(a) + [item] + Ids(b)
    ensures Holds(delays, Insert(q, item, timeout))
  {
    hide Ids, Holds, UniqueItems, Items, Insert;
    var d := delays[item];
    AtFront(b, item, d);
    if b == [] {
      assert a + b == a;
      Woven(a, b, Entry(item, d), delays);
    } else {
      ItemsConcat(a, b);
      HeadItem(b);
      Changed(x, a, b, b[0].delay - d);
      var b' := [Entry(b[0].id, b[0].delay - d)] + b[1..];
      assert delays == x[b[0].id := b[0].delay - d];
      IdsBorder(a, b);
      IdsBorder(a, b');
      Woven(a, b', Entry(item, d), delays);
    }
  }

  lemma AtFront(b: seq<Entry>, item: Id, d: nat)
    requires b != [] ==> d < b[0].delay
    ensures Insert(b, item, d) == [Entry(item, d)] + if b == [] then b else [Entry(b[0].id, b[0].delay - d)] + b[1..]
  {
  }

  lemma HeadItem(b: seq<Entry>)
    requires b != []
    ensures b[0].id in Items(b)
  {
  }

  lemma Woven(a: seq<Entry>, b: seq<Entry>, e: Entry, delays: map<Id, nat>)
    requires Holds(delays, a + b) && e.id in delays && delays[e.id] == e.delay
    ensures Ids(a + ([e] + b)) == Ids(a) + [e.id] + Ids(b)
    ensures Holds(delays, a + ([e] + b))
  {
    HoldsConcat(delays, a, b);
    assert ([e] + b)[1..] == b;
    HoldsConcat(delays, a, [e] + b);
    IdsConcat(a, [e] + b);
    assert Ids(a) + ([e.id] + Ids(b)) == Ids(a) + [e.id] + Ids(b);
  }

  lemma ShiftPast(a: seq<Entry>, b: seq<Entry>, passed: nat)
    requires b != [] && b[0].delay <= passed
    ensures a + [Entry(b[0].id, 0)] + Shift(b[1..], passed - b[0].delay) == a + Shift(b, passed)
  {
    Assoc(a, Entry(b[0].id, 0), Shift(b[1..], passed - b[0].delay));
  }

  lemma ShiftLast(a: seq<Entry>, b: seq<Entry>, passed: nat, q: seq<Entry>, time: nat)
    requires a + Shift(b, passed) == Shift(q, time) && (b != [] ==> b[0].delay > passed)
    ensures Shift(q, time) == a + if b == [] then [] else [Entry(b[0].id, b[0].delay - passed)] + b[1..]
  {
  }

  /** What is left in front of the loop is no more than what was there. */
  lemma Bounded(q: seq<Entry>, a: seq<Entry>, b: seq<Entry>, time: nat, passed: nat, max: nat)
    requires Total(q) <= max && b != [] && b[0].delay > passed
    requires Shift(q, time) == a + ([Entry(b[0].id, b[0].delay - passed)] + b[1..])
    ensures b[0].delay - passed <= max
  {
    ShiftTotal(q, time);
    TotalConcat(a, [Entry(b[0].id, b[0].delay - passed)] + b[1..]);
  }

  lemma PoppedRing(c: Cells, list: Id, delays: map<Id, nat>, q: seq<Entry>)
    requires Ring(c, [list] + Ids(q)) && Holds(delays, q) && UniqueItems(q) && q != []
    ensures |[list] + Ids(q)| > 1 && ([list] + Ids(q))[1] == q[0].id && q[0].id != Null
    ensures Without([list] + Ids(q), 1) == [list] + Ids(q[1..])
    ensures Holds(delays, q[1..]) && UniqueItems(q[1..]) && Total(q[1..]) <= Total(q)
  {
    hide Ring;
    var r := [list] + Ids(q);
    IdsTail(q);
    RingReal(c, r);
    assert r == [list, q[0].id] + Ids(q[1..]);
    assert r[1] in r && r[..1] == [list] && r[2..] == Ids(q[1..]);
  }

  lemma {:induction false} SplitAt(q: seq<Entry>, id: Id) returns (a: seq<Entry>, b: seq<Entry>)
    requires id in Items(q)
    ensures a + b == q && b != [] && b[0].id == id && id !in Items(a)
  {
    if q[0].id == id {
      a, b := [], q;
    } else {
      var a1, b1 := SplitAt(q[1..], id);
      a, b := [q[0]] + a1, b1;
      assert a[1..] == a1;
      assert [q[0]] + (a1 + b1) == a + b1;
    }
  }

  lemma {:induction false} DeleteBehind(a: seq<Entry>, b: seq<Entry>, id: Id)
    requires id !in Items(a)
    ensures Delete(a + b, id) == a + Delete(b, id)
  {
    if a == [] {
      assert a + b == b;
    } else {
      DeleteBehind(a[1..], b, id);
      assert (a + b)[1..] == a[1..] + b;
      assert [a[0]] + (a[1..] + Delete(b, id)) == a + Delete(b, id);
    }
  }

  /** The pointers and fields around an item, and what is left without it. */
  lemma TakenOut(c: Cells, list: Id, delays: map<Id, nat>, q: seq<Entry>, a: seq<Entry>, b: seq<Entry>, max: nat)
    requires Ring(c, [list] + Ids(q)) && Holds(delays, q) && UniqueItems(q) && Total(q) <= max
    requires a + b == q && b != [] && b[0].id !in Items(a)
    ensures var id, next := b[0].id, Next(c, b[0].id);
            && |[list] + Ids(q)| > 1 + |a| && ([list] + Ids(q))[1 + |a|] == id && |[list] + Ids(q)| > 1
            && Without([list] + Ids(q), 1 + |a|) == [list] + Ids(Delete(q, id))
            && UniqueItems(Delete(q, id)) && Total(Delete(q, id)) <= max
            && id in delays
            && if next == list then Holds(delays, Delete(q, id))
               else next in delays && delays[next] + delays[id] <= max
                    && Holds(delays[next := delays[next] + delays[id]], Delete(q, id))
  {
    hide Ids, Items, UniqueItems, Ring, Total;
    var id, r := b[0].id, [list] + Ids(q);
    assert Standing(c, list, delays, a, b, id);
    StandingLinks(c, list, delays, a, b, id);
    DeleteItems(q, id);
    DeleteTotal(q, id);
    DeleteBehind(a, b, id);
    HoldsConcat(delays, a, b);
    IdsBorder(a, b);
    IdsTail(b);
    var b1 := b[1..];
    assert Without(r, 1 + |a|) == [list] + (Ids(a) + Ids(b1));
    if b1 == [] {
      assert a + [] == a && Ids(a) + Ids(b1) == Ids(a);
    } else {
      Advance(c, list, delays, a, b, id);
      StandingLinks(c, list, delays, a + [b[0]], b1, Next(c, id));
      Fewer(a, b, delays, max);
    }
  }

  lemma IdsTail(b: seq<Entry>)
    requires b != []
    ensures Ids(b) == [b[0].id] + Ids(b[1..]) && (|b| == 1 ==> Ids(b[1..]) == [])
  {
  }

  /** The item's time goes to the item behind it. */
  lemma Fewer(a: seq<Entry>, b: seq<Entry>, delays: map<Id, nat>, max: nat)
    requires Holds(delays, a + b) && UniqueItems(a + b) && |b| > 1 && Total(a + b) <= max
    ensures var id, next := b[0].id, b[1].id;
            && id in delays && next in delays && delays[next] + delays[id] <= max
            && Holds(delays[next := delays[next] + delays[id]], a + Delete(b, id))
            && Ids(a + Delete(b, id)) == Ids(a) + Ids(b[1..])
  {
    var id, next, b1 := b[0].id, b[1].id, b[1..];
    HoldsConcat(delays, a, b);
    ItemsConcat(a, b);
    TotalConcat(a, b);
    HoldsConcat(delays, a, b1);
    ItemsConcat(a, b1);
    assert b1[1..] == b[2..] && b1[0] == b[1];
    Changed(delays, a, b1, b[1].delay + b[0].delay);
    IdsConcat(a, b1);
  }

  // ----- the two queues side by side -----

  datatype Op = Schedule(id: Id, timeout: nat) | Elapse(time: nat) | Pop(beside: nat) | Remove(id: Id)

  /** The calls both files are meant for: new items in, present items out. */
  ghost predicate Legal(q: seq<Entry>, op: Op, list: Id, max: nat) {
    match op
    case Schedule(id, t) => id != Null && id != list && id !in Items(q) && t <= max
    case Elapse(t) => t <= max
    case Pop(_) => true
    case Remove(id) => id in Items(q)
  }

  function Stepped(q: seq<Entry>, op: Op): seq<Entry> {
    match op
    case Schedule(id, t) => Insert(q, id, t)
    case Elapse(t) => Shift(q, t)
    case Pop(_) => if q != [] && q[0].delay == 0 then q[1..] else q
    case Remove(id) => Delete(q, id)
  }

  ghost predicate LegalAll(q: seq<Entry>, ops: seq<Op>, list: Id, max: nat)
    decreases |ops|
  {
    ops == [] || (Legal(q, ops[0], list, max) && LegalAll(Stepped(q, ops[0]), ops[1..], list, max))
  }

  /** No pop finds the queue empty and the word before the list head 0. */
  ghost predicate NoHeadPops(q: seq<Entry>, ops: seq<Op>)
    decreases |ops|
  {
    ops == [] || (!(q == [] && ops[0] == Pop(0)) && NoHeadPops(Stepped(q, ops[0]), ops[1..]))
  }

  /** The same calls on both queues leave the same items with the same deltas.  The same items
      pop, in the same order, if and only if no pop takes the list head for an item. */
  method Lockstep(t: TQueue, d: TdQueue, ops: seq<Op>) returns (popped: seq<Id>, popped': seq<Id>)
    requires t.Valid() && d.Valid() && t.q == d.q && t.max == d.max && t.mem != d.mem
    requires LegalAll(t.q, ops, d.list, d.max)
    modifies t, t.mem, d, d.mem
    ensures t.Valid() && d.Valid() && t.q == d.q
    ensures popped == popped' <==> NoHeadPops(old(t.q), ops)
  {
    hide Seg, Ring, Items, UniqueItems, Total, Ids, Holds, Insert, Shift, Delete;
    popped, popped' := [], [];
    for i := 0 to |ops|
      invariant t.Valid() && d.Valid() && t.q == d.q && |popped| == |popped'|
      invariant popped == popped' && NoHeadPops(t.q, ops[i..]) <==> NoHeadPops(old(t.q), ops)
      invariant LegalAll(t.q, ops[i..], d.list, d.max)
    {
      assert ops[i..][0] == ops[i] && ops[i..][1..] == ops[i + 1..];
      var x, x' := Both(t, d, ops[i]);
      Grown(popped, popped', x, x');
      popped, popped' := popped + [x], popped' + [x'];
    }
  }

  lemma Grown(a: seq<Id>, b: seq<Id>, x: Id, y: Id)
    requires |a| == |b|
    ensures a + [x] == b + [y] <==> a == b && x == y
  {
    if a + [x] == b + [y] {
      assert a == (a + [x])[..|a|] == b && (a + [x])[|a|] == (b + [y])[|b|];
    }
  }

  method Both(t: TQueue, d: TdQueue, op: Op) returns (x: Id, x': Id)
    requires t.Valid() && d.Valid() && t.q == d.q && t.max == d.max && t.mem != d.mem && Legal(t.q, op, d.list, d.max)
    modifies t, t.mem, d, d.mem
    ensures t.Valid() && d.Valid() && t.q == d.q == Stepped(old(t.q), op)
    ensures x == x' <==> !(old(t.q) == [] && op == Pop(0))
  {
    hide Seg, Ring, Items, UniqueItems, Total, Ids, Holds, Insert, Shift, Delete;
    x, x' := Null, Null;
    match op {
      case Schedule(id, timeout) =>
        t.Schedule(id, timeout);
        d.Schedule(id, timeout);
      case Elapse(time) =>
        t.Elapse(time);
        d.Elapse(time);
      case Pop(beside) =>
        x := t.Pop();
        x' := d.Pop(beside);
      case Remove(id) =>
        var r := t.Remove(id);
        d.Remove(id);
    }
  }
}
