/**
  The memory in which the kernel's intrusive lists live, and the circular doubly linked
  list of src/avrtos/dstruct/dlist.c that is threaded through it.

  A list node is embedded in a bigger C structure and is reached by its address.  `Id`
  plays the part of that address.  One memory maps addresses to cells.  A cell holds the
  two words that `struct dnode` and `struct titem` overlay in the union `tie` of
  `struct k_thread`: it is either a list node or a timeout item, and reading it through
  the wrong view gives nothing usable, which is modelled as `Null`.
*/
module Links {

  datatype Id = Null | Thread(n: nat) | Queue(n: nat) | Join(n: nat) | Item(n: nat)

  datatype Cell = Node(next: Id, prev: Id) | Timed(delay: nat, after: Id)

  type Cells = map<Id, Cell>

  /** What a cell holds; memory that was never written holds null pointers. */
  function At(c: Cells, n: Id): Cell {
    if n in c then c[n] else Node(Null, Null)
  }

  function Next(c: Cells, n: Id): Id {
    if At(c, n).Node? then At(c, n).next else Null
  }

  function Prev(c: Cells, n: Id): Id {
    if At(c, n).Node? then At(c, n).prev else Null
  }

  function Delay(c: Cells, n: Id): nat {
    if At(c, n).Timed? then At(c, n).delay else 0
  }

  function After(c: Cells, n: Id): Id {
    if At(c, n).Timed? then At(c, n).after else Null
  }

  /** a and b are neighbours: a's successor is b and b's predecessor is a. */
  ghost predicate Adjacent(c: Cells, a: Id, b: Id) {
    Next(c, a) == b && Prev(c, b) == a
  }

  ghost predicate Distinct<T(!new)>(s: seq<T>) {
    forall i, j :: 0 <= i < j < |s| ==> s[i] != s[j]
  }

  /** The nodes of s form one circle in the order of s. */
  ghost predicate Ring(c: Cells, s: seq<Id>) {
    && s != []
    && Null !in s
    && Distinct(s)
    && (forall i, j :: 0 <= i < |s| && j == i + 1 && j < |s| ==> Adjacent(c, s[i], s[j]))
    && Adjacent(c, s[|s| - 1], s[0])
  }

  /** Cells outside `touched` hold what they held before. */
  ghost predicate Frame(c: Cells, c': Cells, touched: set<Id>) {
    forall n :: n !in touched ==> At(c', n) == At(c, n)
  }

  ghost predicate SameMemory(c: Cells, c': Cells) {
    forall n :: At(c', n) == At(c, n)
  }

  ghost function Elems(s: seq<Id>): (r: set<Id>)
    ensures forall x :: x in r <==> x in s
  {
    set x | x in s
  }

  function Without<T>(s: seq<T>, k: nat): (r: seq<T>)
    requires k < |s|
  {
    s[..k] + s[k + 1..]
  }

  /** A ring survives every write outside its own nodes. */
  lemma RingFramed(c: Cells, c': Cells, s: seq<Id>, touched: set<Id>)
    requires Ring(c, s) && Frame(c, c', touched)
    requires forall x :: x in s ==> x !in touched
    ensures Ring(c', s)
  {
    forall i, j | 0 <= i < |s| && j == i + 1 && j < |s|
      ensures Adjacent(c', s[i], s[j])
    {
      assert Adjacent(c, s[i], s[j]);
    }
    assert s[0] in s && s[|s| - 1] in s;
  }

  /** Entering the circle at another node gives the rotated sequence. */
  lemma RingRotated(c: Cells, s: seq<Id>, k: nat)
    requires Ring(c, s) && k < |s|
    ensures Ring(c, s[k..] + s[..k])
  {
    var r := s[k..] + s[..k];
    forall x | x in r ensures x in s { }
    forall i, j | 0 <= i < |r| && j == i + 1 && j < |r|
      ensures Adjacent(c, r[i], r[j])
    {
      if j < |s| - k {
        assert r[i] == s[k + i] && r[j] == s[k + i + 1];
      } else if i < |s| - k {
        assert r[i] == s[|s| - 1] && r[j] == s[0];
      } else {
        assert r[i] == s[i - (|s| - k)] && r[j] == s[i - (|s| - k) + 1];
      }
    }
    if k > 0 {
      assert r[|r| - 1] == s[k - 1] && r[0] == s[k];
    } else {
      assert r == s;
    }
  }

  class Memory {
    var cells: Cells

    constructor ()
      ensures cells == map[]
    {
      cells := map[];
    }

    /** `n->next = v`; the cell becomes a list node. */
    method SetNext(n: Id, v: Id)
      modifies this
      ensures cells.Keys == old(cells.Keys) + {n}
      ensures Frame(old(cells), cells, {n})
      ensures At(cells, n) == Node(v, Prev(old(cells), n))
    {
      cells := cells[n := Node(v, Prev(cells, n))];
    }

    /** `n->prev = v`; the cell becomes a list node. */
    method SetPrev(n: Id, v: Id)
      modifies this
      ensures cells.Keys == old(cells.Keys) + {n}
      ensures Frame(old(cells), cells, {n})
      ensures At(cells, n) == Node(Next(old(cells), n), v)
    {
      cells := cells[n := Node(Next(cells, n), v)];
    }

    /** `n->delay_shift = d`; the cell becomes a timeout item. */
    method SetDelay(n: Id, d: nat)
      modifies this
      ensures cells.Keys == old(cells.Keys) + {n}
      ensures Frame(old(cells), cells, {n})
      ensures At(cells, n) == Timed(d, After(old(cells), n))
    {
      cells := cells[n := Timed(d, After(cells, n))];
    }

    /** `n->next = v` of a timeout item; the cell becomes a timeout item. */
    method SetAfter(n: Id, v: Id)
      modifies this
      ensures cells.Keys == old(cells.Keys) + {n}
      ensures Frame(old(cells), cells, {n})
      ensures At(cells, n) == Timed(Delay(old(cells), n), v)
    {
      cells := cells[n := Timed(Delay(cells, n), v)];
    }

    /** dlist_init: the node is a circle of its own. */
    method Init(list: Id)
      requires list != Null
      modifies this
      ensures Ring(cells, [list])
      ensures Null in cells <==> Null in old(cells)
      ensures Frame(old(cells), cells, {list})
    {
      SetNext(list, list);
      SetPrev(list, list);
    }

    /** dlist_append: the node becomes the last one before `list` comes round again. */
    method Append(list: Id, node: Id, ghost s: seq<Id>)
      requires Ring(cells, [list] + s)
      requires node != Null && node !in [list] + s
      modifies this
      ensures Ring(cells, [list] + s + [node])
      ensures Null in cells <==> Null in old(cells)
      ensures Frame(old(cells), cells, Elems([list] + s) + {node})
    {
      ghost var r := [list] + s;
      var tail := Prev(cells, list);
      assert tail == r[|r| - 1];

      SetNext(tail, node);
      SetPrev(node, tail);

      SetPrev(list, node);
      SetNext(node, list);
      InsertedAtEnd(old(cells), cells, r, node);
    }

    /** dlist_prepend: the node becomes the successor of `list`. */
    method Prepend(list: Id, node: Id, ghost s: seq<Id>)
      requires Ring(cells, [list] + s)
      requires node != Null && node !in [list] + s
      modifies this
      ensures Ring(cells, [list, node] + s)
      ensures Null in cells <==> Null in old(cells)
      ensures Frame(old(cells), cells, Elems([list] + s) + {node})
    {
      ghost var r := [list] + s;
      var head := Next(cells, list);
      ghost var e := s + [list];
      assert head == e[0] by { if s != [] { assert r[1] == head; } }

      SetPrev(node, list);
      SetNext(node, head);

      SetPrev(head, node);
      SetNext(list, node);

      RingRotated(old(cells), r, if s == [] then 0 else 1);
      assert e == if s == [] then r[0..] + r[..0] else r[1..] + r[..1];
      InsertedAtEnd(old(cells), cells, e, node);
      RingRotated(cells, e + [node], |s|);
      assert (e + [node])[|s|..] + (e + [node])[..|s|] == [list, node] + s;
    }

    /** dlist_insert: the node goes right before `successor`, which stands at k. */
    method Insert(successor: Id, node: Id, ghost s: seq<Id>, ghost k: nat)
      requires Ring(cells, s) && k < |s| && s[k] == successor
      requires node != Null && node !in s
      modifies this
      ensures Ring(cells, s[k..] + s[..k] + [node])
      ensures Null in cells <==> Null in old(cells)
      ensures Frame(old(cells), cells, Elems(s) + {node})
    {
      ghost var e := s[k..] + s[..k];
      RingRotated(cells, s, k);
      var prev := Prev(cells, successor);
      assert prev == e[|e| - 1];

      SetNext(prev, node);
      SetPrev(node, prev);

      SetNext(node, successor);
      SetPrev(successor, node);
      forall x | x in e ensures x in s { }
      InsertedAtEnd(old(cells), cells, e, node);
    }

    /**
      dlist_remove: the neighbours recorded in the node are linked to each other.

      When the node stands in a ring it leaves that ring, and its own two pointers keep
      their old values.  The function trusts those pointers: on a node that left its list
      earlier, memory is untouched if and only if the recorded neighbours still are
      neighbours of each other.
    */
    method Remove(node: Id, ghost s: seq<Id>, ghost k: nat)
      modifies this
      ensures Null in cells <==> Null in old(cells) || Null in {Prev(old(cells), node), Next(old(cells), node)}
      ensures Frame(old(cells), cells, {Prev(old(cells), node), Next(old(cells), node)})
      ensures Unlinked(old(cells), cells, node)
      ensures Ring(old(cells), s) && k < |s| && s[k] == node && |s| > 1 ==>
                Ring(cells, Without(s, k)) && At(cells, node) == At(old(cells), node)
      ensures var p, x := Prev(old(cells), node), Next(old(cells), node);
              SameMemory(old(cells), cells) <==>
              At(old(cells), p).Node? && At(old(cells), x).Node? && Adjacent(old(cells), p, x)
    {
      var prev := Prev(cells, node);
      var next := Next(cells, node);

      SetNext(prev, next);
      SetPrev(next, prev);
      if Ring(old(cells), s) && k < |s| && s[k] == node && |s| > 1 {
        UnlinkedFromRing(old(cells), cells, s, k);
      }
      assert At(cells, prev).Node? && At(cells, next).Node? && Adjacent(cells, prev, next);
    }

    /** dlist_get: takes the node after `list` out; on an empty list that is `list` itself. */
    method Get(list: Id, ghost s: seq<Id>) returns (item: Id)
      requires Ring(cells, [list] + s)
      modifies this
      ensures s == [] ==> item == list && SameMemory(old(cells), cells)
      ensures s != [] ==> item == s[0] && Ring(cells, [list] + s[1..]) && At(cells, item) == At(old(cells), item)
      ensures Null in cells <==> Null in old(cells)
      ensures Frame(old(cells), cells, Elems([list] + s))
    {
      ghost var r := [list] + s;
      item := Next(cells, list);
      ghost var k := if s == [] then 0 else 1;
      assert item == r[k];
      if s != [] {
        assert Adjacent(cells, list, item);
        assert Adjacent(cells, item, if |s| > 1 then r[2] else r[0]);
      }
      Remove(item, r, k);
      assert s != [] ==> Without(r, 1) == [list] + s[1..];
    }

    /** dlist_count: walks the circle; the counter is a byte. */
    method Count(list: Id, ghost s: seq<Id>) returns (count: nat)
      requires Ring(cells, [list] + s)
      ensures count == |s| % 256
    {
      ghost var r := [list] + s;
      ghost var k := 1;
      var cur := Next(cells, list);
      assert |r| > 1 ==> r[1] == cur;
      count := 0;
      while cur != list
        invariant 1 <= k <= |r|
        invariant cur == if k < |r| then r[k] else list
        invariant count == (k - 1) % 256
        decreases |r| - k
      {
        count := (count + 1) % 256;
        cur := Next(cells, cur);
        k := k + 1;
        assert k < |r| ==> Adjacent(cells, r[k - 1], r[k]);
      }
    }
  }

  /** The four writes that put a node between the last and the first node of a ring. */
  lemma InsertedAtEnd(c: Cells, c': Cells, s: seq<Id>, node: Id)
    requires Ring(c, s) && node != Null && node !in s
    requires Frame(c, c', {s[0], s[|s| - 1], node})
    requires At(c', node) == Node(s[0], s[|s| - 1])
    requires |s| == 1 ==> At(c', s[0]) == Node(node, node)
    requires |s| > 1 ==> At(c', s[0]) == Node(Next(c, s[0]), node)
    requires |s| > 1 ==> At(c', s[|s| - 1]) == Node(node, Prev(c, s[|s| - 1]))
    ensures Ring(c', s + [node])
  {
    var r := s + [node];
    forall i, j | 0 <= i < |r| && j == i + 1 && j < |r|
      ensures Adjacent(c', r[i], r[j])
    {
      if j < |s| {
        assert Adjacent(c, s[i], s[j]);
        assert Next(c', s[i]) == Next(c, s[i]);
        assert Prev(c', s[j]) == Prev(c, s[j]);
      }
    }
  }

  /** The two writes that take s[k] out of a ring. */
  lemma UnlinkedFromRing(c: Cells, c': Cells, s: seq<Id>, k: nat)
    requires Ring(c, s) && |s| > 1 && k < |s|
    requires var p, x := Prev(c, s[k]), Next(c, s[k]);
             && Frame(c, c', {p, x})
             && Next(c', p) == x && Prev(c', x) == p
             && (p != x ==> Prev(c', p) == Prev(c, p) && Next(c', x) == Next(c, x))
    ensures Ring(c', Without(s, k)) && At(c', s[k]) == At(c, s[k])
  {
    var n := |s|;
    var kp := if k == 0 then n - 1 else k - 1;
    var kx := if k == n - 1 then 0 else k + 1;
    assert Adjacent(c, s[kp], s[k]) && Adjacent(c, s[k], s[kx]);
    var r := Without(s, k);
    forall x | x in r ensures x in s { }
    forall i, j | 0 <= i < |r| && j == i + 1 && j < |r|
      ensures Adjacent(c', r[i], r[j])
    {
      var a := if i < k then i else i + 1;
      var b := if j < k then j else j + 1;
      assert r[i] == s[a] && r[j] == s[b];
      if b == a + 1 {
        assert Adjacent(c, s[a], s[b]);
      }
    }
    if 0 < k < n - 1 {
      assert r[0] == s[0] && r[|r| - 1] == s[n - 1];
      assert Adjacent(c, s[n - 1], s[0]);
    }
  }

  /** The two writes of dlist_remove. */
  ghost predicate Unlinked(c: Cells, c': Cells, node: Id) {
    var p, x := Prev(c, node), Next(c, node);
    && Frame(c, c', {p, x}) && Adjacent(c', p, x)
    && (p != x ==> Prev(c', p) == Prev(c, p) && Next(c', x) == Next(c, x))
  }

  /** A circle that the node is not in survives dlist_remove of the node if and only if the
      neighbours recorded in the node, where they are in the circle, still have each other
      for neighbours. */
  lemma RingAfterUnlink(c: Cells, c': Cells, node: Id, r: seq<Id>)
    requires Ring(c, r) && Unlinked(c, c', node)
    ensures var p, x := Prev(c, node), Next(c, node);
            Ring(c', r) <==> (p in r ==> Next(c, p) == x) && (x in r ==> Prev(c, x) == p)
  {
    var p, x := Prev(c, node), Next(c, node);
    if Ring(c', r) {
      if p in r {
        SameSuccessor(c, c', r, p);
      }
      if x in r {
        SamePredecessor(c, c', r, x);
      }
    }
    if (p in r ==> Next(c, p) == x) && (x in r ==> Prev(c, x) == p) {
      forall a | a in r ensures Next(c', a) == Next(c, a) && Prev(c', a) == Prev(c, a) { }
      forall i, j | 0 <= i < |r| && j == i + 1 && j < |r| ensures Adjacent(c', r[i], r[j]) {
        assert Adjacent(c, r[i], r[j]) && r[i] in r && r[j] in r;
      }
      assert Adjacent(c, r[|r| - 1], r[0]) && r[|r| - 1] in r && r[0] in r;
    }
  }

  lemma SameSuccessor(c: Cells, c': Cells, r: seq<Id>, a: Id)
    requires Ring(c, r) && Ring(c', r) && a in r
    ensures Next(c', a) == Next(c, a)
  {
    var i :| 0 <= i < |r| && r[i] == a;
    var j := if i + 1 < |r| then i + 1 else 0;
    assert Adjacent(c, r[i], r[j]) && Adjacent(c', r[i], r[j]);
  }

  lemma SamePredecessor(c: Cells, c': Cells, r: seq<Id>, a: Id)
    requires Ring(c, r) && Ring(c', r) && a in r
    ensures Prev(c', a) == Prev(c, a)
  {
    var j :| 0 <= j < |r| && r[j] == a;
    var i := if j > 0 then j - 1 else |r| - 1;
    assert Adjacent(c, r[i], r[j]) && Adjacent(c', r[i], r[j]);
  }

  lemma RingReal(c: Cells, r: seq<Id>)
    requires Ring(c, r)
    ensures Null !in r
  {
  }

  lemma {:induction false} SubsetSize(a: set<Id>, b: set<Id>)
    requires a <= b
    ensures |a| <= |b|
  {
    if a != {} {
      var x :| x in a;
      SubsetSize(a - {x}, b - {x});
    }
  }
}
