/** The slab allocator of src/avrtos/alloc/slab.c: a free list threaded through the blocks. */
module Slab {
  import opened Links
  import opened SList
  import opened Errno

  /** The blocks of a slab, and the order the initialisation links them in: last first. */
  ghost function Blocks(count: nat): set<Id> {
    set i | 0 <= i < count :: Item(i)
  }

  ghost function Descending(count: nat): seq<Id> {
    if count == 0 then [] else [Item(count - 1)] + Descending(count - 1)
  }

  lemma {:induction false} DescendingBlocks(count: nat)
    ensures Distinct(Descending(count)) && Null !in Descending(count)
    ensures forall x :: x in Descending(count) <==> x.Item? && x.n < count
    ensures |Descending(count)| == count
  {
    if count > 0 {
      DescendingBlocks(count - 1);
      var s := Descending(count - 1);
      assert Item(count - 1) !in s && Descending(count) == [Item(count - 1)] + s;
    }
  }

  lemma AllBlocks(count: nat)
    ensures Elems(Descending(count)) == Blocks(count)
  {
    hide Descending;
    DescendingBlocks(count);
  }

  lemma {:induction false} DistinctSize(s: seq<Id>)
    requires Distinct(s)
    ensures |Elems(s)| == |s|
  {
    if s != [] {
      DistinctSize(s[1..]);
      assert Elems(s) == {s[0]} + Elems(s[1..]);
    }
  }

  /** There are never more free blocks than blocks. */
  lemma FreeFits(free: seq<Id>, count: nat)
    requires Distinct(free) && Elems(free) <= Blocks(count)
    ensures |free| <= count
  {
    DistinctSize(free);
    DescendingBlocks(count);
    AllBlocks(count);
    DistinctSize(Descending(count));
    SubsetSize(Elems(free), Blocks(count));
  }

  /** A block in front of a list that does not hold it. */
  lemma LinkedPush(next: map<Id, Id>, head: Id, s: seq<Id>, b: Id)
    requires Linked(next, head, s) && b != Null && b !in s
    ensures Linked(next[b := head], b, [b] + s)
  {
    var r := [b] + s;
    forall i | 0 <= i < |r| ensures r[i] in next[b := head] && next[b := head][r[i]] == Successor(r, i) {
      if i > 0 {
        assert r[i] == s[i - 1] && next[s[i - 1]] == Successor(s, i - 1);
      }
    }
  }

  class Slab {
    const count: nat
    var freeList: Id
    var next: map<Id, Id>
    ghost var free: seq<Id>

    ghost predicate Valid()
      reads this
    {
      Linked(next, freeList, free) && Elems(free) <= Blocks(count) && count < 256
    }

    /** slab_init. */
    constructor (count: nat)
      requires count < 256
      ensures Valid() && this.count == count && Elems(free) == Blocks(count) && |free| == count
    {
      this.count, next, freeList, free := count, map[], Null, [];
      new;
      FinalizeInit();
    }

    /** z_slab_alloc_finalize_init, also slab_reset: every block is free. */
    method FinalizeInit()
      requires count < 256
      modifies this
      ensures Valid() && Elems(free) == Blocks(count) && |free| == count && Distinct(free)
    {
      freeList, free := Null, [];
      for i := 0 to count
        invariant free == Descending(i) && Linked(next, freeList, free)
      {
        DescendingBlocks(i);
        LinkedPush(next, freeList, free, Item(i));
        next := next[Item(i) := freeList];
        freeList := Item(i);
        free := [Item(i)] + free;
      }
      DescendingBlocks(count);
      AllBlocks(count);
    }

    /** slab_alloc: the first free block; Null when there is none. */
    method Alloc() returns (mem: Id)
      requires Valid()
      modifies this
      ensures Valid()
      ensures if old(free) == [] then mem == Null && free == []
              else mem == old(free)[0] && mem != Null && free == old(free)[1..]
    {
      if freeList == Null {
        mem := Null;
      } else {
        LinkedTail(next, freeList, free);
        mem := freeList;
        freeList := next[freeList];
        assert Elems(free[1..]) <= Elems(free);
        free := free[1..];
      }
    }

    /** slab_free. */
    method Free(ptr: Id)
      requires Valid() && ptr in Blocks(count) && ptr !in free
      modifies this
      ensures Valid() && free == [ptr] + old(free)
    {
      LinkedPush(next, freeList, free, ptr);
      next := next[ptr := freeList];
      freeList := ptr;
      free := [ptr] + free;
    }

    /** slab_available. */
    method Available() returns (ret: int)
      requires Valid()
      ensures ret == if free == [] then ENOMEM else 0
    {
      ret := if freeList != Null then 0 else ENOMEM;
    }

    /** The free count of slab_stats: the list is counted from the second block on, as the
        first block read as a list header, and one is added. */
    method FreeCount() returns (n: nat)
      requires Valid()
      ensures n == |free| <= count
    {
      FreeFits(free, count);
      n := 0;
      if freeList != Null {
        var node := next[freeList];
        ghost var k := 1;
        while node != Null
          invariant 1 <= k <= |free| && node == (if k < |free| then free[k] else Null) && n == k - 1
          decreases |free| - k
        {
          n := (n + 1) % 256;
          node := next[node];
          k := k + 1;
        }
        n := (n + 1) % 256;
      }
    }
  }
}
