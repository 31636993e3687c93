/** The singly linked queue of src/avrtos/dstruct/slist.c. */
module SList {
  import opened Links

  /** Following the pointers from the head meets the items in order; the tail is the last. */
  ghost predicate Linked(next: map<Id, Id>, head: Id, s: seq<Id>) {
    && Distinct(s) && Null !in s
    && head == (if s == [] then Null else s[0])
    && forall i :: 0 <= i < |s| ==> s[i] in next && next[s[i]] == Successor(s, i)
  }

  ghost function Successor(s: seq<Id>, i: nat): Id {
    if i + 1 < |s| then s[i + 1] else Null
  }

  lemma LinkedTail(next: map<Id, Id>, head: Id, s: seq<Id>)
    requires Linked(next, head, s) && s != []
    ensures head in next && Linked(next, next[head], s[1..])
  {
    assert next[s[0]] == Successor(s, 0);
  }

  class SList {
    var head: Id
    var tail: Id
    var next: map<Id, Id>
    ghost var items: seq<Id>

    ghost predicate Valid()
      reads this
    {
      Linked(next, head, items) && (items != [] ==> tail == items[|items| - 1])
    }

    /** slist_init. */
    constructor ()
      ensures Valid() && items == []
    {
      head, tail, next, items := Null, Null, map[], [];
    }

    /** slist_append: the node becomes the last item. */
    method Append(node: Id)
      requires Valid() && node != Null && node !in items
      modifies this
      ensures Valid() && items == old(items) + [node]
    {
      next := next[node := Null];
      if head == Null {
        head := node;
      } else {
        next := next[tail := node];
      }
      tail := node;
      items := items + [node];
    }

    /** slist_get: takes the first item; Null when there is none. */
    method Get() returns (node: Id)
      requires Valid()
      modifies this
      ensures Valid()
      ensures if old(items) == [] then node == Null && items == []
              else node == old(items)[0] && items == old(items)[1..]
    {
      node := head;
      if head != Null {
        LinkedTail(next, head, items);
        head := next[node];
        if head == Null {
          tail := Null;
        }
        items := items[1..];
      }
    }
  }
}
