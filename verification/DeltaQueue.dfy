/**
  What a timeout queue means.

  The queues of src/avrtos/dstruct/tqueue.c and tdqueue.c store, with each item, the time
  between the expiry of its predecessor and its own (`seq<Entry>`).  The plain reading of
  such a queue is the list of the times that are left to each item (`seq<Due>`).  This
  module defines the operations on both and proves that the delta form implements the
  plain one.
*/
module DeltaQueue {
  import opened Links

  datatype Entry = Entry(id: Id, delay: nat)

  datatype Due = Due(id: Id, left: nat)

  // ----- the delta form -----

  /** Walks past every item that expires no later than the new one. */
  function Insert(q: seq<Entry>, id: Id, t: nat): seq<Entry> {
    if q == [] then [Entry(id, t)]
    else if q[0].delay <= t then [q[0]] + Insert(q[1..], id, t - q[0].delay)
    else [Entry(id, t), Entry(q[0].id, q[0].delay - t)] + q[1..]
  }

  /** Consumes t from the front of the queue. */
  function Shift(q: seq<Entry>, t: nat): seq<Entry> {
    if q == [] then []
    else if q[0].delay <= t then [Entry(q[0].id, 0)] + Shift(q[1..], t - q[0].delay)
    else [Entry(q[0].id, q[0].delay - t)] + q[1..]
  }

  /** The removed item's delay goes to its successor. */
  function Delete(q: seq<Entry>, id: Id): seq<Entry> {
    if q == [] then []
    else if q[0].id != id then [q[0]] + Delete(q[1..], id)
    else if |q| == 1 then []
    else [Entry(q[1].id, q[1].delay + q[0].delay)] + q[2..]
  }

  function Total(q: seq<Entry>): nat {
    if q == [] then 0 else q[0].delay + Total(q[1..])
  }

  // ----- the plain form -----

  /** Time left to every item of the queue, when `base` is left to the item before it. */
  function Dues(q: seq<Entry>, base: nat := 0): (l: seq<Due>)
    ensures |l| == |q|
    ensures forall i :: 0 <= i < |q| ==> l[i].id == q[i].id
  {
    if q == [] then []
    else [Due(q[0].id, base + q[0].delay)] + Dues(q[1..], base + q[0].delay)
  }

  /** Puts the item before the first one that has more time left. */
  function InsertDue(l: seq<Due>, id: Id, t: nat): seq<Due> {
    if l == [] then [Due(id, t)]
    else if l[0].left <= t then [l[0]] + InsertDue(l[1..], id, t)
    else [Due(id, t)] + l
  }

  function Minus(a: nat, b: nat): nat {
    if b <= a then a - b else 0
  }

  /** t has passed. */
  function Age(l: seq<Due>, t: nat): (r: seq<Due>)
    ensures |r| == |l|
  {
    seq(|l|, i requires 0 <= i < |l| => Due(l[i].id, Minus(l[i].left, t)))
  }

  function Forget(l: seq<Due>, id: Id): seq<Due> {
    if l == [] then []
    else if l[0].id == id then l[1..]
    else [l[0]] + Forget(l[1..], id)
  }

  ghost predicate Sorted(l: seq<Due>) {
    forall i, j :: 0 <= i < j < |l| ==> l[i].left <= l[j].left
  }

  /** The time left to each item, forgetting the order. */
  ghost function Times(l: seq<Due>): map<Id, nat> {
    if l == [] then map[] else Times(l[1..])[l[0].id := l[0].left]
  }

  /** No item occurs twice. */
  ghost predicate Unique(l: seq<Due>) {
    l == [] || (l[0].id !in Times(l[1..]) && Unique(l[1..]))
  }

  lemma Assoc(a: seq<Entry>, x: Entry, b: seq<Entry>)
    ensures a + ([x] + b) == (a + [x]) + b
  {
  }

  // ----- the delta form implements the plain form -----

  /** The plain form, one item at a time. */
  lemma DuesCons(q: seq<Entry>, base: nat)
    requires q != []
    ensures Dues(q, base) == [Due(q[0].id, base + q[0].delay)] + Dues(q[1..], base + q[0].delay)
    ensures Dues(q, base)[0] == Due(q[0].id, base + q[0].delay)
    ensures Dues(q, base)[1..] == Dues(q[1..], base + q[0].delay)
  {
  }

  lemma {:induction false} DuesSorted(q: seq<Entry>, base: nat)
    ensures Sorted(Dues(q, base))
    ensures forall i :: 0 <= i < |q| ==> base <= Dues(q, base)[i].left
    ensures q != [] ==> Dues(q, base)[|q| - 1].left == base + Total(q)
  {
    hide Dues;
    if q != [] {
      var l, r := Dues(q, base), Dues(q[1..], base + q[0].delay);
      DuesCons(q, base);
      DuesSorted(q[1..], base + q[0].delay);
      assert forall i :: 1 <= i < |l| ==> l[i] == r[i - 1];
    }
  }

  lemma {:induction false} InsertMeans(q: seq<Entry>, id: Id, t: nat, base: nat)
    ensures Dues(Insert(q, id, t), base) == InsertDue(Dues(q, base), id, base + t)
  {
    hide Dues;
    if q != [] {
      var l, r := Dues(q, base), Insert(q, id, t);
      DuesCons(q, base);
      DuesCons(r, base);
      if q[0].delay <= t {
        InsertMeans(q[1..], id, t - q[0].delay, base + q[0].delay);
        assert r[0] == q[0] && r[1..] == Insert(q[1..], id, t - q[0].delay);
        InsertDuePast(l, id, base + t);
      } else {
        assert r[1..] == [Entry(q[0].id, q[0].delay - t)] + q[1..];
        DuesCons(r[1..], base + t);
        assert r[1..][1..] == q[1..];
        assert Dues(r[1..], base + t) == l;
      }
    } else {
      var r := Insert(q, id, t);
      DuesCons(r, base);
      assert r[1..] == [];
    }
  }

  lemma AgeCons(l: seq<Due>, t: nat)
    requires l != []
    ensures Age(l, t) == [Due(l[0].id, Minus(l[0].left, t))] + Age(l[1..], t)
  {
  }

  lemma AgedTogether(q: seq<Entry>, base: nat, base': nat, t: nat)
    requires base == base' + t
    ensures Dues(q, base') == Age(Dues(q, base), t)
  {
    hide Dues;
    DuesRebased(q, base, base');
    var l, r := Dues(q, base'), Age(Dues(q, base), t);
    forall i | 0 <= i < |q| ensures l[i] == r[i] {
      assert Dues(q, base)[i].left - base == l[i].left - base' >= 0;
    }
  }

  lemma {:induction false} ShiftMeans(q: seq<Entry>, t: nat, base: nat)
    ensures Dues(Shift(q, t)) == Age(Dues(q, base), base + t)
  {
    hide Dues;
    if q != [] {
      var l, r := Dues(q, base), Shift(q, t);
      DuesCons(q, base);
      DuesCons(r, 0);
      AgeCons(l, base + t);
      if q[0].delay <= t {
        ShiftMeans(q[1..], t - q[0].delay, base + q[0].delay);
        assert r[1..] == Shift(q[1..], t - q[0].delay);
      } else {
        assert r[1..] == q[1..];
        AgedTogether(q[1..], base + q[0].delay, q[0].delay - t, base + t);
      }
    }
  }

  /** Moving the base moves every item alike. */
  lemma {:induction false} DuesRebased(q: seq<Entry>, base: nat, base': nat)
    ensures forall i :: 0 <= i < |q| ==>
              Dues(q, base)[i].left - base == Dues(q, base')[i].left - base' >= 0
  {
    hide Dues;
    if q != [] {
      DuesRebased(q[1..], base + q[0].delay, base' + q[0].delay);
      DuesCons(q, base);
      DuesCons(q, base');
      var l, l' := Dues(q, base), Dues(q, base');
      forall i | 0 <= i < |q| ensures l[i].left - base == l'[i].left - base' >= 0 {
        if i > 0 {
          assert l[i] == l[1..][i - 1] && l'[i] == l'[1..][i - 1];
        }
      }
    }
  }

  lemma {:induction false} DeleteMeans(q: seq<Entry>, id: Id, base: nat)
    ensures Dues(Delete(q, id), base) == Forget(Dues(q, base), id)
  {
    hide Dues;
    if q != [] {
      var l, r := Dues(q, base), Delete(q, id);
      DuesCons(q, base);
      if q[0].id != id {
        DeleteMeans(q[1..], id, base + q[0].delay);
        DuesCons(r, base);
        assert r[1..] == Delete(q[1..], id);
      } else if |q| > 1 {
        DuesCons(r, base);
        DuesCons(q[1..], base + q[0].delay);
        assert r[1..] == q[1..][1..];
      }
    }
  }

  // ----- the plain form is a map from items to times, in order of time -----

  lemma {:induction false} TimesMember(l: seq<Due>, id: Id)
    requires Unique(l)
    ensures id in Times(l) ==> Due(id, Times(l)[id]) in l
    ensures forall i :: 0 <= i < |l| && l[i].id == id ==> id in Times(l) && Times(l)[id] == l[i].left
  {
    if l != [] {
      TimesMember(l[1..], id);
      TimesMember(l[1..], l[0].id);
      forall i | 0 <= i < |l| && l[i].id == id ensures id in Times(l) && Times(l)[id] == l[i].left {
        if i > 0 {
          assert l[1..][i - 1] == l[i];
        }
      }
    }
  }

  /** Insertion is stable and sorted: it splits the list at the first later item. */
  lemma {:induction false} InsertDueSplits(l: seq<Due>, id: Id, t: nat) returns (k: nat)
    requires Sorted(l)
    ensures k <= |l|
    ensures InsertDue(l, id, t) == l[..k] + [Due(id, t)] + l[k..]
    ensures forall i :: 0 <= i < |l| ==> (i < k <==> l[i].left <= t)
    ensures Sorted(InsertDue(l, id, t))
  {
    if l == [] || l[0].left > t {
      k := 0;
    } else {
      var m := InsertDueSplits(l[1..], id, t);
      k := m + 1;
      InsertedBehind(l, id, t, m);
    }
    SortedWith(l, id, t, k);
  }

  lemma InsertedBehind(l: seq<Due>, id: Id, t: nat, m: nat)
    requires l != [] && l[0].left <= t && m <= |l| - 1
    requires InsertDue(l[1..], id, t) == l[1..][..m] + [Due(id, t)] + l[1..][m..]
    ensures InsertDue(l, id, t) == l[..m + 1] + [Due(id, t)] + l[m + 1..]
  {
    hide InsertDue;
    InsertDuePast(l, id, t);
    var a, b, d := l[1..][..m], l[1..][m..], [Due(id, t)];
    assert l[..m + 1] == [l[0]] + a;
    assert l[m + 1..] == b;
    assert [l[0]] + (a + d + b) == ([l[0]] + a) + d + b;
  }

  lemma InsertDuePast(l: seq<Due>, id: Id, t: nat)
    requires l != [] && l[0].left <= t
    ensures InsertDue(l, id, t) == [l[0]] + InsertDue(l[1..], id, t)
  {
  }

  lemma SortedWith(l: seq<Due>, id: Id, t: nat, k: nat)
    requires Sorted(l) && k <= |l| && forall i :: 0 <= i < |l| ==> (i < k <==> l[i].left <= t)
    ensures Sorted(l[..k] + [Due(id, t)] + l[k..])
  {
    var r := l[..k] + [Due(id, t)] + l[k..];
    forall i, j | 0 <= i < j < |r| ensures r[i].left <= r[j].left {
      assert i < k ==> r[i] == l[i];
      assert j > k ==> r[j] == l[j - 1];
      assert i > k ==> r[i] == l[i - 1];
      assert j < k ==> r[j] == l[j];
    }
  }

  lemma {:induction false} InsertDueMembers(l: seq<Due>, id: Id, t: nat)
    ensures forall d :: d in InsertDue(l, id, t) ==> d in l || d == Due(id, t)
  {
    if l != [] && l[0].left <= t {
      InsertDueMembers(l[1..], id, t);
    }
  }

  lemma {:induction false} InsertDueTimes(l: seq<Due>, id: Id, t: nat)
    requires Unique(l) && id !in Times(l)
    ensures Times(InsertDue(l, id, t)) == Times(l)[id := t]
    ensures Unique(InsertDue(l, id, t))
  {
    var r := InsertDue(l, id, t);
    if l != [] && l[0].left <= t {
      InsertDueTimes(l[1..], id, t);
      assert r[1..] == InsertDue(l[1..], id, t);
    } else {
      assert r[1..] == l;
    }
  }

  /** Removal takes one item out, or none. */
  lemma {:induction false} ForgetSplits(l: seq<Due>, id: Id) returns (k: nat)
    ensures k <= |l|
    ensures Forget(l, id) == if k < |l| then l[..k] + l[k + 1..] else l
    ensures k < |l| ==> l[k].id == id
  {
    if l == [] || l[0].id == id {
      k := 0;
    } else {
      var m := ForgetSplits(l[1..], id);
      k := m + 1;
      ForgetFront(l, m);
    }
  }

  lemma ForgetFront(l: seq<Due>, m: nat)
    requires l != []
    ensures [l[0]] + l[1..] == l
    ensures m < |l| - 1 ==> l[..m + 1] + l[m + 2..] == [l[0]] + (l[1..][..m] + l[1..][m + 1..])
  {
  }

  lemma {:induction false} ForgetTimes(l: seq<Due>, id: Id)
    requires Unique(l)
    ensures Times(Forget(l, id)) == Times(l) - {id}
    ensures Unique(Forget(l, id))
  {
    if l != [] {
      if l[0].id != id {
        ForgetTimes(l[1..], id);
        assert Forget(l, id)[1..] == Forget(l[1..], id);
      }
    }
  }

  lemma {:induction false} ForgetAbsent(l: seq<Due>, t: Id)
    requires t !in Times(l)
    ensures Forget(l, t) == l
  {
    if l != [] {
      ForgetAbsent(l[1..], t);
    }
  }

  lemma {:induction false} ForgetSorted(l: seq<Due>, id: Id)
    requires Sorted(l)
    ensures Sorted(Forget(l, id))
    ensures forall x :: x in Forget(l, id) ==> x in l
  {
    if l != [] && l[0].id != id {
      ForgetSorted(l[1..], id);
      var r, r' := Forget(l, id), Forget(l[1..], id);
      forall i, j | 0 <= i < j < |r| ensures r[i].left <= r[j].left {
        assert r[j] == r'[j - 1] && r'[j - 1] in l[1..];
        if i > 0 {
          assert r[i] == r'[i - 1];
        } else {
          var m :| 0 <= m < |l[1..]| && l[1..][m] == r[j];
          assert l[m + 1] == r[j];
        }
      }
    }
  }

  lemma {:induction false} AgeTimes(l: seq<Due>, t: nat)
    ensures Times(Age(l, t)).Keys == Times(l).Keys
    ensures forall id :: id in Times(l) ==> Times(Age(l, t))[id] == Minus(Times(l)[id], t)
    ensures Unique(Age(l, t)) <==> Unique(l)
  {
    if l != [] {
      AgeTimes(l[1..], t);
      assert Age(l, t)[1..] == Age(l[1..], t);
    }
  }

  // ----- the items of a queue -----

  ghost function Items(q: seq<Entry>): set<Id> {
    if q == [] then {} else {q[0].id} + Items(q[1..])
  }

  lemma {:induction false} ItemsAreDues(q: seq<Entry>, base: nat)
    ensures Times(Dues(q, base)).Keys == Items(q)
  {
    if q != [] {
      ItemsAreDues(q[1..], base + q[0].delay);
      assert Dues(q, base)[1..] == Dues(q[1..], base + q[0].delay);
    }
  }

  ghost predicate UniqueItems(q: seq<Entry>) {
    q == [] || (q[0].id !in Items(q[1..]) && UniqueItems(q[1..]))
  }

  lemma {:induction false} UniqueAreDues(q: seq<Entry>, base: nat)
    ensures Unique(Dues(q, base)) <==> UniqueItems(q)
  {
    if q != [] {
      UniqueAreDues(q[1..], base + q[0].delay);
      ItemsAreDues(q[1..], base + q[0].delay);
      assert Dues(q, base)[1..] == Dues(q[1..], base + q[0].delay);
    }
  }

  lemma {:induction false} InsertItems(q: seq<Entry>, id: Id, t: nat)
    ensures Items(Insert(q, id, t)) == Items(q) + {id}
    ensures UniqueItems(q) && id !in Items(q) ==> UniqueItems(Insert(q, id, t))
  {
    if q != [] {
      var r := Insert(q, id, t);
      if q[0].delay <= t {
        InsertItems(q[1..], id, t - q[0].delay);
        assert r[1..] == Insert(q[1..], id, t - q[0].delay);
      } else {
        assert r[1..][1..] == q[1..];
      }
    }
  }

  /** What scheduling does to a queue, read in the plain form. */
  lemma InsertPlace(q: seq<Entry>, id: Id, t: nat) returns (k: nat)
    requires Unique(Dues(q)) && id !in Items(q)
    ensures k <= |q| && Dues(Insert(q, id, t)) == Dues(q)[..k] + [Due(id, t)] + Dues(q)[k..]
    ensures forall i :: 0 <= i < |q| ==> Dues(q)[i].id != id && (i < k <==> Dues(q)[i].left <= t)
    ensures Unique(Dues(Insert(q, id, t)))
  {
    assert Sorted(Dues(q)) by { DuesSorted(q, 0); }
    assert id !in Times(Dues(q)) by { ItemsAreDues(q, 0); }
    assert Dues(Insert(q, id, t)) == InsertDue(Dues(q), id, t) by { InsertMeans(q, id, t, 0); }
    k := InsertDuePlace(Dues(q), id, t);
  }

  lemma InsertDuePlace(l: seq<Due>, id: Id, t: nat) returns (k: nat)
    requires Sorted(l) && Unique(l) && id !in Times(l)
    ensures k <= |l| && InsertDue(l, id, t) == l[..k] + [Due(id, t)] + l[k..]
    ensures forall i :: 0 <= i < |l| ==> l[i].id != id && (i < k <==> l[i].left <= t)
    ensures Unique(InsertDue(l, id, t))
  {
    k := InsertDueSplits(l, id, t);
    assert Unique(InsertDue(l, id, t)) by { InsertDueTimes(l, id, t); }
    forall i | 0 <= i < |l| ensures l[i].id != id { TimesMember(l, l[i].id); }
  }

  lemma {:induction false} ShiftItems(q: seq<Entry>, t: nat)
    ensures Items(Shift(q, t)) == Items(q)
    ensures UniqueItems(Shift(q, t)) <==> UniqueItems(q)
  {
    if q != [] {
      var r := Shift(q, t);
      if q[0].delay <= t {
        ShiftItems(q[1..], t - q[0].delay);
        assert r[1..] == Shift(q[1..], t - q[0].delay);
      } else {
        assert r[1..] == q[1..];
      }
    }
  }

  lemma {:induction false} DeleteItems(q: seq<Entry>, id: Id)
    requires UniqueItems(q)
    ensures Items(Delete(q, id)) == Items(q) - {id}
    ensures UniqueItems(Delete(q, id))
  {
    if q != [] {
      var r := Delete(q, id);
      if q[0].id != id {
        DeleteItems(q[1..], id);
        assert r[1..] == Delete(q[1..], id);
      } else if |q| > 1 {
        assert r[1..] == q[1..][1..];
      }
    }
  }

  lemma {:induction false} DeleteAbsent(q: seq<Entry>, id: Id)
    requires id !in Items(q)
    ensures Delete(q, id) == q
  {
    if q != [] {
      DeleteAbsent(q[1..], id);
    }
  }

  lemma {:induction false} ItemsConcat(a: seq<Entry>, b: seq<Entry>)
    ensures Items(a + b) == Items(a) + Items(b)
    ensures UniqueItems(a + b) <==> Items(a) !! Items(b) && UniqueItems(a) && UniqueItems(b)
  {
    if a == [] {
      assert a + b == b;
    } else {
      ItemsConcat(a[1..], b);
      assert (a + b)[1..] == a[1..] + b;
    }
  }

  // ----- the sum of the deltas stays within k_delta_t -----

  lemma {:induction false} InsertTotal(q: seq<Entry>, id: Id, t: nat, max: nat)
    requires Total(q) <= max && t <= max
    ensures Total(Insert(q, id, t)) <= max
  {
    if q != [] {
      var r := Insert(q, id, t);
      if q[0].delay <= t {
        InsertTotal(q[1..], id, t - q[0].delay, max - q[0].delay);
        assert r[1..] == Insert(q[1..], id, t - q[0].delay);
      } else {
        assert r[1..][1..] == q[1..];
      }
    }
  }

  lemma {:induction false} ShiftTotal(q: seq<Entry>, t: nat)
    ensures Total(Shift(q, t)) == Minus(Total(q), t)
  {
    if q != [] {
      var r := Shift(q, t);
      if q[0].delay <= t {
        ShiftTotal(q[1..], t - q[0].delay);
        assert r[1..] == Shift(q[1..], t - q[0].delay);
      } else {
        assert r[1..] == q[1..];
      }
    }
  }

  lemma {:induction false} DeleteTotal(q: seq<Entry>, id: Id)
    ensures Total(Delete(q, id)) <= Total(q)
  {
    if q != [] {
      var r := Delete(q, id);
      if q[0].id != id {
        DeleteTotal(q[1..], id);
        assert r[1..] == Delete(q[1..], id);
      } else if |q| > 1 {
        assert r[1..] == q[1..][1..];
      }
    }
  }

  lemma {:induction false} TotalConcat(a: seq<Entry>, b: seq<Entry>)
    ensures Total(a + b) == Total(a) + Total(b)
  {
    if a == [] {
      assert a + b == b;
    } else {
      TotalConcat(a[1..], b);
      assert (a + b)[1..] == a[1..] + b;
    }
  }

  // ----- the items that are due -----

  /** The number of items at the front with no time left. */
  ghost function Zeros(l: seq<Due>): nat {
    if l == [] || l[0].left != 0 then 0 else 1 + Zeros(l[1..])
  }

  /** An item with time left makes nothing due. */
  lemma {:induction false} ZerosInsert(l: seq<Due>, id: Id, t: nat)
    requires t >= 1
    ensures Zeros(InsertDue(l, id, t)) == Zeros(l)
  {
    if l != [] && l[0].left <= t {
      ZerosInsert(l[1..], id, t);
      assert InsertDue(l, id, t)[1..] == InsertDue(l[1..], id, t);
    }
  }

  lemma {:induction false} ForgetZeros(l: seq<Due>, id: Id)
    requires Sorted(l)
    ensures Zeros(Forget(l, id)) <= Zeros(l)
  {
    if l != [] {
      assert Sorted(l[1..]);
      if l[0].id != id {
        ForgetZeros(l[1..], id);
        assert Forget(l, id)[1..] == Forget(l[1..], id);
      } else if l[0].left != 0 && |l| > 1 {
        assert l[1..][0] == l[1];
      }
    }
  }

  lemma NoneDue(l: seq<Due>, id: Id)
    requires Unique(l) && Sorted(l) && id in Times(l) && l[0].left != 0
    ensures Times(l)[id] != 0
  {
    TimesMember(l, id);
    var i :| 0 <= i < |l| && l[i] == Due(id, Times(l)[id]);
  }

  /** The first item, and the rest of the list without it. */
  lemma FirstDue(l: seq<Due>)
    requires l != [] && Unique(l)
    ensures l[0].id in Times(l) && Times(l)[l[0].id] == l[0].left
    ensures l[0].id !in Times(l[1..]) && Times(l) == Times(l[1..])[l[0].id := l[0].left] && Unique(l[1..])
  {
  }
}
