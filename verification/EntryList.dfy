/**
 * The heap-allocated doubly linked list of src/qc_rt/qc_list.c. The ghost field spine lists the nodes in
 * order; the data of a node never changes after it was made.
 */
module EntryLists {
  import opened Common
  import opened StableSort

  class Entry<T> {
    var next: Entry?<T>
    var prev: Entry?<T>
    const data: T

    constructor (data: T, prev: Entry?<T>, next: Entry?<T>)
      ensures this.data == data && this.prev == prev && this.next == next
    {
      this.data, this.prev, this.next := data, prev, next;
    }
  }

  ghost function Node<T>(s: seq<Entry<T>>, i: int): (e: Entry?<T>) {
    if 0 <= i < |s| then s[i] else null
  }

  ghost predicate Apart<T>(s: seq<Entry<T>>, i: int, j: int)
    requires 0 <= i < |s| && 0 <= j < |s|
  {
    s[i] != s[j]
  }

  ghost predicate AllApart<T>(s: seq<Entry<T>>) {
    forall i, j {:trigger Apart(s, i, j)} | 0 <= i < |s| && 0 <= j < |s| && i != j :: Apart(s, i, j)
  }

  function Put<E>(s: seq<E>, j: nat, x: E): seq<E>
    requires j <= |s|
  {
    s[..j] + [x] + s[j..]
  }

  lemma CutApart<T>(s: seq<Entry<T>>, k: nat)
    requires AllApart(s) && k < |s|
    ensures AllApart(Cut(s, k)) && s[k] !in Cut(s, k)
    ensures Members(Cut(s, k)) == Members(s) - {s[k]}
  {
    var r := Cut(s, k);
    forall i, j | 0 <= i < |r| && 0 <= j < |r| && i != j ensures Apart(r, i, j) {
      assert Apart(s, if i < k then i else i + 1, if j < k then j else j + 1);
    }
    forall i | 0 <= i < |r| ensures r[i] != s[k] {
      assert Apart(s, if i < k then i else i + 1, k);
    }
    forall x | x in s && x != s[k] ensures x in r {
      var i :| 0 <= i < |s| && s[i] == x;
      assert r[if i < k then i else i - 1] == x;
    }
  }

  lemma PutApart<T>(s: seq<Entry<T>>, j: nat, x: Entry<T>)
    requires AllApart(s) && j <= |s| && x !in s
    ensures AllApart(Put(s, j, x)) && Members(Put(s, j, x)) == Members(s) + {x}
  {
    var r := Put(s, j, x);
    forall i, k | 0 <= i < |r| && 0 <= k < |r| && i != k ensures Apart(r, i, k) {
      if i != j && k != j {
        assert Apart(s, if i < j then i else i - 1, if k < j then k else k - 1);
      }
    }
    forall y | y in s ensures y in r {
      var i :| 0 <= i < |s| && s[i] == y;
      assert r[if i < j then i else i + 1] == y;
    }
  }

  /** next and prev of the node at position i name its neighbours in s. */
  ghost predicate LinkOk<T>(s: seq<Entry<T>>, i: int)
    requires 0 <= i < |s|
    reads s[i]
  {
    s[i].prev == Node(s, i - 1) && s[i].next == Node(s, i + 1)
  }

  ghost predicate Linked<T>(s: seq<Entry<T>>)
    reads s
  {
    forall i {:trigger LinkOk(s, i)} | 0 <= i < |s| :: LinkOk(s, i)
  }

  /** The data of the nodes, in order. */
  ghost function Data<T>(s: seq<Entry<T>>): (r: seq<T>)
    ensures |r| == |s| && forall i | 0 <= i < |s| :: r[i] == s[i].data
  {
    seq(|s|, i requires 0 <= i < |s| => s[i].data)
  }

  /** The order the comparison callback puts on nodes. */
  function Before<T>(compare: (T, T) -> int): (Entry<T>, Entry<T>) -> bool {
    (x: Entry<T>, y: Entry<T>) => compare(x.data, y.data) < 0
  }

  /** A comparison callback that is a total preorder on the data, by the sign of what it returns. */
  ghost predicate Preorder<T>(compare: (T, T) -> int, d: seq<T>) {
    && (forall x, y | x in d && y in d :: compare(x, y) < 0 <==> compare(y, x) > 0)
    && (forall x, y, z | x in d && y in d && z in d :: compare(x, y) <= 0 && compare(y, z) <= 0 ==> compare(x, z) <= 0)
  }

  /** Nodes whose data compare equal stand in r in the order they have in s. */
  ghost predicate KeepsEquals<T>(compare: (T, T) -> int, s: seq<Entry<T>>, r: seq<Entry<T>>) {
    forall a, b, p, q | 0 <= a < b < |s| && 0 <= p < |r| && 0 <= q < |r| && r[p] == s[a] && r[q] == s[b] ::
      compare(s[a].data, s[b].data) == 0 ==> p < q
  }

  lemma SignOrders<T>(compare: (T, T) -> int, s: seq<Entry<T>>)
    requires Preorder(compare, Data(s))
    ensures Orders(Before(compare), Members(s))
  {
    forall x | x in s ensures x.data in Data(s) {
      var i :| 0 <= i < |s| && s[i] == x;
      assert Data(s)[i] == x.data;
    }
  }

  /** What the insertion sort gives, told from the data. */
  lemma SortsData<T>(compare: (T, T) -> int, s: seq<Entry<T>>)
    requires Preorder(compare, Data(s))
    ensures var r := InsertionSort(Before(compare), s);
      multiset(r) == multiset(s) && forall i, j | 0 <= i < j < |r| :: compare(r[i].data, r[j].data) <= 0
  {
    var less, r := Before(compare), InsertionSort(Before(compare), s);
    SignOrders(compare, s);
    SortIsStable(less, s);
    forall i, j | 0 <= i < j < |r| ensures compare(r[i].data, r[j].data) <= 0 {
      assert !less(r[j], r[i]);
      InData(s, r[i]);
      InData(s, r[j]);
    }
  }

  lemma InData<T>(s: seq<Entry<T>>, x: Entry<T>)
    requires x in multiset(s)
    ensures x in s && x.data in Data(s)
  {
    assert x in s;
    var i :| 0 <= i < |s| && s[i] == x;
    assert Data(s)[i] == x.data;
  }

  lemma SortKeepsEquals<T>(compare: (T, T) -> int, s: seq<Entry<T>>)
    requires AllApart(s) && Preorder(compare, Data(s))
    ensures KeepsEquals(compare, s, InsertionSort(Before(compare), s))
  {
    var less, r := Before(compare), InsertionSort(Before(compare), s);
    SignOrders(compare, s);
    SortIsStable(less, s);
    ApartDistinct(s);
    forall a, b, p, q | 0 <= a < b < |s| && 0 <= p < |r| && 0 <= q < |r| && r[p] == s[a] && r[q] == s[b]
      ensures compare(s[a].data, s[b].data) == 0 ==> p < q
    {
      if compare(s[a].data, s[b].data) == 0 {
        SameBySign(compare, s, a, a);
        SameBySign(compare, s, a, b);
        ClassOrder(less, s, r, a, b, p, q);
      }
    }
  }

  lemma SameBySign<T>(compare: (T, T) -> int, s: seq<Entry<T>>, a: nat, b: nat)
    requires Preorder(compare, Data(s)) && a < |s| && b < |s| && (a == b || compare(s[a].data, s[b].data) == 0)
    ensures s[a] in s && Same(Before(compare), s[a], s[b])
  {
    InData(s, s[a]);
    InData(s, s[b]);
  }

  lemma ApartDistinct<T>(s: seq<Entry<T>>)
    requires AllApart(s)
    ensures Distinct(s)
  {
    forall i, j | 0 <= i < j < |s| ensures s[i] != s[j] {
      assert Apart(s, i, j);
    }
  }

  /** s with the node at position k moved down to position j. */
  ghost function Moved<T>(s: seq<Entry<T>>, k: nat, j: nat): seq<Entry<T>>
    requires j <= k < |s|
  {
    Put(Cut(s, k), j, s[k])
  }

  /** Which node is last after a move, and that it is the same nodes. */
  lemma MovedNodes<T>(s: seq<Entry<T>>, k: nat, j: nat)
    requires AllApart(s) && j < k < |s|
    ensures var r := Moved(s, k, j);
      && |r| == |s| && AllApart(r) && Members(r) == Members(s)
      && Node(r, |r| - 1) == if s[k] == Node(s, |s| - 1) then s[k - 1] else Node(s, |s| - 1)
  {
    CutApart(s, k);
    PutApart(Cut(s, k), j, s[k]);
    assert k != |s| - 1 ==> Apart(s, k, |s| - 1);
  }

  /** now holds the nodes of s, the first k of them sorted and the others where they were. */
  ghost predicate SortedUpTo<T>(less: (Entry<T>, Entry<T>) -> bool, s: seq<Entry<T>>, now: seq<Entry<T>>, k: nat) {
    && |now| == |s| && k <= |s| && Members(now) == Members(s)
    && now[..k] == InsertionSort(less, s[..k]) && now[k..] == s[k..]
  }

  lemma MovedSameNodes<T>(s: seq<Entry<T>>, k: nat, j: nat)
    requires j <= k < |s|
    ensures Members(Moved(s, k, j)) == Members(s)
  {
    var r := Moved(s, k, j);
    forall x | x in s ensures x in r {
      var i :| 0 <= i < |s| && s[i] == x;
      assert r[if i < j || i > k then i else if i == k then j else i + 1] == x;
    }
  }

  lemma MovedParts<T>(s: seq<Entry<T>>, k: nat, j: nat)
    requires j <= k < |s|
    ensures Moved(s, k, j) == s[..j] + [s[k]] + s[j..k] + s[k + 1..]
  {
    var c := Cut(s, k);
    assert c[..j] == s[..j];
    assert c[j..] == s[j..k] + s[k + 1..];
  }

  /** Moving node k to where the scan stopped sorts one node more. */
  lemma OneMore<T>(less: (Entry<T>, Entry<T>) -> bool, s: seq<Entry<T>>, was: seq<Entry<T>>, k: nat, j: nat)
    requires SortedUpTo(less, s, was, k) && j <= k < |s|
    requires forall i | 0 <= i < j :: !less(was[k], was[i])
    requires j < k ==> less(was[k], was[j])
    ensures SortedUpTo(less, s, Moved(was, k, j), k + 1)
    ensures 0 < k ==> Moved(was, k, j)[if j < k then k else k - 1] == was[k - 1]
  {
    InsertStopsAt(less, was[..k], was[k], j);
    assert s[..k + 1][..k] == s[..k] && s[k] == was[k];
    MovedParts(was, k, j);
    MovedSameNodes(was, k, j);
  }

  lemma AllSorted<T>(less: (Entry<T>, Entry<T>) -> bool, s: seq<Entry<T>>, now: seq<Entry<T>>)
    requires SortedUpTo(less, s, now, |s|)
    ensures now == InsertionSort(less, s)
  {
    assert s[..|s|] == s && now[..|s|] == now;
  }

  class EntryList<T> {
    var head: Entry?<T>
    var tail: Entry?<T>
    var cur: Entry?<T>
    var count: int
    ghost var spine: seq<Entry<T>>

    ghost predicate Valid()
      reads this, spine
    {
      && AllApart(spine) && Linked(spine)
      && head == Node(spine, 0) && tail == Node(spine, |spine| - 1) && count == |spine|
      && (cur != null ==> cur in Members(spine))
    }

    constructor ()
      ensures Valid() && spine == [] && cur == null
    {
      head, tail, cur, count, spine := null, null, null, 0, [];
    }

    method Count() returns (n: int)
      requires Valid()
      ensures n == |spine|
    {
      return count;
    }

    method InsertHead(data: T) returns (ret: int)
      requires Valid()
      modifies this, spine
      ensures Valid() && ret == 0 && cur == old(cur)
      ensures spine != [] && fresh(spine[0]) && spine == [spine[0]] + old(spine) && spine[0].data == data
    {
      ghost var s := spine;
      var entry := new Entry(data, null, head);
      if head != null {
        head.prev := entry;
      }
      if tail == null {
        tail := entry;
      }
      head, count := entry, count + 1;
      spine := [entry] + s;
      PutApart(s, 0, entry);
      assert spine == Put(s, 0, entry);
      forall i | 0 <= i < |spine| ensures LinkOk(spine, i) {
        if i > 0 {
          assert old(LinkOk(s, i - 1));
          assert i > 1 ==> Apart(s, i - 1, 0);
        }
      }
      return 0;
    }

    /** Also hands out the node, as the variant with an out-parameter does. */
    method InsertTail(data: T) returns (ret: int, entry: Entry<T>)
      requires Valid()
      modifies this, spine
      ensures Valid() && ret == 0 && fresh(entry) && cur == old(cur)
      ensures spine == old(spine) + [entry] && entry.data == data
    {
      ghost var s := spine;
      entry := new Entry(data, tail, null);
      if tail == null {
        head := entry;
      } else {
        tail.next := entry;
      }
      tail, count := entry, count + 1;
      spine := s + [entry];
      PutApart(s, |s|, entry);
      assert spine == Put(s, |s|, entry);
      forall i | 0 <= i < |spine| ensures LinkOk(spine, i) {
        if i < |s| {
          assert old(LinkOk(s, i));
          assert i + 1 < |s| ==> Apart(s, i, |s| - 1);
        }
      }
      ret := 0;
    }

    /** The enumeration cursor steps off a node that is taken out at the front. */
    method PopHead() returns (data: Option<T>)
      requires Valid()
      modifies this, spine
      ensures Valid()
      ensures if old(spine) == [] then data == None && spine == []
              else data == Some(old(spine)[0].data) && spine == old(spine)[1..]
      ensures cur == if old(spine) != [] && old(cur) == old(spine)[0] then Node(spine, 0) else old(cur)
    {
      if head == null {
        return None;
      }
      ghost var s := spine;
      assert LinkOk(s, 0);
      var entry := head;
      if cur == head {
        cur := head.next;
      }
      head := head.next;
      if head != null {
        head.prev := null;
      }
      count := count - 1;
      if count == 0 {
        tail := null;
      }
      data := Some(entry.data);
      spine := s[1..];
      CutApart(s, 0);
      assert spine == Cut(s, 0);
      forall i | 0 <= i < |spine| ensures LinkOk(spine, i) {
        assert old(LinkOk(s, i + 1));
        assert i > 0 ==> Apart(s, i + 1, 1);
      }
    }

    method PopTail() returns (data: Option<T>)
      requires Valid()
      modifies this, spine
      ensures Valid()
      ensures if old(spine) == [] then data == None && spine == []
              else data == Some(old(spine)[|old(spine)| - 1].data) && spine == old(spine)[..|old(spine)| - 1]
      ensures cur == if old(spine) != [] && old(cur) == old(spine)[|old(spine)| - 1] then null else old(cur)
    {
      if head == null {
        return None;
      }
      ghost var s := spine;
      assert LinkOk(s, |s| - 1);
      var entry := tail;
      if cur == tail {
        cur := null;
      }
      if tail == head {
        head := null;
      } else {
        tail.prev.next := null;
      }
      tail, count := tail.prev, count - 1;
      data := Some(entry.data);
      spine := s[..|s| - 1];
      CutApart(s, |s| - 1);
      assert spine == Cut(s, |s| - 1);
      forall i | 0 <= i < |spine| ensures LinkOk(spine, i) {
        assert old(LinkOk(s, i));
        assert i + 2 < |s| ==> Apart(s, i, |s| - 2);
      }
    }

    method EnumBegin()
      requires Valid()
      modifies this`cur
      ensures Valid() && cur == Node(spine, 0)
    {
      cur := head;
    }

    method EnumEntry(ghost k: int) returns (entry: Entry?<T>)
      requires Valid() && cur == Node(spine, k)
      modifies this`cur
      ensures Valid() && entry == old(cur) && cur == if entry == null then null else Node(spine, k + 1)
    {
      entry := cur;
      if entry != null {
        assert LinkOk(spine, k);
        cur := entry.next;
      }
    }

    /** The relinking of RemoveEntry. */
    method Unlink(entry: Entry<T>, ghost k: nat)
      requires AllApart(spine) && Linked(spine) && k < |spine| && spine[k] == entry
      requires head == Node(spine, 0) && tail == Node(spine, |spine| - 1)
      modifies this`head, this`tail, this`spine, Members(spine)
      ensures AllApart(spine) && Linked(spine) && spine == Cut(old(spine), k)
      ensures head == Node(spine, 0) && tail == Node(spine, |spine| - 1) && entry.next == Node(spine, k)
    {
      ghost var s := spine;
      assert LinkOk(s, k);
      assert k > 0 ==> Apart(s, k - 1, k);
      assert 0 < k < |s| - 1 ==> Apart(s, k - 1, k + 1);
      if entry.prev != null {
        entry.prev.next := entry.next;
      } else {
        if entry.next != null {
          entry.next.prev := null;
        }
        head := entry.next;
      }
      if entry.next != null {
        entry.next.prev := entry.prev;
      } else {
        if entry.prev != null {
          entry.prev.next := null;
        }
        tail := entry.prev;
      }
      spine := Cut(s, k);
      CutApart(s, k);
      forall i | 0 <= i < |spine| ensures LinkOk(spine, i) {
        var o := if i < k then i else i + 1;
        assert old(LinkOk(s, o));
        assert 0 < k != o + 1 ==> Apart(s, o, k - 1);
        assert k + 1 < |s| && o != k + 1 ==> Apart(s, o, k + 1);
      }
    }

    /** Takes a node out wherever it is; an enumeration standing on it moves on to its successor. */
    method RemoveEntry(entry: Entry<T>, ghost k: nat)
      requires Valid() && k < |spine| && spine[k] == entry
      modifies this, Members(spine)
      ensures Valid() && spine == Cut(old(spine), k)
      ensures cur == if old(cur) == entry then Node(spine, k) else old(cur)
    {
      CutApart(spine, k);
      Unlink(entry, k);
      if cur == entry {
        cur := entry.next;
      }
      count := count - 1;
    }

    /** First half of a move inside the sort: the node behind position k leaves the chain. */
    method Detach(entry: Entry<T>, ghost k: nat) returns (moving: Entry<T>)
      requires AllApart(spine) && Linked(spine) && k + 1 < |spine| && entry == spine[k]
      modifies this`spine, Members(spine)
      ensures moving == old(spine)[k + 1] && spine == Cut(old(spine), k + 1)
      ensures AllApart(spine) && Linked(spine) && moving !in spine
    {
      ghost var s := spine;
      assert LinkOk(s, k) && LinkOk(s, k + 1);
      moving := entry.next;
      entry.next := moving.next;
      if entry.next != null {
        entry.next.prev := entry;
      }
      spine := Cut(s, k + 1);
      CutApart(s, k + 1);
      forall i | 0 <= i < |spine| ensures LinkOk(spine, i) {
        var o := if i <= k then i else i + 1;
        assert old(LinkOk(s, o));
        assert o != k ==> Apart(s, o, k);
        assert k + 2 < |s| && o != k + 2 ==> Apart(s, o, k + 2);
      }
    }

    /** Second half: the node goes in front of the one at position j. */
    method Attach(moving: Entry<T>, previous: Entry?<T>, temp: Entry<T>, ghost j: nat)
      requires AllApart(spine) && Linked(spine) && moving !in spine && head == Node(spine, 0)
      requires j < |spine| && temp == spine[j] && previous == Node(spine, j - 1)
      modifies this`head, this`spine, Members(spine), moving
      ensures spine == Put(old(spine), j, moving) && head == Node(spine, 0)
      ensures AllApart(spine) && Linked(spine)
    {
      ghost var s := spine;
      if previous != null {
        previous.next := moving;
        moving.prev := previous;
        moving.next := temp;
        temp.prev := moving;
      } else {
        moving.next := temp;
        moving.prev := null;
        head.prev := moving;
        head := moving;
      }
      spine := Put(s, j, moving);
      PutApart(s, j, moving);
      forall i | 0 <= i < |spine| && i != j ensures LinkOk(spine, i) {
        var o := if i < j then i else i - 1;
        assert old(LinkOk(s, o));
        assert o != j ==> Apart(s, o, j);
        assert 0 < j != o + 1 ==> Apart(s, o, j - 1);
      }
      assert LinkOk(spine, j);
    }

    /** One move of the sort, but for the tail: the node behind entry goes in front of temp. */
    method Move(entry: Entry<T>, previous: Entry?<T>, temp: Entry<T>, ghost k: nat, ghost j: nat)
      returns (moving: Entry<T>)
      requires AllApart(spine) && Linked(spine) && head == Node(spine, 0) && j <= k && k + 1 < |spine|
      requires entry == spine[k] && temp == spine[j] && previous == Node(spine, j - 1)
      modifies this`head, this`spine, Members(spine)
      ensures AllApart(spine) && Linked(spine) && head == Node(spine, 0)
      ensures moving == old(spine)[k + 1] && spine == Moved(old(spine), k + 1, j)
    {
      moving := Detach(entry, k);
      Attach(moving, previous, temp, j);
    }

    method MoveDown(entry: Entry<T>, previous: Entry?<T>, temp: Entry<T>, ghost k: nat, ghost j: nat)
      requires Valid() && j <= k && k + 1 < |spine|
      requires entry == spine[k] && temp == spine[j] && previous == Node(spine, j - 1)
      modifies this`head, this`tail, this`spine, Members(spine)
      ensures Valid() && spine == Moved(old(spine), k + 1, j)
    {
      MovedNodes(spine, k + 1, j);
      var moving := Move(entry, previous, temp, k, j);
      if moving == tail {
        tail := entry;
      }
    }

    /** One round of the sort: the node behind entry sinks in front of the first node it is less than. */
    method Sink(entry: Entry<T>, compare: (T, T) -> int, ghost k: nat) returns (stays: bool, ghost j: nat)
      requires Valid() && k + 1 < |spine| && entry == spine[k]
      modifies this`head, this`tail, this`spine, Members(spine)
      ensures Valid() && j <= k + 1 && stays == (j == k + 1)
      ensures forall i | 0 <= i < j :: !Before(compare)(old(spine)[k + 1], old(spine)[i])
      ensures j <= k ==> Before(compare)(old(spine)[k + 1], old(spine)[j])
      ensures spine == Moved(old(spine), k + 1, j)
    {
      ghost var s := spine;
      assert LinkOk(s, k);
      j := 0;
      var temp, previous: Entry?<T> := head, null;
      while temp != entry.next
        invariant Valid() && spine == s && j <= k + 1 && entry.next == s[k + 1]
        invariant temp == s[j] && previous == Node(s, j - 1)
        invariant forall i | 0 <= i < j :: !Before(compare)(s[k + 1], s[i])
        decreases k + 1 - j
      {
        assert LinkOk(s, j);
        if compare(entry.next.data, temp.data) < 0 {
          MoveDown(entry, previous, temp, k, j);
          return false, j;
        }
        previous, temp, j := temp, temp.next, j + 1;
      }
      assert j != k + 1 ==> Apart(s, j, k + 1);
      return true, j;
    }

    /** One turn of the outer loop: one node more is sorted, and next is the last of the sorted ones. */
    method Turn(entry: Entry<T>, compare: (T, T) -> int, ghost s: seq<Entry<T>>, ghost k: nat) returns (next: Entry<T>)
      requires Valid() && SortedUpTo(Before(compare), s, spine, k + 1) && k + 1 < |s| && spine[k] == entry
      modifies this`head, this`tail, this`spine, Members(spine)
      ensures Valid() && SortedUpTo(Before(compare), s, spine, k + 2) && spine[k + 1] == next
    {
      ghost var was := spine;
      var stays;
      ghost var j;
      stays, j := Sink(entry, compare, k);
      OneMore(Before(compare), s, was, k + 1, j);
      if stays {
        assert LinkOk(spine, k);
        return entry.next;
      }
      return entry;
    }

    /** Relinks the nodes in place into the order a stable insertion sort gives them. */
    method InsertSort(compare: (T, T) -> int) returns (ret: int)
      requires Valid()
      modifies this`head, this`tail, this`spine, Members(spine)
      ensures Valid() && ret == if spine == [] then 0 else 1
      ensures spine == InsertionSort(Before(compare), old(spine))
      ensures Preorder(compare, Data(old(spine))) ==>
                && multiset(spine) == multiset(old(spine)) && KeepsEquals(compare, old(spine), spine)
                && forall i, j | 0 <= i < j < |spine| :: compare(spine[i].data, spine[j].data) <= 0
    {
      ghost var s, k := spine, 0;
      var entry := head;
      if entry == null {
        return 0;
      }
      assert LinkOk(spine, 0);
      while entry.next != null
        invariant Valid() && k < |s| && SortedUpTo(Before(compare), s, spine, k + 1) && spine[k] == entry
        decreases |s| - k
      {
        assert LinkOk(spine, k);
        entry := Turn(entry, compare, s, k);
        k := k + 1;
      }
      assert LinkOk(spine, k);
      AllSorted(Before(compare), s, spine);
      if Preorder(compare, Data(s)) {
        SortsData(compare, s);
        SortKeepsEquals(compare, s);
      }
      return 1;
    }
  }
}
