/** The non-blocking slot queue of src/qc_rt/qc_utils.c: a bounded FIFO over two array-linked lists. */
module SlotQueues {
  import opened Common
  import opened StaticLists

  const FULLED := -100

  /** A list holding every slot, in order. */
  method FullList(limit: int) returns (l: StaticList)
    requires limit > 0
    ensures fresh(l) && fresh(l.cells) && l.Valid() && l.limit == limit
    ensures l.Contents == seq(limit, i => i) && forall i | 0 <= i < limit :: i in l.Contents
  {
    l := new StaticList();
    var _ := l.Init(limit);
    forall i | 0 <= i < limit ensures i in l.Contents {
      assert l.Contents[i] == i;
    }
  }

  /** A list over limit cells that holds none of them. */
  method EmptyList(limit: int) returns (l: StaticList)
    requires limit > 0
    ensures fresh(l) && fresh(l.cells) && l.Valid() && l.limit == limit && l.Contents == []
  {
    l := new StaticList();
    var _ := l.Init(limit);
    l.Clear();
  }

  /** Every slot is in exactly one of the two lists. */
  ghost predicate Shared(a: seq<int>, b: seq<int>, limit: int) {
    && |a| + |b| == limit
    && forall i | 0 <= i < limit :: i in a <==> i !in b
  }

  /** The first slot of one list goes to the end of the other. */
  lemma HeadMoves(a: seq<int>, b: seq<int>, limit: int)
    requires Distinct(a) && a != [] && Shared(a, b, limit)
    ensures Shared(a[1..], b + [a[0]], limit)
  {
    assert a == [a[0]] + a[1..];
    assert forall i | 1 <= i < |a| :: a[i] != a[0];
  }

  class NBlockQue<T(0)> {
    const limit: int
    const lstFree: StaticList
    const lstUsed: StaticList
    const buff: array<T>

    ghost function Repr(): set<object>
      reads this, lstFree, lstUsed
    {
      {this, lstFree, lstFree.cells, lstUsed, lstUsed.cells, buff}
    }

    ghost predicate Valid()
      reads this, lstFree, lstFree.cells, lstUsed, lstUsed.cells, buff
    {
      && lstFree != lstUsed && lstFree.cells != lstUsed.cells
      && (buff as object != lstFree.cells) && (buff as object != lstUsed.cells)
      && lstFree.Valid() && lstUsed.Valid() && limit == lstFree.limit == lstUsed.limit == buff.Length
      && Shared(lstFree.Contents, lstUsed.Contents, limit)
    }

    /** The queued values, oldest first. */
    ghost function Contents(): (s: seq<T>)
      reads this, lstFree, lstFree.cells, lstUsed, lstUsed.cells, buff
      requires Valid()
      ensures |s| == |lstUsed.Contents|
    {
      var used := lstUsed.Contents;
      seq(|used|, i requires 0 <= i < |used| && 0 <= used[i] < buff.Length reads buff => buff[used[i]])
    }

    constructor (limit: int)
      requires limit > 0
      ensures Valid() && fresh(Repr()) && Contents() == [] && this.limit == limit
    {
      var used := EmptyList(limit);
      var free := FullList(limit);
      this.limit, lstUsed, lstFree := limit, used, free;
      buff := new T[limit];
    }

    /** Appends, or reports a full queue and changes nothing. */
    method Put(x: T) returns (ret: int)
      requires Valid()
      modifies lstFree, lstFree.cells, lstUsed, lstUsed.cells, buff
      ensures Valid()
      ensures ret == FULLED <==> |old(Contents())| == limit
      ensures ret != FULLED ==>
                && 0 <= ret < limit && old(lstFree.Contents) == [ret] + lstFree.Contents
                && lstUsed.Contents == old(lstUsed.Contents) + [ret]
      ensures Contents() == if ret == FULLED then old(Contents()) else old(Contents()) + [x]
    {
      ghost var used, free := lstUsed.Contents, lstFree.Contents;
      var index := lstFree.GetHead();
      if index == INVALID {
        return FULLED;
      }
      HeadMoves(free, used, limit);
      buff[index] := x;
      ret := lstUsed.AddTail(index);
    }

    /** Takes the oldest value, or reports an empty queue and changes nothing. */
    method Get() returns (ret: int, x: T)
      requires Valid()
      modifies lstFree, lstFree.cells, lstUsed, lstUsed.cells
      ensures Valid()
      ensures ret == INVALID <==> old(Contents()) == []
      ensures ret != INVALID ==>
                && 0 <= ret < limit && old(lstUsed.Contents) == [ret] + lstUsed.Contents
                && lstFree.Contents == old(lstFree.Contents) + [ret]
      ensures if ret == INVALID then Contents() == old(Contents()) else old(Contents()) == [x] + Contents()
    {
      var n := lstUsed.Count();
      if n == 0 {
        return INVALID, *;
      }
      HeadMoves(lstUsed.Contents, lstFree.Contents, limit);
      var index := lstUsed.GetHead();
      x := buff[index];
      ret := lstFree.AddTail(index);
    }
  }

  /** The number pool: hands out the numbers 0 .. limit - 1. */
  class NumPool {
    const freeList: StaticList

    ghost predicate Valid()
      reads this, freeList, freeList.cells
    {
      freeList.Valid()
    }

    constructor (count: int)
      requires count > 0
      ensures Valid() && fresh(freeList) && fresh(freeList.cells) && freeList.limit == count
      ensures freeList.Contents == seq(count, i => i) && forall i | 0 <= i < count :: i in freeList.Contents
    {
      var free := FullList(count);
      freeList := free;
    }

    /** A number that is not handed out, or the invalid number when none is left. */
    method Get() returns (idx: int)
      requires Valid()
      modifies freeList, freeList.cells
      ensures Valid() && freeList.limit == old(freeList.limit)
      ensures idx == INVALID <==> old(freeList.Contents) == []
      ensures idx != INVALID ==>
                && idx !in freeList.Contents && 0 <= idx < freeList.limit
                && old(freeList.Contents) == [idx] + freeList.Contents
      ensures idx == INVALID ==> freeList.Contents == old(freeList.Contents)
    {
      idx := freeList.GetHead();
    }

    /**
     * Takes a number back. Number 0 goes back too, but is reported as a failure. A number that is in the pool
     * already breaks it: see StaticList.AddTail.
     */
    method Put(idx: int) returns (ret: int)
      requires Valid()
      modifies freeList, freeList.cells
      ensures freeList.limit == old(freeList.limit)
      ensures ret == if 0 < idx < freeList.limit then 0 else -1
      ensures Valid() <==> idx !in old(freeList.Contents)
      ensures idx !in old(freeList.Contents) ==>
                freeList.Contents
                == if 0 <= idx < freeList.limit then old(freeList.Contents) + [idx] else old(freeList.Contents)
      ensures idx in old(freeList.Contents) ==>
                && freeList.Contents == old(freeList.Contents)[..IndexOf(old(freeList.Contents), idx) + 1]
                && freeList.num == old(freeList.num) + 1 && forall s :: !freeList.Represents(s)
    {
      ret := freeList.AddTail(idx);
      ret := if ret > 0 then 0 else -1;
    }
  }
}
