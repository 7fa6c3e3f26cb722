/**
 * The store of src/qc_psist/qc_psist.c: a slot file, and the pool of the slot numbers that appends may use.
 * The ghost field lost holds the numbers that a refused append took out of the pool and did not put back.
 */
module Psists {
  import opened Common
  import opened StaticLists
  import opened SlotQueues
  import opened PsistFiles

  /** No number is twice in the pool, and those in it are the slots out of use, but for the lost ones. */
  ghost predicate Agree(free: seq<int>, lost: set<int>, rs: seq<Option<Record>>) {
    && Distinct(free)
    && (forall id | id in lost :: 0 <= id < |rs| && rs[id].None?)
    && (forall id {:trigger id in free} :: id in free <==> 0 <= id < |rs| && rs[id].None? && id !in lost)
  }

  lemma FullPool(free: seq<int>, rs: seq<Option<Record>>)
    requires Distinct(free) && forall id {:trigger id in free} :: id in free <==> 0 <= id < |rs|
    ensures Agree(free, {}, rs) <==> forall id | 0 <= id < |rs| :: rs[id].None?
  {
    if Agree(free, {}, rs) {
      forall id | 0 <= id < |rs| ensures rs[id].None? {
        assert id in free;
      }
    }
  }

  lemma FirstLeaves(free: seq<int>, rest: seq<int>, lost: set<int>, rs: seq<Option<Record>>, id: int, r: Record)
    requires free == [id] + rest && 0 <= id < |rs|
    ensures Agree(free, lost, rs) ==>
              rs[id].None? && Agree(rest, lost, rs[id := Some(r)]) && Agree(rest, lost + {id}, rs)
  {
    if !Agree(free, lost, rs) { return; }
    assert free[0] == id && id in free;
    forall i, j | 0 <= i < j < |rest| ensures rest[i] != rest[j] {
      assert free[i + 1] != free[j + 1];
    }
    forall i | 0 <= i < |rest| ensures rest[i] != id && rest[i] in free {
      assert free[i + 1] == rest[i];
    }
    forall x | x in free && x != id ensures x in rest {
      var i :| 0 <= i < |free| && free[i] == x;
      assert rest[i - 1] == x;
    }
  }

  class Psist {
    const store: PsistFile
    const pool: NumPool
    ghost var lost: set<int>

    ghost predicate Valid()
      reads this, store, store.file, pool, pool.freeList, pool.freeList.cells
    {
      store.Valid() && pool.Valid() && pool.freeList.limit == store.limit
    }

    ghost function Free(): seq<int>
      reads this, pool, pool.freeList
    {
      pool.freeList.Contents
    }

    ghost function Content(): (r: seq<Option<Record>>)
      reads this, store, store.file
      ensures |r| == store.limit
    {
      store.Content()
    }

    ghost predicate Agreed()
      reads this, store, store.file, pool, pool.freeList
    {
      Agree(Free(), lost, Content())
    }

    /**
     * qc_psist_open on an opened slot file, be it new or kept from an earlier run. Every number starts in the
     * pool, which is right exactly when the file holds no record.
     */
    constructor (store: PsistFile)
      requires store.Valid()
      ensures Valid() && this.store == store && fresh(pool) && fresh(pool.freeList) && fresh(pool.freeList.cells)
      ensures lost == {} && Free() == seq(store.limit, i => i)
      ensures Agreed() <==> forall id | 0 <= id < store.limit :: Content()[id].None?
    {
      var numbers := new NumPool(store.limit);
      this.store, pool, lost := store, numbers, {};
      new;
      FullPool(Free(), Content());
    }

    /**
     * The record goes to the first number of the pool. An empty pool refuses it; so does the file when the
     * body is empty, and then the number is lost. Only a body that fits leaves the file in order.
     */
    method Append(r: Record) returns (ret: int, id: int)
      requires Valid() && IsInt32(r.priority) && IsInt32(|r.payload|)
      modifies this`lost, store.file, pool.freeList, pool.freeList.cells
      ensures ret == if old(Free()) == [] || r.payload == [] then -1 else 0
      ensures if old(Free()) == [] then id == INVALID && Free() == []
              else 0 <= id < store.limit && old(Free()) == [id] + Free()
      ensures lost == if ret != 0 && id != INVALID then old(lost) + {id} else old(lost)
      ensures store.file.bytes == if ret != 0 then old(store.file.bytes)
                                  else Written(old(store.file.bytes), store.buffSize, store.limit, id, r)
      ensures |r.payload| <= store.buffSize ==>
                && Valid() && Content() == (if ret == 0 then old(Content())[id := Some(r)] else old(Content()))
                && (old(Agreed()) ==> Agreed() && (ret == 0 ==> old(Content())[id].None?))
    {
      ghost var free, rs := Free(), Content();
      id := pool.Get();
      if id < 0 {
        return -1, id;
      }
      FirstLeaves(free, Free(), lost, rs, id, r);
      ret := store.Append(id, r);
      if ret != 0 {
        lost := lost + {id};
        return -1, id;
      }
      return 0, id;
    }

    /**
     * Empties the slot and gives its number back, to the end of the pool. If the number is in the pool already,
     * as it is for every record that a kept file brought along, the pool is broken: only the numbers up to this
     * one can still be reached in it, and its count is one too high.
     */
    method Remove(id: nat) returns (ret: int)
      requires Valid() && id < store.limit
      modifies this`lost, store.file, pool.freeList, pool.freeList.cells
      ensures ret == 0 && store.Valid() && Content() == old(Content())[id := None]
      ensures lost == old(lost) - {id} && pool.freeList.limit == store.limit
      ensures Valid() <==> id !in old(Free())
      ensures id !in old(Free()) ==> Free() == old(Free()) + [id] && (old(Agreed()) ==> Agreed())
      ensures id in old(Free()) ==>
                && Free() == old(Free())[..IndexOf(old(Free()), id) + 1]
                && pool.freeList.num == old(pool.freeList.num) + 1 && forall s :: !pool.freeList.Represents(s)
    {
      if Agreed() && id !in Free() {
      }
      ret := store.Remove(id);
      var _ := pool.Put(id);
      lost := lost - {id};
    }

    /**
     * Crash safety of the store. Whatever part of its body an append has written when it stops, the records are
     * as before: if and only if the number it was given names a slot out of use, as it does while pool and file agree.
     */
    lemma InterruptionHides()
      requires Valid() && Free() != []
      ensures 0 <= Free()[0] < store.limit
      ensures Content()[Free()[0]].None? <==>
              forall body | |body| <= store.buffSize ::
                Unnoticed(store.file.bytes, store.buffSize, store.limit, Free()[0], body)
      ensures Agreed() ==> Content()[Free()[0]].None?
    {
      UnnoticedInUnused(store.file.bytes, store.buffSize, store.limit, Free()[0]);
      assert Free()[0] in Free();
    }
  }
}
