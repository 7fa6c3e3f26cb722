/** The chain of blocked writers of src/qc_mq/qc_putters.c: same scheduler, with removal from the middle. */
module PuttersChains {
  import opened Common
  import opened Scheduler
  import opened Walk

  class Putter {
    const priority: int
    var refCount: int
    var linked: bool  // _entry is not NULL

    constructor (priority: int)
      ensures this.priority == priority && refCount == 1 && !linked
    {
      this.priority, refCount, linked := priority, 1, false;
    }
  }

  ghost function MembersOf(b: seq<Bucket<Putter>>): set<Putter> {
    set i, p | 0 <= i < |b| && p in b[i].items :: p
  }

  /** Every putter is queued once and in the bucket of its priority. */
  ghost predicate Seated(b: seq<Bucket<Putter>>) {
    && (forall i, p | 0 <= i < |b| && p in b[i].items :: p.priority == i + 1)
    && (forall i, p | 0 <= i < |b| && p in b[i].items :: multiset(b[i].items)[p] == 1)
  }

  lemma PushSeated(c: Chain<Putter>, p: Putter)
    requires Seated(c.buckets) && 1 <= p.priority <= |c.buckets| && p !in MembersOf(c.buckets)
    ensures var d := Push(c, p.priority - 1, p).buckets;
      Seated(d) && MembersOf(d) == MembersOf(c.buckets) + {p}
  {
    var b, k, d := c.buckets, p.priority - 1, Push(c, p.priority - 1, p).buckets;
    assert p !in b[k].items;
    assert p in d[k].items;
    assert forall i, q | 0 <= i < |b| && q in b[i].items :: q in d[i].items;
  }

  /** The bucket contents after one putter left bucket k. */
  lemma LeaveSeated(b: seq<Bucket<Putter>>, d: seq<Bucket<Putter>>, k: nat, p: Putter)
    requires Seated(b) && |d| == |b| && k < |b| && p in b[k].items
    requires multiset(b[k].items) == multiset(d[k].items) + multiset{p}
    requires forall i | 0 <= i < |b| && i != k :: d[i].items == b[i].items
    ensures Seated(d) && MembersOf(d) == MembersOf(b) - {p}
  {
    assert forall q :: q in d[k].items ==> q in multiset(d[k].items) && q in multiset(b[k].items);
    assert forall q :: q in b[k].items && q != p ==> q in multiset(d[k].items) && q in d[k].items;
    assert forall i, q | 0 <= i < |b| && q in d[i].items :: q in b[i].items;
    assert forall i, q | 0 <= i < |b| && q in b[i].items && q != p :: q in d[i].items;
    assert multiset(d[k].items)[p] == 0;
    assert p !in d[k].items && p.priority == k + 1;
    forall i | 0 <= i < |b| && p in b[i].items ensures i == k {
      assert p.priority == i + 1;
    }
  }

  lemma PopSeated(c: Chain<Putter>)
    requires WellFormed(c) && c.count > 0 && Seated(c.buckets)
    ensures Top(c.buckets) >= 0
    ensures var r := Pop(c); r.Popped? ==>
      && WellFormed(r.chain) && |r.chain.buckets| == |c.buckets| && Seated(r.chain.buckets)
      && r.item in MembersOf(c.buckets) && MembersOf(r.chain.buckets) == MembersOf(c.buckets) - {r.item}
  {
    PopKeeps(c);
    var r := Pop(c);
    if r.Popped? {
      assert HeadLeft(c, r.chain, r.sn, r.item);
      LeaveSeated(c.buckets, r.chain.buckets, r.sn, r.item);
    }
  }

  class PuttersChain {
    const bucketCount: int
    const putBuckets: array<Bucket<Putter>>
    var putterCount: nat
    var cursorBucketSn: nat

    ghost function View(): Chain<Putter>
      reads this, putBuckets
    {
      Chain(putBuckets[..], putterCount, cursorBucketSn)
    }

    ghost function Members(): set<Putter>
      reads this, putBuckets
    {
      MembersOf(putBuckets[..])
    }

    ghost predicate Valid()
      reads this, putBuckets, Members()
    {
      && putBuckets.Length == bucketCount && WellFormed(View()) && Seated(putBuckets[..])
      && forall p | p in Members() :: p.linked
    }

    constructor (bucketCount: int)
      requires bucketCount > 0
      ensures Valid() && fresh(putBuckets) && View() == Fresh(bucketCount) && this.bucketCount == bucketCount
    {
      this.bucketCount := bucketCount;
      putBuckets := new Bucket<Putter>[bucketCount](_ => Bucket([], 0));
      putterCount, cursorBucketSn := 0, 0;
      new;
      FreshWellFormed<Putter>(bucketCount);
      assert putBuckets[..] == Fresh<Putter>(bucketCount).buckets;
    }

    method PushPutter(putter: Putter)
      requires Valid() && !putter.linked && 1 <= putter.priority <= bucketCount
      modifies this, putBuckets, putter`linked
      ensures Valid() && putter.linked && View() == Push(old(View()), putter.priority - 1, putter)
      ensures SameCounters(old(putBuckets[..]), putBuckets[..])
    {
      PushKeeps(View(), putter.priority - 1, putter);
      PushSeated(View(), putter);
      var sn := putter.priority - 1;
      putBuckets[sn] := putBuckets[sn].(items := putBuckets[sn].items + [putter]);
      assert putBuckets[..] == Push(old(View()), putter.priority - 1, putter).buckets;
      putter.linked := true;
      putterCount := putterCount + 1;
      if sn > cursorBucketSn {
        cursorBucketSn := sn;
      }
    }

    /** Null when nobody waits; None when the process stopped at the assertion inside the walk. */
    method PopPutter() returns (r: Option<Putter?>)
      requires Valid()
      modifies this, putBuckets, Members()
      ensures old(putterCount) == 0 ==> r == Some(null) && Valid() && View() == old(View())
      ensures old(putterCount) > 0 ==> Top(old(putBuckets[..])) >= 0 && (r == None <==> old(IsStuck(View())))
      ensures old(putterCount) > 0 && r.Some? ==>
                && Valid() && r.value != null && Pop(old(View())).Popped?
                && Pop(old(View())).chain == View() && Pop(old(View())).item == r.value
                && !r.value.linked && r.value.refCount == old(r.value.refCount) + 1
      ensures forall p | p in old(Members()) && r != Some(p) ::
                p.linked == old(p.linked) && p.refCount == old(p.refCount)
    {
      if putterCount == 0 {
        return Some(null);
      }
      PopSeated(View());
      var putter, cursor := PopWalk(putBuckets, putterCount, cursorBucketSn);
      if putter == None {
        return None;
      }
      cursorBucketSn := cursor;
      putterCount := putterCount - 1;
      var p := putter.value;
      p.linked := false;
      p.refCount := p.refCount + 1;
      r := Some(p);
    }

    /** What a timed-out writer does; a writer that was popped before is left alone. */
    method RemovePutter(putter: Putter) returns (ret: int)
      requires Valid() && 1 <= putter.priority <= bucketCount
      requires putter.linked ==> putter in putBuckets[putter.priority - 1].items
      modifies this, putBuckets
      ensures ret == if old(putter.linked) then 0 else -1
      ensures ret == -1 ==> Valid() && View() == old(View())
      ensures ret == 0 ==> old(putterCount) > 0 && View() == Remove(old(View()), putter.priority - 1, putter)
      ensures SameCounters(old(putBuckets[..]), putBuckets[..]) && cursorBucketSn == old(cursorBucketSn)
      ensures ret == 0 ==> Valid() && putter !in Members()
    {
      if !putter.linked {
        return -1;
      }
      RemoveKeeps(View(), putter.priority - 1, putter);
      var sn := putter.priority - 1;
      putBuckets[sn] := putBuckets[sn].(items := Without(putBuckets[sn].items, putter));
      putterCount := putterCount - 1;
      LeaveSeated(old(putBuckets[..]), putBuckets[..], sn, putter);
      return 0;
    }
  }

}
