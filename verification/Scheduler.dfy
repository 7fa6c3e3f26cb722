/**
 * The weighted priority scheduler shared by the message chain and the putter chain.
 * Bucket i is a FIFO with a pop counter that may reach i + 1; this module says, on values,
 * what one push, pop or removal does.
 */
module Scheduler {
  import opened Common

  datatype Bucket<T> = Bucket(items: seq<T>, popCounter: nat)

  datatype Chain<T> = Chain(buckets: seq<Bucket<T>>, count: nat, cursor: nat)

  datatype PopResult<T> = Popped(item: T, sn: nat, chain: Chain<T>) | Stuck

  // ---------- Contents and well-formedness ----------

  ghost function Items<T>(b: Bucket<T>): multiset<T> { multiset(b.items) }

  ghost function Stored<T>(buckets: seq<Bucket<T>>): multiset<T> {
    Gather<Bucket<T>, T>(Items<T>, buckets)
  }

  predicate CountersInRange<T>(buckets: seq<Bucket<T>>) {
    forall i | 0 <= i < |buckets| :: buckets[i].popCounter <= i + 1
  }

  predicate EmptyAbove<T>(buckets: seq<Bucket<T>>, k: int) {
    forall i | 0 <= i < |buckets| && k < i :: buckets[i].items == []
  }

  /** What every operation keeps: the count is exact, the cursor bounds the nonempty buckets. */
  ghost predicate WellFormed<T>(c: Chain<T>) {
    && c.cursor < |c.buckets|
    && CountersInRange(c.buckets)
    && EmptyAbove(c.buckets, c.cursor)
    && c.count == |Stored(c.buckets)|
  }

  function Fresh<T>(levels: nat): (c: Chain<T>) {
    Chain(seq(levels, i => Bucket([], 0)), 0, 0)
  }

  // ---------- The operations ----------

  function Push<T>(c: Chain<T>, sn: nat, x: T): Chain<T>
    requires sn < |c.buckets|
  {
    Chain(c.buckets[sn := c.buckets[sn].(items := c.buckets[sn].items + [x])],
          c.count + 1,
          if sn > c.cursor then sn else c.cursor)
  }

  /** The highest nonempty bucket, or -1. */
  function Top<T>(buckets: seq<Bucket<T>>): (h: int)
    ensures -1 <= h < |buckets|
    ensures h >= 0 ==> buckets[h].items != []
    ensures EmptyAbove(buckets, h)
  {
    if buckets == [] then -1
    else if buckets[|buckets| - 1].items != [] then |buckets| - 1
    else
      var h := Top(buckets[..|buckets| - 1]);
      assert forall i | 0 <= i < |buckets| - 1 :: buckets[i] == buckets[..|buckets| - 1][i];
      h
  }

  predicate Exhausted<T>(b: Bucket<T>, i: nat) { b.popCounter >= i + 1 }

  /** Bucket i can be served in its own right: it holds something and has service left. */
  predicate Ready<T>(b: Bucket<T>, i: nat) { b.items != [] && !Exhausted(b, i) }

  /** The highest ready bucket below h, or -1. */
  function ReadyBelow<T>(buckets: seq<Bucket<T>>, h: nat): (k: int)
    requires h <= |buckets|
    ensures -1 <= k < h
    ensures k >= 0 ==> Ready(buckets[k], k)
    ensures forall i | k < i < h :: !Ready(buckets[i], i)
  {
    if h == 0 then -1
    else if Ready(buckets[h - 1], h - 1) then h - 1
    else ReadyBelow(buckets, h - 1)
  }

  function Renewed<T>(b: Bucket<T>, i: nat): Bucket<T> {
    if Exhausted(b, i) then b.(popCounter := 0) else b
  }

  /** Every exhausted bucket with index in (lo, hi] gets its service back. */
  function Renew<T>(buckets: seq<Bucket<T>>, lo: int, hi: int): (r: seq<Bucket<T>>)
    ensures |r| == |buckets|
  {
    seq(|buckets|, i requires 0 <= i < |buckets| =>
      if lo < i <= hi then Renewed(buckets[i], i) else buckets[i])
  }

  function Take<T>(b: Bucket<T>, counter: nat): Bucket<T>
    requires b.items != []
  {
    Bucket(b.items[1..], counter)
  }

  /** The assertion that the downward walk stays inside the array does not hold in these states. */
  predicate IsStuck<T>(c: Chain<T>)
    requires Top(c.buckets) >= 0
  {
    var h := Top(c.buckets);
    && Exhausted(c.buckets[h], h)
    && |c.buckets[h].items| != c.count
    && (forall i | 0 <= i < h :: c.buckets[i].items != [] ==> Exhausted(c.buckets[i], i))
    && c.buckets[0].popCounter == 0
  }

  /** The bucket a pop serves, its counter afterwards, and the buckets with the renewed counters. */
  datatype Plan<T> = Plan(buckets: seq<Bucket<T>>, sn: nat, counter: nat)

  function ChoosePlan<T>(c: Chain<T>): (p: Plan<T>)
    requires Top(c.buckets) >= 0 && !IsStuck(c)
    ensures |p.buckets| == |c.buckets| && p.sn < |p.buckets|
    ensures p.buckets[p.sn].items != []
    ensures forall i | 0 <= i < |c.buckets| :: p.buckets[i].items == c.buckets[i].items
    ensures CountersInRange(c.buckets) ==> CountersInRange(p.buckets) && p.counter <= p.sn + 1
  {
    var b := c.buckets;
    var h := Top(b);
    if !Exhausted(b[h], h) then Plan(b, h, b[h].popCounter + 1)
    else if |b[h].items| == c.count then Plan(b, h, b[h].popCounter)
    else
      var k := ReadyBelow(b, h);
      if k >= 0 then Plan(Renew(b, k, h), k, b[k].popCounter + 1)
      else Plan(Renew(b, -1, |b| - 1), h, 1)
  }

  /** What a pop does, without the walk that finds it. */
  function Pop<T>(c: Chain<T>): (r: PopResult<T>)
    requires c.count > 0 && Top(c.buckets) >= 0
  {
    if IsStuck(c) then Stuck
    else
      var p := ChoosePlan(c);
      Popped(p.buckets[p.sn].items[0], p.sn,
             Chain(p.buckets[p.sn := Take(p.buckets[p.sn], p.counter)], c.count - 1, Top(c.buckets)))
  }

  function Without<T(==)>(s: seq<T>, x: T): (r: seq<T>)
    ensures x in s ==> multiset(s) == multiset(r) + multiset{x}
    ensures x !in s ==> r == s
    ensures forall y :: y in r ==> y in s
  {
    if s == [] then []
    else if s[0] == x then assert s == [x] + s[1..]; s[1..]
    else assert s == [s[0]] + s[1..]; [s[0]] + Without(s[1..], x)
  }

  /** Removal from the middle of a bucket, as a timed-out putter does; the cursor stays. */
  function Remove<T(==)>(c: Chain<T>, sn: nat, x: T): Chain<T>
    requires sn < |c.buckets| && c.count > 0
  {
    Chain(c.buckets[sn := c.buckets[sn].(items := Without(c.buckets[sn].items, x))], c.count - 1, c.cursor)
  }

  /** The lowest nonempty bucket, or the number of buckets. */
  function Bottom<T>(buckets: seq<Bucket<T>>, from: nat): (k: nat)
    requires from <= |buckets|
    ensures from <= k <= |buckets|
    ensures k < |buckets| ==> buckets[k].items != []
    ensures forall i | from <= i < k :: buckets[i].items == []
    decreases |buckets| - from
  {
    if from == |buckets| || buckets[from].items != [] then from else Bottom(buckets, from + 1)
  }

  /** The oldest element of the lowest nonempty bucket gives way; counters and cursor stay. */
  function Evict<T>(c: Chain<T>): Chain<T>
    requires c.count > 0 && Bottom(c.buckets, 0) < |c.buckets|
  {
    var k := Bottom(c.buckets, 0);
    Chain(c.buckets[k := Take(c.buckets[k], c.buckets[k].popCounter)], c.count - 1, c.cursor)
  }

  // ---------- What they keep ----------

  lemma StoredUpdate<T>(b: seq<Bucket<T>>, i: nat, x: Bucket<T>)
    requires i < |b|
    ensures Items(b[i]) <= Stored(b) && |b[i].items| <= |Stored(b)|
    ensures Stored(b[i := x]) == Stored(b) - Items(b[i]) + Items(x)
  {
    GatherUpdate<Bucket<T>, T>(Items<T>, b, i, x);
    assert Stored(b) == (Stored(b) - Items(b[i])) + Items(b[i]);
  }

  lemma TwoBucketsWithinStored<T>(b: seq<Bucket<T>>, i: nat, j: nat)
    requires i < |b| && j < |b| && i != j
    ensures |b[i].items| + |b[j].items| <= |Stored(b)|
  {
    var e := Bucket([], 0);
    StoredUpdate(b, i, e);
    StoredUpdate(b[i := e], j, e);
    assert Stored(b) == Stored(b[i := e]) + Items(b[i]);
  }

  lemma {:induction false} SameItemsSameStored<T>(b: seq<Bucket<T>>, r: seq<Bucket<T>>)
    requires |b| == |r| && forall i | 0 <= i < |b| :: b[i].items == r[i].items
    ensures Stored(b) == Stored(r)
  {
    if b == [] {
    } else {
      SameItemsSameStored(b[..|b| - 1], r[..|r| - 1]);
    }
  }

  lemma {:induction false} NothingStored<T>(b: seq<Bucket<T>>)
    requires EmptyAbove(b, -1)
    ensures Stored(b) == multiset{}
  {
    if b == [] {
    } else {
      NothingStored(b[..|b| - 1]);
    }
  }

  lemma OnlyBucketStored<T>(b: seq<Bucket<T>>, k: nat)
    requires k < |b| && forall i | 0 <= i < |b| && i != k :: b[i].items == []
    ensures |Stored(b)| == |b[k].items|
  {
    var e := Bucket([], 0);
    StoredUpdate(b, k, e);
    NothingStored(b[k := e]);
  }

  lemma TopOfNonempty<T>(c: Chain<T>)
    requires WellFormed(c)
    ensures c.count > 0 <==> Top(c.buckets) >= 0
    ensures Top(c.buckets) <= c.cursor
  {
    var h := Top(c.buckets);
    if h < 0 {
      NothingStored(c.buckets);
    } else {
      StoredUpdate(c.buckets, h, c.buckets[h]);
    }
  }

  lemma FreshWellFormed<T>(levels: nat)
    requires levels > 0
    ensures WellFormed(Fresh<T>(levels)) && Stored(Fresh<T>(levels).buckets) == multiset{}
  {
    NothingStored(Fresh<T>(levels).buckets);
  }

  /** No bucket's pop counter differs. */
  predicate SameCounters<T>(b: seq<Bucket<T>>, d: seq<Bucket<T>>) {
    |d| == |b| && forall i | 0 <= i < |b| :: d[i].popCounter == b[i].popCounter
  }

  /** One x, and the first, is gone from s. */
  lemma {:induction false} WithoutIsCut<T>(s: seq<T>, x: T, k: nat)
    requires k < |s| && s[k] == x && x !in s[..k]
    ensures Without(s, x) == s[..k] + s[k + 1..]
  {
    if k == 0 {
    } else {
      assert s[0] == s[..k][0] != x;
      WithoutIsCut(s[1..], x, k - 1);
      assert s == [s[0]] + s[1..];
      assert s[..k] == [s[0]] + s[1..][..k - 1];
    }
  }

  lemma PushKeeps<T>(c: Chain<T>, sn: nat, x: T)
    requires WellFormed(c) && sn < |c.buckets|
    ensures WellFormed(Push(c, sn, x))
    ensures Stored(Push(c, sn, x).buckets) == Stored(c.buckets) + multiset{x}
  {
    StoredUpdate(c.buckets, sn, Push(c, sn, x).buckets[sn]);
    assert Items(Push(c, sn, x).buckets[sn]) == Items(c.buckets[sn]) + multiset{x};
  }

  lemma RemoveKeeps<T>(c: Chain<T>, sn: nat, x: T)
    requires WellFormed(c) && sn < |c.buckets| && x in c.buckets[sn].items
    ensures c.count > 0 && WellFormed(Remove(c, sn, x))
    ensures Stored(c.buckets) == Stored(Remove(c, sn, x).buckets) + multiset{x}
  {
    StoredUpdate(c.buckets, sn, c.buckets[sn].(items := Without(c.buckets[sn].items, x)));
  }

  /** Exactly the head of bucket sn left the chain. */
  ghost predicate HeadLeft<T>(c: Chain<T>, r: Chain<T>, sn: nat, item: T) {
    && |r.buckets| == |c.buckets| && sn < |c.buckets|
    && c.buckets[sn].items == [item] + r.buckets[sn].items
    && forall i | 0 <= i < |c.buckets| && i != sn :: r.buckets[i].items == c.buckets[i].items
  }

  lemma HeadLeftStored<T>(c: Chain<T>, r: Chain<T>, sn: nat, item: T)
    requires HeadLeft(c, r, sn, item)
    ensures Stored(c.buckets) == Stored(r.buckets) + multiset{item}
  {
    var b := c.buckets[sn := r.buckets[sn]];
    StoredUpdate(c.buckets, sn, r.buckets[sn]);
    SameItemsSameStored(b, r.buckets);
    assert Items(c.buckets[sn]) == Items(r.buckets[sn]) + multiset{item};
  }

  lemma PopKeeps<T>(c: Chain<T>)
    requires WellFormed(c) && c.count > 0
    ensures Top(c.buckets) >= 0
    ensures var r := Pop(c); r.Popped? ==>
      && WellFormed(r.chain) && HeadLeft(c, r.chain, r.sn, r.item)
      && Stored(c.buckets) == Stored(r.chain.buckets) + multiset{r.item}
  {
    TopOfNonempty(c);
    if !IsStuck(c) {
      var r := Pop(c);
      HeadLeftStored(c, r.chain, r.sn, r.item);
    }
  }

  // ---------- What they do, bucket by bucket ----------

  /** A push appends to one bucket and raises the cursor if need be; no counter changes. */
  lemma PushExactly<T>(c: Chain<T>, sn: nat, x: T)
    requires sn < |c.buckets|
    ensures var b, d := c.buckets, Push(c, sn, x);
      && |d.buckets| == |b| && d.buckets[sn].items == b[sn].items + [x] && d.count == c.count + 1
      && (forall i | 0 <= i < |b| && i != sn :: d.buckets[i].items == b[i].items)
      && SameCounters(b, d.buckets) && d.cursor == (if sn > c.cursor then sn else c.cursor)
  {
  }

  /** A removal takes x out of one bucket; no counter changes, nor the cursor. */
  lemma RemoveExactly<T>(c: Chain<T>, sn: nat, x: T)
    requires sn < |c.buckets| && c.count > 0
    ensures var b, d := c.buckets, Remove(c, sn, x);
      && |d.buckets| == |b| && d.buckets[sn].items == Without(b[sn].items, x) && d.count == c.count - 1
      && (forall i | 0 <= i < |b| && i != sn :: d.buckets[i].items == b[i].items)
      && SameCounters(b, d.buckets) && d.cursor == c.cursor
  {
  }

  lemma FreshExactly<T>(levels: nat)
    ensures |Fresh<T>(levels).buckets| == levels && Fresh<T>(levels).count == Fresh<T>(levels).cursor == 0
    ensures forall i | 0 <= i < levels :: Fresh<T>(levels).buckets[i] == Bucket([], 0)
  {
  }

  /** h is the highest bucket that holds anything. */
  predicate Highest<T>(b: seq<Bucket<T>>, h: nat) {
    h < |b| && b[h].items != [] && forall i | h < i < |b| :: b[i].items == []
  }

  lemma HighestIsTop<T>(c: Chain<T>, h: nat)
    requires WellFormed(c) && Highest(c.buckets, h)
    ensures c.count > 0 && Top(c.buckets) == h <= c.cursor
  {
    TopOfNonempty(c);
  }

  /**
   * A pop whose highest nonempty bucket h has service left serves it and counts one service more. One that
   * finds h exhausted and everything stored in it serves it all the same and counts nothing.
   */
  lemma PopServesHighest<T>(c: Chain<T>, h: nat)
    requires WellFormed(c) && Highest(c.buckets, h)
    requires c.buckets[h].popCounter <= h || |c.buckets[h].items| == c.count
    ensures Top(c.buckets) == h && c.count > 0 && Pop(c).Popped?
    ensures var b, p := c.buckets, Pop(c); var d := p.chain;
      && p.sn == h && HeadLeft(c, d, h, p.item) && d.count == c.count - 1 && d.cursor == h
      && (forall i | 0 <= i < |b| && i != h :: d.buckets[i].popCounter == b[i].popCounter)
      && d.buckets[h].popCounter == if b[h].popCounter <= h then b[h].popCounter + 1 else b[h].popCounter
  {
    HighestIsTop(c, h);
  }

  /**
   * A pop that finds h exhausted walks down to the next nonempty bucket k with service left. Every bucket it
   * passed, empty or not, whose counter had reached its limit starts again from 0.
   */
  lemma PopServesBelow<T>(c: Chain<T>, h: nat, k: nat)
    requires WellFormed(c) && Highest(c.buckets, h) && k < h
    requires c.buckets[h].popCounter == h + 1 && |c.buckets[h].items| != c.count
    requires c.buckets[k].items != [] && c.buckets[k].popCounter <= k
    requires forall i | k < i < h && c.buckets[i].items != [] :: c.buckets[i].popCounter == i + 1
    ensures Top(c.buckets) == h && c.count > 0 && Pop(c).Popped?
    ensures var b, p := c.buckets, Pop(c); var d := p.chain;
      && p.sn == k && HeadLeft(c, d, k, p.item) && d.count == c.count - 1 && d.cursor == h
      && d.buckets[k].popCounter == b[k].popCounter + 1
      && (forall i | k < i <= h :: d.buckets[i].popCounter == if b[i].popCounter == i + 1 then 0 else b[i].popCounter)
      && (forall i | 0 <= i < |b| && (i < k || h < i) :: d.buckets[i].popCounter == b[i].popCounter)
  {
    HighestIsTop(c, h);
    assert ReadyBelow(c.buckets, h) == k;
  }

  /**
   * A pop that finds nothing to serve at or below h: if the counter of bucket 0 has reached its limit, the walk
   * goes once around, all counters at their limit start again from 0, and h is served as the first of its new
   * share; if not, the walk leaves the array.
   */
  lemma PopWrapsOrSticks<T>(c: Chain<T>, h: nat)
    requires WellFormed(c) && Highest(c.buckets, h)
    requires c.buckets[h].popCounter == h + 1 && |c.buckets[h].items| != c.count
    requires forall i | 0 <= i < h && c.buckets[i].items != [] :: c.buckets[i].popCounter == i + 1
    ensures Top(c.buckets) == h && c.count > 0
    ensures Pop(c).Stuck? <==> c.buckets[0].popCounter == 0
    ensures Pop(c).Popped? ==>
      var b, p := c.buckets, Pop(c); var d := p.chain;
      && p.sn == h && HeadLeft(c, d, h, p.item) && d.count == c.count - 1 && d.cursor == h
      && d.buckets[h].popCounter == 1
      && (forall i | 0 <= i < |b| && i != h ::
            d.buckets[i].popCounter == if b[i].popCounter == i + 1 then 0 else b[i].popCounter)
  {
    HighestIsTop(c, h);
    assert ReadyBelow(c.buckets, h) == -1;
  }

  lemma EvictKeeps<T>(c: Chain<T>)
    requires WellFormed(c) && c.count > 0
    ensures Bottom(c.buckets, 0) < |c.buckets|
    ensures var k := Bottom(c.buckets, 0);
      && WellFormed(Evict(c)) && HeadLeft(c, Evict(c), k, c.buckets[k].items[0])
      && (forall i | 0 <= i < k :: c.buckets[i].items == [])
    ensures SameCounters(c.buckets, Evict(c).buckets)
    ensures Evict(c).cursor == c.cursor && Evict(c).count == c.count - 1
  {
    TopOfNonempty(c);
    var k := Bottom(c.buckets, 0);
    HeadLeftStored(c, Evict(c), k, c.buckets[k].items[0]);
  }

  lemma {:induction false} HomeOf<T>(b: seq<Bucket<T>>, x: T) returns (i: nat)
    requires x in Stored(b)
    ensures i < |b| && x in b[i].items
  {
    var n := |b| - 1;
    if x in b[n].items {
      i := n;
    } else {
      i := HomeOf(b[..n], x);
    }
  }

  // ---------- When a pop can fail ----------

  /** With at most two priority levels the walk never leaves the array. */
  lemma TwoLevelsNeverStuck<T>(c: Chain<T>)
    requires WellFormed(c) && c.count > 0 && |c.buckets| <= 2
    ensures Top(c.buckets) >= 0 && Pop(c).Popped?
  {
    TopOfNonempty(c);
    var h := Top(c.buckets);
    if forall i | 0 <= i < |c.buckets| && i != h :: c.buckets[i].items == [] {
      OnlyBucketStored(c.buckets, h);
    }
  }
}
