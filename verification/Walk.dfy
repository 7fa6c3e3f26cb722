/** The downward walk with its one wrap, as both chains run it in place on their bucket array. */
module Walk {
  import opened Common
  import opened Scheduler

  /** Buckets the walk has left behind: those in (sn, h] before the wrap, after it all but (h, sn]. */
  predicate Passed(i: int, h: int, sn: int, wrapped: bool) {
    if wrapped then i <= h || sn < i else sn < i <= h
  }

  /**
   * The walk that started on chain c stands at bucket sn and has turned the buckets into `now`:
   * exhausted buckets it passed are renewed, nothing it passed was ready.
   */
  ghost predicate At<T>(c: Chain<T>, now: seq<Bucket<T>>, sn: nat, wrapped: bool) {
    && WellFormed(c) && c.count > 0 && Top(c.buckets) >= 0
    && |now| == |c.buckets| && sn < |now|
    && var b, h := c.buckets, Top(c.buckets);
    && (forall i | 0 <= i < |b| :: now[i] == if Passed(i, h, sn, wrapped) then Renewed(b[i], i) else b[i])
    && (if wrapped then h <= sn else sn <= h)
    && (wrapped || sn < h ==> Exhausted(b[h], h) && |b[h].items| != c.count)
    && (forall i | 0 <= i < h && Passed(i, h, sn, wrapped) :: !Ready(b[i], i))
    && (wrapped ==> b[0].popCounter == 1)
  }

  lemma ServesReady<T>(c: Chain<T>, now: seq<Bucket<T>>, sn: nat, wrapped: bool)
    requires At(c, now, sn, wrapped) && Ready(now[sn], sn)
    ensures Pop(c) == Popped(now[sn].items[0], sn,
                             Chain(now[sn := Take(now[sn], now[sn].popCounter + 1)], c.count - 1, Top(c.buckets)))
  {
    var b, h := c.buckets, Top(c.buckets);
    if !wrapped && sn < h {
      assert ReadyBelow(b, h) == sn;
      assert now == Renew(b, sn, h);
    } else if !wrapped {
      assert now == b;
    } else {
      assert sn == h && ReadyBelow(b, h) == -1;
      assert now == Renew(b, -1, |b| - 1);
    }
  }

  lemma ServesOnlyBucket<T>(c: Chain<T>, now: seq<Bucket<T>>, sn: nat, wrapped: bool)
    requires At(c, now, sn, wrapped) && Exhausted(now[sn], sn) && |now[sn].items| == c.count
    ensures Pop(c) == Popped(now[sn].items[0], sn,
                             Chain(now[sn := Take(now[sn], now[sn].popCounter)], c.count - 1, Top(c.buckets)))
  {
    var h := Top(c.buckets);
    if sn < h {
      TwoBucketsWithinStored(c.buckets, sn, h);
    } else {
      assert now == c.buckets;
    }
  }

  lemma FallsOff<T>(c: Chain<T>, now: seq<Bucket<T>>, wrapped: bool)
    requires At(c, now, 0, wrapped) && now[0].items == [] && !Exhausted(now[0], 0)
    ensures IsStuck(c)
  {
  }

  lemma StepsDown<T>(c: Chain<T>, now: seq<Bucket<T>>, sn: nat, wrapped: bool)
    requires At(c, now, sn, wrapped) && sn > 0 && !Ready(now[sn], sn)
    requires Exhausted(now[sn], sn) ==> |now[sn].items| != c.count
    ensures At(c, now[sn := Renewed(now[sn], sn)], sn - 1, wrapped)
  {
  }

  lemma WrapsOnce<T>(c: Chain<T>, now: seq<Bucket<T>>, wrapped: bool)
    requires At(c, now, 0, wrapped) && Exhausted(now[0], 0) && |now[0].items| != c.count
    ensures !wrapped && At(c, now[0 := Renewed(now[0], 0)], |now| - 1, true)
  {
    if Top(c.buckets) == 0 { OnlyBucketStored(c.buckets, 0); }
  }

  /** The first loop: from the cursor down to a nonempty bucket, never below index 0. */
  method Locate<T>(buckets: array<Bucket<T>>, cursor: nat) returns (sn: nat)
    requires 0 <= Top(buckets[..]) <= cursor < buckets.Length
    ensures sn == Top(buckets[..])
  {
    sn := cursor;
    while |buckets[sn].items| == 0
      invariant Top(buckets[..]) <= sn < buckets.Length
      decreases sn
    {
      sn := sn - 1;
    }
  }

  datatype Progress<T> = Served(item: T) | Aborted | Moved(sn: nat, cycle: nat)

  /** One round of the goto loop: serve bucket sn, or move on to the next one. */
  method Round<T>(buckets: array<Bucket<T>>, count: nat, sn: nat, cycle: nat, ghost c: Chain<T>)
    returns (p: Progress<T>)
    requires cycle <= 1 && At(c, buckets[..], sn, cycle == 1) && count == c.count
    modifies buckets
    ensures match p
      case Aborted => IsStuck(c)
      case Served(item) => Pop(c) == Popped(item, sn, Chain(buckets[..], count - 1, Top(c.buckets)))
      case Moved(next, rounds) =>
        && rounds <= 1 && At(c, buckets[..], next, rounds == 1)
        && (if rounds == cycle then next == sn - 1 else cycle == 0 && sn == 0)
    ensures p.Moved? ==> forall i | 0 <= i < buckets.Length ::
              && buckets[i].items == old(buckets[i].items)
              && buckets[i].popCounter
                 == if i == sn && old(buckets[i].popCounter) > sn then 0 else old(buckets[i].popCounter)
  {
    ghost var now := buckets[..];
    var bucket := buckets[sn];
    if bucket.popCounter < sn + 1 {
      if |bucket.items| > 0 {
        ServesReady(c, now, sn, cycle == 1);
        buckets[sn] := Take(bucket, bucket.popCounter + 1);
        return Served(bucket.items[0]);
      }
      if sn == 0 {
        FallsOff(c, now, cycle == 1);
        return Aborted;
      }
      StepsDown(c, now, sn, cycle == 1);
      assert now == now[sn := Renewed(now[sn], sn)];
      return Moved(sn - 1, cycle);
    }
    if |bucket.items| == count {
      ServesOnlyBucket(c, now, sn, cycle == 1);
      buckets[sn] := Take(bucket, bucket.popCounter);
      return Served(bucket.items[0]);
    }
    p := PassExhausted(buckets, count, sn, cycle, c);
  }

  /** The end of a round at an exhausted bucket that does not hold everything: renew it and go on. */
  method PassExhausted<T>(buckets: array<Bucket<T>>, count: nat, sn: nat, cycle: nat, ghost c: Chain<T>)
    returns (p: Progress<T>)
    requires cycle <= 1 && At(c, buckets[..], sn, cycle == 1) && count == c.count
    requires Exhausted(buckets[sn], sn) && |buckets[sn].items| != count
    modifies buckets
    ensures p.Moved? && p.cycle <= 1 && At(c, buckets[..], p.sn, p.cycle == 1)
    ensures if p.cycle == cycle then p.sn == sn - 1 else cycle == 0 && sn == 0
    ensures forall i | 0 <= i < buckets.Length ::
              buckets[i] == if i == sn then old(buckets[i]).(popCounter := 0) else old(buckets[i])
  {
    ghost var now := buckets[..];
    var bucket := buckets[sn];
    buckets[sn] := bucket.(popCounter := 0);
    assert buckets[..] == now[sn := Renewed(now[sn], sn)];
    if sn == 0 {
      WrapsOnce(c, now, cycle == 1);
      return Moved(buckets.Length - 1, cycle + 1);
    }
    StepsDown(c, now, sn, cycle == 1);
    return Moved(sn - 1, cycle);
  }

  /**
   * Pops one element. None stands for the process stopping at the assertion that the walk stays
   * inside the array; the other two assertions (the search finds a nonempty bucket, the walk wraps
   * at most once) are proved here and in Round.
   */
  method PopWalk<T>(buckets: array<Bucket<T>>, count: nat, cursor: nat) returns (r: Option<T>, newCursor: nat)
    requires WellFormed(Chain(buckets[..], count, cursor)) && count > 0
    modifies buckets
    ensures Top(old(buckets[..])) >= 0
    ensures match Pop(old(Chain(buckets[..], count, cursor)))
            case Stuck => r == None
            case Popped(item, _, chain) => r == Some(item) && Chain(buckets[..], count - 1, newCursor) == chain
  {
    ghost var c := Chain(buckets[..], count, cursor);
    TopOfNonempty(c);
    var sn := Locate(buckets, cursor);
    newCursor := sn;
    var cycle := 0;
    while true
      invariant 0 <= cycle <= 1 && 0 <= sn < buckets.Length && At(c, buckets[..], sn, cycle == 1)
      decreases 1 - cycle, sn
    {
      var p := Round(buckets, count, sn, cycle, c);
      match p {
        case Served(item) => return Some(item), newCursor;
        case Aborted => return None, newCursor;
        case Moved(next, rounds) => sn, cycle := next, rounds;
      }
    }
  }
}
