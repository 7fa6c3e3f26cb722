/**
 * While every bucket holds something, the pop counters run like a mixed-radix odometer: bucket i is
 * a digit of radix i + 2 and the top bucket is the least significant one.
 */
module Odometer {
  import opened Scheduler

  predicate AllNonempty<T>(buckets: seq<Bucket<T>>) {
    forall i | 0 <= i < |buckets| :: buckets[i].items != []
  }

  function Factorial(n: nat): (r: nat)
    ensures r >= 1
  {
    if n == 0 then 1 else Factorial(n - 1) * n
  }

  /** The number shown by digits 0 .. n - 1, digit n - 1 least significant. */
  function High<T>(b: seq<Bucket<T>>, n: nat): nat
    requires n <= |b|
  {
    if n == 0 then 0 else High(b, n - 1) * (n + 1) + b[n - 1].popCounter
  }

  /** How often bucket i was served while the odometer counted from 0 to the number it shows. */
  function Turns<T>(b: seq<Bucket<T>>, i: nat): int
    requires i < |b|
  {
    High(b, i + 1) - High(b, i)
  }

  function FullTurns(i: nat): nat { (i + 1) * Factorial(i + 1) }

  /** The highest value of n digits. */
  function Period(n: nat): nat { Factorial(n + 1) - 1 }

  predicate AllFull<T>(b: seq<Bucket<T>>, n: nat)
    requires n <= |b|
  {
    forall i | 0 <= i < n :: Exhausted(b[i], i)
  }

  /** One more digit d of radix n + 1 below a number that is at most f - 1. */
  lemma OneMoreDigit(high: nat, f: nat, n: nat, d: nat)
    requires high <= f - 1 && d <= n
    ensures high * (n + 1) + d <= f * (n + 1) - 1
    ensures high * (n + 1) + d == f * (n + 1) - 1 <==> high == f - 1 && d == n
  {
    var gap := f - 1 - high;
    assert f * (n + 1) - 1 - (high * (n + 1) + d) == gap * (n + 1) + (n - d);
    if gap > 0 {
      assert gap * (n + 1) >= n + 1;
    }
  }

  lemma {:induction false} HighBounds<T>(b: seq<Bucket<T>>, n: nat)
    requires n <= |b| && CountersInRange(b)
    ensures High(b, n) <= Period(n)
    ensures High(b, n) == Period(n) <==> AllFull(b, n)
  {
    if n == 0 {
    } else {
      HighBounds(b, n - 1);
      OneMoreDigit(High(b, n - 1), Factorial(n), n, b[n - 1].popCounter);
    }
  }

  /** Digit s grows by one and every digit below it, exhausted before, becomes zero. */
  ghost predicate Carries<T>(b: seq<Bucket<T>>, d: seq<Bucket<T>>, s: nat) {
    && |d| == |b| && s < |b|
    && (forall i | 0 <= i < s :: d[i].popCounter == b[i].popCounter)
    && d[s].popCounter == b[s].popCounter + 1
    && (forall i | s < i < |b| :: b[i].popCounter == i + 1 && d[i].popCounter == 0)
  }

  lemma Distribute(x: nat, r: nat)
    ensures (x + 1) * r == x * r + r
  {
  }

  lemma {:induction false} CarryHigh<T>(b: seq<Bucket<T>>, d: seq<Bucket<T>>, s: nat, n: nat)
    requires Carries(b, d, s) && n <= |b|
    ensures High(d, n) == High(b, n) + (if n > s then 1 else 0)
  {
    if n == 0 {
    } else {
      CarryHigh(b, d, s, n - 1);
      if n - 1 > s {
        Distribute(High(b, n - 1), n + 1);
      }
    }
  }

  lemma {:induction false} ZeroHigh<T>(b: seq<Bucket<T>>, n: nat)
    requires n <= |b| && forall i | 0 <= i < n :: b[i].popCounter == 0
    ensures High(b, n) == 0
  {
    if n == 0 {
    } else {
      ZeroHigh(b, n - 1);
    }
  }

  lemma FullTurnsAreDifferences(i: nat)
    ensures Period(i + 1) - Period(i) == FullTurns(i)
  {
    assert Factorial(i + 2) == Factorial(i + 1) * (i + 2);
  }

  function One(i: nat, j: nat): nat { if i == j then 1 else 0 }

  /** One pop from a chain with every bucket nonempty. */
  ghost predicate Advances<T>(b: seq<Bucket<T>>, d: seq<Bucket<T>>, s: nat) {
    && |d| == |b| && s < |b|
    && if High(b, |b|) < Period(|b|) then
         && High(d, |b|) == High(b, |b|) + 1
         && d[s].popCounter == b[s].popCounter + 1
         && forall i | 0 <= i < |b| :: Turns(d, i) == Turns(b, i) + One(i, s)
       else
         && High(d, |b|) == 1 && s == |b| - 1
         && forall i | 0 <= i < |b| :: Turns(b, i) == FullTurns(i) && Turns(d, i) == One(i, s)
  }

  lemma CarryAdvances<T>(b: seq<Bucket<T>>, d: seq<Bucket<T>>, s: nat)
    requires Carries(b, d, s) && CountersInRange(b) && b[s].popCounter <= s
    ensures Advances(b, d, s)
  {
    var n := |b|;
    HighBounds(b, n);
    assert !Exhausted(b[s], s);
    CarryHigh(b, d, s, n);
    forall i | 0 <= i < n ensures Turns(d, i) == Turns(b, i) + One(i, s) {
      CarryHigh(b, d, s, i);
      CarryHigh(b, d, s, i + 1);
    }
  }

  lemma WrapAdvances<T>(b: seq<Bucket<T>>, d: seq<Bucket<T>>)
    requires |d| == |b| > 0 && CountersInRange(b) && AllFull(b, |b|)
    requires forall i | 0 <= i < |b| - 1 :: d[i].popCounter == 0
    requires d[|b| - 1].popCounter == 1
    ensures Advances(b, d, |b| - 1)
  {
    var n := |b|;
    HighBounds(b, n);
    ZeroHigh(d, n - 1);
    forall i | 0 <= i < n ensures Turns(b, i) == FullTurns(i) && Turns(d, i) == One(i, n - 1) {
      HighBounds(b, i);
      HighBounds(b, i + 1);
      FullTurnsAreDifferences(i);
      ZeroHigh(d, i);
      if i + 1 < n { ZeroHigh(d, i + 1); }
    }
  }

  lemma PopAdvances<T>(c: Chain<T>)
    requires WellFormed(c) && AllNonempty(c.buckets)
    ensures c.count > 0 && Top(c.buckets) == |c.buckets| - 1 && Pop(c).Popped?
    ensures Advances(c.buckets, Pop(c).chain.buckets, Pop(c).sn)
  {
    var b := c.buckets;
    var h := |b| - 1;
    TopOfNonempty(c);
    assert b[h].items != [];
    if |b| > 1 { TwoBucketsWithinStored(b, h, 0); } else { OnlyBucketStored(b, 0); }
    var k := if Ready(b[h], h) then h else ReadyBelow(b, h);
    if k >= 0 {
      PopCarries(c, k);
      CarryAdvances(b, Pop(c).chain.buckets, k);
    } else {
      assert forall i | 0 <= i < |b| :: !Ready(b[i], i);
      WrapAdvances(b, Pop(c).chain.buckets);
    }
  }

  /** A pop with a ready bucket is a carry into it. */
  lemma PopCarries<T>(c: Chain<T>, k: nat)
    requires WellFormed(c) && AllNonempty(c.buckets) && Top(c.buckets) == |c.buckets| - 1
    requires |c.buckets| == 1 || |c.buckets[|c.buckets| - 1].items| != c.count
    requires var h := |c.buckets| - 1; k == (if Ready(c.buckets[h], h) then h else ReadyBelow(c.buckets, h))
    ensures Pop(c).Popped? && Pop(c).sn == k && Carries(c.buckets, Pop(c).chain.buckets, k)
  {
    var b := c.buckets;
    assert forall i | k < i < |b| :: !Ready(b[i], i);
  }

  // ---------- Runs of pushes and pops ----------

  datatype Op<T> = PushOp(sn: nat, item: T) | PopOp

  /** A push names a bucket; a pop finds all buckets nonempty. */
  ghost predicate Legal<T>(c: Chain<T>, op: Op<T>) {
    && WellFormed(c)
    && match op
       case PushOp(sn, x) => sn < |c.buckets|
       case PopOp => AllNonempty(c.buckets)
  }

  ghost function Do<T>(c: Chain<T>, op: Op<T>): (d: Chain<T>)
    requires Legal(c, op)
    ensures WellFormed(d) && |d.buckets| == |c.buckets|
  {
    match op
    case PushOp(sn, x) => PushKeeps(c, sn, x); Push(c, sn, x)
    case PopOp => PopAdvances(c); PopKeeps(c); Pop(c).chain
  }

  ghost predicate Busy<T>(c: Chain<T>, ops: seq<Op<T>>)
    decreases |ops|
  {
    ops == [] || (Legal(c, ops[0]) && Busy(Do(c, ops[0]), ops[1..]))
  }

  ghost function After<T>(c: Chain<T>, ops: seq<Op<T>>): Chain<T>
    requires Busy(c, ops)
    decreases |ops|
  {
    if ops == [] then c else After(Do(c, ops[0]), ops[1..])
  }

  /** How often the run serves bucket i. */
  ghost function Served<T>(c: Chain<T>, ops: seq<Op<T>>, i: nat): nat
    requires Busy(c, ops)
    decreases |ops|
  {
    if ops == [] then 0
    else
      (if ops[0].PopOp? then PopAdvances(c); One(i, Pop(c).sn) else 0) + Served(Do(c, ops[0]), ops[1..], i)
  }

  function Pops<T>(ops: seq<Op<T>>): nat {
    if ops == [] then 0 else (if ops[0].PopOp? then 1 else 0) + Pops(ops[1..])
  }

  lemma {:induction false} SameCountersSameHigh<T>(b: seq<Bucket<T>>, d: seq<Bucket<T>>, n: nat)
    requires n <= |b| == |d| && forall i | 0 <= i < n :: b[i].popCounter == d[i].popCounter
    ensures High(b, n) == High(d, n)
  {
    if n == 0 {
    } else {
      SameCountersSameHigh(b, d, n - 1);
    }
  }

  lemma LessDigit(a: nat, x: nat, b: nat, r: nat)
    requires a < b && x < r
    ensures a * r + x < b * r
  {
    var gap := b - a - 1;
    assert b * r == a * r + r + gap * r;
  }

  lemma SameDigit(a: nat, x: nat, b: nat, y: nat, r: nat)
    requires a * r + x == b * r + y && x < r && y < r
    ensures a == b && x == y
  {
    if a < b {
      LessDigit(a, x, b, r);
    } else if b < a {
      LessDigit(b, y, a, r);
    }
  }

  /** The value determines the counters. */
  lemma {:induction false} HighInjective<T>(b: seq<Bucket<T>>, d: seq<Bucket<T>>, n: nat)
    requires n <= |b| == |d| && CountersInRange(b) && CountersInRange(d)
    requires High(b, n) == High(d, n)
    ensures forall i | 0 <= i < n :: b[i].popCounter == d[i].popCounter
  {
    if n == 0 {
    } else {
      SameDigit(High(b, n - 1), b[n - 1].popCounter, High(d, n - 1), d[n - 1].popCounter, n + 1);
      HighInjective(b, d, n - 1);
    }
  }

  /** x added up w times. */
  function Times(w: nat, x: nat): (r: nat)
    ensures w >= 2 ==> r >= 2 * x
  {
    if w == 0 then 0 else Times(w - 1, x) + x
  }

  /** What a run that popped and served that often did to the counters, given that it wrapped w times. */
  ghost predicate Accounts<T>(b: seq<Bucket<T>>, d: seq<Bucket<T>>, pops: nat, w: nat) {
    && |d| == |b|
    && High(d, |b|) == High(b, |b|) + pops - Times(w, Period(|b|))
    && (w > 0 ==> High(d, |b|) >= 1)
  }

  ghost predicate AccountsFor<T>(b: seq<Bucket<T>>, d: seq<Bucket<T>>, i: nat, served: nat, w: nat)
    requires i < |b| == |d|
  {
    served == Turns(d, i) - Turns(b, i) + Times(w, FullTurns(i))
  }

  lemma {:induction false} RunAccounts<T>(c: Chain<T>, ops: seq<Op<T>>, i: nat) returns (w: nat)
    requires WellFormed(c) && Busy(c, ops) && i < |c.buckets|
    ensures WellFormed(After(c, ops)) && Accounts(c.buckets, After(c, ops).buckets, Pops(ops), w)
    ensures AccountsFor(c.buckets, After(c, ops).buckets, i, Served(c, ops, i), w)
    decreases |ops|
  {
    if ops == [] {
      return 0;
    }
    var m := Do(c, ops[0]);
    var b, n := c.buckets, |c.buckets|;
    w := RunAccounts(m, ops[1..], i);
    if ops[0].PopOp? {
      PopAdvances(c);
      HighBounds(b, n);
      if High(b, n) == Period(n) {
        w := w + 1;
      }
    } else {
      SameCountersSameHigh(b, m.buckets, n);
      SameCountersSameHigh(b, m.buckets, i);
      SameCountersSameHigh(b, m.buckets, i + 1);
    }
  }

  lemma {:induction false} ZeroTurns<T>(b: seq<Bucket<T>>, n: nat, i: nat)
    requires i < n <= |b| && High(b, n) == 0
    ensures High(b, i) == 0 && High(b, i + 1) == 0
  {
    if i + 1 == n {
    } else {
      ZeroTurns(b, n - 1, i);
    }
  }

  /** One full lap: either from zero to the highest value, or once around to where it started. */
  lemma LapShares<T>(b: seq<Bucket<T>>, d: seq<Bucket<T>>, w: nat, i: nat)
    requires CountersInRange(b) && CountersInRange(d) && i < |b|
    requires Accounts(b, d, Period(|b|), w)
    ensures Turns(d, i) - Turns(b, i) + Times(w, FullTurns(i)) == FullTurns(i)
  {
    var n := |b|;
    HighBounds(b, n);
    HighBounds(d, n);
    if w == 0 {
      ZeroTurns(b, n, i);
      HighBounds(d, i);
      HighBounds(d, i + 1);
      FullTurnsAreDifferences(i);
    } else {
      assert w == 1 && Times(1, Period(n)) == Period(n);
      HighInjective(b, d, n);
      SameCountersSameHigh(b, d, i);
      SameCountersSameHigh(b, d, i + 1);
      assert Times(1, FullTurns(i)) == FullTurns(i);
    }
  }

  /**
   * The service shares: among any (B + 1)! - 1 consecutive pops that find all B buckets nonempty,
   * whatever is pushed in between, bucket i is served exactly (i + 1) * (i + 1)! times.
   */
  lemma ExactShares<T>(c: Chain<T>, ops: seq<Op<T>>, i: nat)
    requires WellFormed(c) && Busy(c, ops) && i < |c.buckets|
    requires Pops(ops) == Factorial(|c.buckets| + 1) - 1
    ensures Served(c, ops, i) == (i + 1) * Factorial(i + 1)
  {
    var w := RunAccounts(c, ops, i);
    LapShares(c.buckets, After(c, ops).buckets, w, i);
  }

  /** After such a lap the counters stand where they stood, unless they all started at zero. */
  lemma LapRestoresCounters<T>(c: Chain<T>, ops: seq<Op<T>>, i: nat)
    requires WellFormed(c) && Busy(c, ops) && i < |c.buckets|
    requires Pops(ops) == Factorial(|c.buckets| + 1) - 1
    requires exists j :: 0 <= j < |c.buckets| && c.buckets[j].popCounter > 0
    ensures |After(c, ops).buckets| == |c.buckets|
    ensures After(c, ops).buckets[i].popCounter == c.buckets[i].popCounter
  {
    var b, d, n := c.buckets, After(c, ops).buckets, |c.buckets|;
    var w := RunAccounts(c, ops, i);
    HighBounds(b, n);
    HighBounds(d, n);
    if High(b, n) == 0 {
      var zero: seq<Bucket<T>> := seq(n, k => Bucket([], 0));
      ZeroHigh(zero, n);
      HighInjective(b, zero, n);
      assert false;
    }
    if w == 1 {
      assert Times(1, Period(n)) == Period(n);
      HighInjective(b, d, n);
    }
  }
}
