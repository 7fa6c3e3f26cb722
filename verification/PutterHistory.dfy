/** Whole runs of the putter chain: pushes, pops and removals of timed-out writers in any order. */
module PutterHistory {
  import opened Scheduler

  datatype Op = Arrive(level: nat) | Serve | GiveUp(id: nat)

  /** Writers are numbered by arrival; arrived[id] is the bucket of writer id. */
  datatype Run = Run(chain: Chain<nat>, arrived: seq<nat>, gone: set<nat>)

  function Start(levels: nat): Run { Run(Fresh(levels), [], {}) }

  ghost predicate Allowed(r: Run, op: Op) {
    && WellFormed(r.chain)
    && match op
       case Arrive(level) => level < |r.chain.buckets|
       case Serve => r.chain.count > 0 ==> (TopOfNonempty(r.chain); !IsStuck(r.chain))
       case GiveUp(id) => id < |r.arrived| && r.arrived[id] < |r.chain.buckets|
  }

  ghost function Do(r: Run, op: Op): Run
    requires Allowed(r, op)
  {
    match op
    case Arrive(level) =>
      r.(chain := Push(r.chain, level, |r.arrived|), arrived := r.arrived + [level])
    case Serve =>
      if r.chain.count == 0 then r
      else
        TopOfNonempty(r.chain);
        var p := Pop(r.chain);
        r.(chain := p.chain, gone := r.gone + {p.item})
    case GiveUp(id) =>
      // a writer that was popped has no list entry and is not removed again
      var sn := r.arrived[id];
      if id in r.chain.buckets[sn].items then
        RemoveKeeps(r.chain, sn, id);
        r.(chain := Remove(r.chain, sn, id), gone := r.gone + {id})
      else r
  }

  ghost predicate AllowedAll(r: Run, ops: seq<Op>)
    decreases |ops|
  {
    ops == [] || (Allowed(r, ops[0]) && AllowedAll(Do(r, ops[0]), ops[1..]))
  }

  ghost function DoAll(r: Run, ops: seq<Op>): Run
    requires AllowedAll(r, ops)
    decreases |ops|
  {
    if ops == [] then r else DoAll(Do(r, ops[0]), ops[1..])
  }

  /** The writers of one level that are not gone, in order of arrival. */
  function Waiting(arrived: seq<nat>, gone: set<nat>, level: nat): (s: seq<nat>)
    ensures forall x | x in s :: x < |arrived| && x !in gone && arrived[x] == level
    ensures forall i, j | 0 <= i < j < |s| :: s[i] < s[j]
  {
    if arrived == [] then []
    else
      var n := |arrived| - 1;
      var s := Waiting(arrived[..n], gone, level);
      assert forall x | x in s :: arrived[x] == arrived[..n][x];
      assert forall i | 0 <= i < |s| :: s[i] in s && s[i] < n;
      if arrived[n] == level && n !in gone then s + [n] else s
  }

  lemma WaitingArrive(arrived: seq<nat>, gone: set<nat>, level: nat, k: nat)
    requires |arrived| !in gone
    ensures Waiting(arrived + [level], gone, k)
         == Waiting(arrived, gone, k) + if level == k then [|arrived|] else []
  {
    assert (arrived + [level])[..|arrived|] == arrived;
  }

  lemma {:induction false} WithoutAppend(s: seq<nat>, y: nat, x: nat)
    requires y !in s
    ensures Without(s + [y], x) == if x == y then s else Without(s, x) + [y]
  {
    if s == [] {
    } else {
      assert (s + [y])[1..] == s[1..] + [y];
      WithoutAppend(s[1..], y, x);
      assert s == [s[0]] + s[1..];
    }
  }

  lemma {:induction false} WaitingLeave(arrived: seq<nat>, gone: set<nat>, level: nat, x: nat)
    ensures Waiting(arrived, gone + {x}, level) == Without(Waiting(arrived, gone, level), x)
  {
    if arrived == [] {
    } else {
      var n := |arrived| - 1;
      var s := Waiting(arrived[..n], gone, level);
      assert n !in s;
      WaitingLeave(arrived[..n], gone, level, x);
      if arrived[n] == level && n !in gone {
        assert Waiting(arrived, gone, level) == s + [n];
        WithoutAppend(s, n, x);
      } else {
        assert Waiting(arrived, gone, level) == s;
      }
    }
  }

  /** Each bucket holds exactly the surviving writers of its level, in order of arrival. */
  ghost predicate InOrder(r: Run) {
    && WellFormed(r.chain)
    && (forall x | x in r.gone :: x < |r.arrived|)
    && forall k | 0 <= k < |r.chain.buckets| :: r.chain.buckets[k].items == Waiting(r.arrived, r.gone, k)
  }

  lemma LeaveInOrder(r: Run, c: Chain<nat>, sn: nat, x: nat)
    requires InOrder(r) && WellFormed(c) && |c.buckets| == |r.chain.buckets| && sn < |c.buckets|
    requires x in r.chain.buckets[sn].items
    requires c.buckets[sn].items == Without(r.chain.buckets[sn].items, x)
    requires forall i | 0 <= i < |c.buckets| && i != sn :: c.buckets[i].items == r.chain.buckets[i].items
    ensures InOrder(r.(chain := c, gone := r.gone + {x}))
  {
    forall k | 0 <= k < |c.buckets|
      ensures c.buckets[k].items == Waiting(r.arrived, r.gone + {x}, k)
    {
      WaitingLeave(r.arrived, r.gone, k, x);
    }
  }

  lemma DoInOrder(r: Run, op: Op)
    requires InOrder(r) && Allowed(r, op)
    ensures InOrder(Do(r, op))
  {
    match op
    case Arrive(level) =>
      PushKeeps(r.chain, level, |r.arrived|);
      forall k | 0 <= k < |r.chain.buckets|
        ensures Do(r, op).chain.buckets[k].items == Waiting(r.arrived + [level], r.gone, k)
      {
        WaitingArrive(r.arrived, r.gone, level, k);
      }
    case Serve =>
      if r.chain.count > 0 {
        PopKeeps(r.chain);
        var p := Pop(r.chain);
        assert HeadLeft(r.chain, p.chain, p.sn, p.item);
        LeaveInOrder(r, p.chain, p.sn, p.item);
      }
    case GiveUp(id) =>
      var sn := r.arrived[id];
      if id in r.chain.buckets[sn].items {
        RemoveKeeps(r.chain, sn, id);
        LeaveInOrder(r, Remove(r.chain, sn, id), sn, id);
      }
  }

  lemma {:induction false} RunInOrder(r: Run, ops: seq<Op>)
    requires InOrder(r) && AllowedAll(r, ops)
    ensures InOrder(DoAll(r, ops))
    decreases |ops|
  {
    if ops == [] {
    } else {
      DoInOrder(r, ops[0]);
      RunInOrder(Do(r, ops[0]), ops[1..]);
    }
  }

  /**
   * Over every mix of arrivals, pops and removals: the count is the total of the bucket lengths, the
   * cursor is not below the highest nonempty bucket, each counter is in range, and every bucket holds
   * the surviving writers of its priority in order of arrival.
   */
  lemma ArrivalOrder(levels: nat, ops: seq<Op>)
    requires levels > 0 && AllowedAll(Start(levels), ops)
    ensures var r := DoAll(Start(levels), ops);
      && r.chain.count == |Stored(r.chain.buckets)|
      && Top(r.chain.buckets) <= r.chain.cursor < |r.chain.buckets|
      && CountersInRange(r.chain.buckets)
      && forall k | 0 <= k < |r.chain.buckets| :: r.chain.buckets[k].items == Waiting(r.arrived, r.gone, k)
  {
    FreshWellFormed<nat>(levels);
    RunInOrder(Start(levels), ops);
    TopOfNonempty(DoAll(Start(levels), ops).chain);
  }
}
