/** Whole runs of a message chain: what was pushed, popped and evicted, and how a pop can abort. */
module MsgHistory {
  import opened Scheduler
  import opened MsgChains

  datatype Op = PushMsg(message: Message) | PopMsg | ForcePush(message: Message)

  /** The chain after some operations, with everything ever pushed and removed, oldest first. */
  datatype Run = Run(limit: nat, chain: Chain<Message>, pushed: seq<Message>, removed: seq<Message>,
                     popped: seq<Message>, evicted: seq<Message>)

  function Start(limit: nat, levels: nat): Run {
    Run(limit, Fresh(levels), [], [], [], [])
  }

  /** The operation passes its assertions; for a pop that includes the walk staying in the array. */
  ghost predicate Allowed(r: Run, op: Op) {
    && WellFormed(r.chain)
    && match op
       case PopMsg => r.chain.count > 0 && (TopOfNonempty(r.chain); !IsStuck(r.chain))
       case PushMsg(m) => 1 <= m.priority <= |r.chain.buckets| && r.chain.count < r.limit
       case ForcePush(m) => 1 <= m.priority <= |r.chain.buckets| && r.limit > 0
  }

  function Pushed(r: Run, m: Message): Run
    requires 1 <= m.priority <= |r.chain.buckets|
  {
    r.(chain := Push(r.chain, Level(m), m), pushed := r.pushed + [m])
  }

  ghost function Do(r: Run, op: Op): Run
    requires Allowed(r, op)
  {
    match op
    case PushMsg(m) => Pushed(r, m)
    case PopMsg =>
      TopOfNonempty(r.chain);
      var p := Pop(r.chain);
      r.(chain := p.chain, removed := r.removed + [p.item], popped := r.popped + [p.item])
    case ForcePush(m) =>
      if r.chain.count < r.limit then Pushed(r, m)
      else
        EvictKeeps(r.chain);
        var x := r.chain.buckets[Bottom(r.chain.buckets, 0)].items[0];
        Pushed(r.(chain := Evict(r.chain), removed := r.removed + [x], evicted := r.evicted + [x]), m)
  }

  ghost predicate AllowedAll(r: Run, ops: seq<Op>)
    decreases |ops|
  {
    ops == [] || (Allowed(r, ops[0]) && AllowedAll(Do(r, ops[0]), ops[1..]))
  }

  ghost function DoAll(r: Run, ops: seq<Op>): Run
    requires AllowedAll(r, ops)
    decreases |ops|
  {
    if ops == [] then r else DoAll(Do(r, ops[0]), ops[1..])
  }

  function AtPriority(s: seq<Message>, p: int): seq<Message> {
    if s == [] then []
    else AtPriority(s[..|s| - 1], p) + if s[|s| - 1].priority == p then [s[|s| - 1]] else []
  }

  /** At priority p: what was removed, followed by what is stored, is what was pushed, in that order. */
  predicate InOrderAt(pushed: seq<Message>, removed: seq<Message>, items: seq<Message>, p: int) {
    && AtPriority(pushed, p) == AtPriority(removed, p) + items
    && forall m | m in items :: m.priority == p
  }

  predicate InOrder(pushed: seq<Message>, removed: seq<Message>, b: seq<Bucket<Message>>) {
    forall i | 0 <= i < |b| :: InOrderAt(pushed, removed, b[i].items, i + 1)
  }

  ghost predicate Counted(r: Run) {
    && WellFormed(r.chain)
    && r.chain.count <= r.limit
    && multiset(r.pushed) == multiset(r.removed) + Stored(r.chain.buckets)
    && multiset(r.removed) == multiset(r.popped) + multiset(r.evicted)
  }

  ghost predicate Balanced(r: Run) {
    Counted(r) && InOrder(r.pushed, r.removed, r.chain.buckets)
  }

  lemma PushInOrder(pushed: seq<Message>, removed: seq<Message>, c: Chain<Message>, m: Message)
    requires InOrder(pushed, removed, c.buckets) && 1 <= m.priority <= |c.buckets|
    ensures InOrder(pushed + [m], removed, Push(c, Level(m), m).buckets)
  {
    var b, d := c.buckets, Push(c, Level(m), m).buckets;
    forall i | 0 <= i < |d|
      ensures InOrderAt(pushed + [m], removed, d[i].items, i + 1)
    {
      assert InOrderAt(pushed, removed, b[i].items, i + 1);
    }
  }

  lemma HeadLeftInOrder(pushed: seq<Message>, removed: seq<Message>, c: Chain<Message>, d: Chain<Message>, k: nat,
                        x: Message)
    requires InOrder(pushed, removed, c.buckets) && HeadLeft(c, d, k, x)
    ensures InOrder(pushed, removed + [x], d.buckets)
  {
    var b := c.buckets;
    assert InOrderAt(pushed, removed, b[k].items, k + 1) && x in b[k].items;
    forall i | 0 <= i < |b|
      ensures InOrderAt(pushed, removed + [x], d.buckets[i].items, i + 1)
    {
      assert InOrderAt(pushed, removed, b[i].items, i + 1);
    }
  }

  lemma PushedBalanced(r: Run, m: Message)
    requires Balanced(r) && 1 <= m.priority <= |r.chain.buckets| && r.chain.count < r.limit
    ensures Balanced(Pushed(r, m))
  {
    PushInOrder(r.pushed, r.removed, r.chain, m);
    PushKeeps(r.chain, Level(m), m);
  }

  lemma RemovedBalanced(r: Run, s: Run, k: nat, x: Message)
    requires Balanced(r) && HeadLeft(r.chain, s.chain, k, x) && WellFormed(s.chain)
    requires s.chain.count <= r.limit == s.limit && s.pushed == r.pushed && s.removed == r.removed + [x]
    requires multiset(s.removed) == multiset(s.popped) + multiset(s.evicted)
    ensures Balanced(s)
  {
    HeadLeftInOrder(r.pushed, r.removed, r.chain, s.chain, k, x);
    HeadLeftStored(r.chain, s.chain, k, x);
  }

  lemma PoppedBalanced(r: Run)
    requires Balanced(r) && Allowed(r, PopMsg)
    ensures Balanced(Do(r, PopMsg))
    ensures |Do(r, PopMsg).chain.buckets| == |r.chain.buckets| && Do(r, PopMsg).limit == r.limit
  {
    PopKeeps(r.chain);
    var p := Pop(r.chain);
    RemovedBalanced(r, Do(r, PopMsg), p.sn, p.item);
  }

  lemma DoBalanced(r: Run, op: Op)
    requires Balanced(r) && Allowed(r, op)
    ensures Balanced(Do(r, op))
    ensures |Do(r, op).chain.buckets| == |r.chain.buckets| && Do(r, op).limit == r.limit
  {
    match op
    case PushMsg(m) => PushedBalanced(r, m);
    case PopMsg => PoppedBalanced(r);
    case ForcePush(m) =>
      if r.chain.count < r.limit {
        PushedBalanced(r, m);
      } else {
        ForcedBalanced(r, m);
      }
  }

  lemma ForcedBalanced(r: Run, m: Message)
    requires Balanced(r) && Allowed(r, ForcePush(m)) && r.chain.count == r.limit
    ensures Balanced(Do(r, ForcePush(m)))
    ensures |Do(r, ForcePush(m)).chain.buckets| == |r.chain.buckets|
  {
    EvictKeeps(r.chain);
    var k := Bottom(r.chain.buckets, 0);
    var x := r.chain.buckets[k].items[0];
    var s := r.(chain := Evict(r.chain), removed := r.removed + [x], evicted := r.evicted + [x]);
    assert multiset(s.removed) == multiset(r.removed) + multiset{x};
    assert multiset(s.evicted) == multiset(r.evicted) + multiset{x};
    RemovedBalanced(r, s, k, x);
    PushedBalanced(s, m);
    assert Do(r, ForcePush(m)) == Pushed(s, m);
  }

  lemma {:induction false} RunBalanced(r: Run, ops: seq<Op>)
    requires Balanced(r) && AllowedAll(r, ops)
    ensures Balanced(DoAll(r, ops)) && DoAll(r, ops).limit == r.limit
    decreases |ops|
  {
    if ops == [] {
    } else {
      DoBalanced(r, ops[0]);
      RunBalanced(Do(r, ops[0]), ops[1..]);
    }
  }

  /**
   * Conservation over every run that starts with an empty chain: what is stored is what was pushed
   * minus pops minus evictions, the limit holds, and removals at each priority are a prefix of its pushes.
   */
  lemma Conservation(limit: nat, levels: nat, ops: seq<Op>, p: int)
    requires levels > 0 && AllowedAll(Start(limit, levels), ops)
    ensures var r := DoAll(Start(limit, levels), ops);
      && r.chain.count == |Stored(r.chain.buckets)| <= limit
      && multiset(r.pushed) == multiset(r.popped) + multiset(r.evicted) + Stored(r.chain.buckets)
      && (1 <= p <= |r.chain.buckets| ==> AtPriority(r.removed, p) <= AtPriority(r.pushed, p))
  {
    FreshWellFormed<Message>(levels);
    RunBalanced(Start(limit, levels), ops);
    var r := DoAll(Start(limit, levels), ops);
    if 1 <= p <= |r.chain.buckets| {
      assert InOrderAt(r.pushed, r.removed, r.chain.buckets[p - 1].items, p);
    }
  }

  /**
   * After every run a forced push on a full chain gives up one message, and no stored message has a lower
   * priority than that one.
   */
  lemma EvictsLowestPriority(limit: nat, levels: nat, ops: seq<Op>, m: Message, other: Message)
    requires levels > 0 && AllowedAll(Start(limit, levels), ops)
    requires var r := DoAll(Start(limit, levels), ops);
      Allowed(r, ForcePush(m)) && r.chain.count == limit && other in Stored(r.chain.buckets)
    ensures var r := DoAll(Start(limit, levels), ops); var r' := Do(r, ForcePush(m));
      |r'.evicted| == |r.evicted| + 1 && r'.evicted[|r.evicted|].priority <= other.priority
  {
    FreshWellFormed<Message>(levels);
    RunBalanced(Start(limit, levels), ops);
    EvictsBottom(DoAll(Start(limit, levels), ops), m, other);
  }

  lemma EvictsBottom(r: Run, m: Message, other: Message)
    requires Balanced(r) && Allowed(r, ForcePush(m)) && r.chain.count == r.limit
    requires other in Stored(r.chain.buckets)
    ensures |Do(r, ForcePush(m)).evicted| == |r.evicted| + 1
    ensures Do(r, ForcePush(m)).evicted[|r.evicted|].priority <= other.priority
  {
    EvictKeeps(r.chain);
    var k := Bottom(r.chain.buckets, 0);
    var b := r.chain.buckets;
    var i := HomeOf(b, other);
    assert InOrderAt(r.pushed, r.removed, b[k].items, k + 1) && InOrderAt(r.pushed, r.removed, b[i].items, i + 1);
    assert b[k].items[0] in b[k].items;
  }

  // ---------- The abort is reachable ----------

  /** t messages of the top priority and m of priority 2, with these pop counters, and nothing else. */
  ghost predicate Shape(c: Chain<Message>, levels: nat, t: nat, m: nat, ct: nat, cm: nat) {
    && WellFormed(c) && 3 <= levels == |c.buckets| && c.count == t + m
    && |c.buckets[levels - 1].items| == t && c.buckets[levels - 1].popCounter == ct
    && |c.buckets[1].items| == m && c.buckets[1].popCounter == cm
    && forall i | 0 <= i < levels && i != 1 && i != levels - 1 :: c.buckets[i] == Bucket([], 0)
  }

  ghost predicate Leads(from: Run, ops: seq<Op>, to: Run) {
    AllowedAll(from, ops) && DoAll(from, ops) == to
  }

  lemma TailOfAppend(ops: seq<Op>, op: Op)
    requires ops != []
    ensures ops + [op] == [ops[0]] + (ops[1..] + [op])
  {
  }

  lemma {:induction false} LeadsOn(from: Run, ops: seq<Op>, mid: Run, op: Op)
    requires Leads(from, ops, mid) && Allowed(mid, op)
    ensures Leads(from, ops + [op], Do(mid, op))
    decreases |ops|
  {
    if ops == [] {
      assert ops + [op] == [op] + [];
    } else {
      LeadsOn(Do(from, ops[0]), ops[1..], mid, op);
      TailOfAppend(ops, op);
    }
  }

  lemma ShapePush(r: Run, levels: nat, t: nat, m: nat, top: bool)
    requires Shape(r.chain, levels, t, m, 0, 0) && r.chain.count < r.limit
    ensures var op := PushMsg(Message(0, if top then levels else 2));
      && Allowed(r, op) && Do(r, op).limit == r.limit
      && Shape(Do(r, op).chain, levels, if top then t + 1 else t, if top then m else m + 1, 0, 0)
  {
    var x := Message(0, if top then levels else 2);
    PushKeeps(r.chain, Level(x), x);
  }

  lemma ShapePop(r: Run, levels: nat, t: nat, m: nat, ct: nat, cm: nat)
    requires Shape(r.chain, levels, t, m, ct, cm) && t > 0 && m > 0
    requires ct < levels || (ct == levels && cm < 2)
    ensures Allowed(r, PopMsg)
    ensures var c := Do(r, PopMsg).chain;
      if ct < levels then Shape(c, levels, t - 1, m, ct + 1, cm) else Shape(c, levels, t, m - 1, 0, cm + 1)
  {
    var c := r.chain;
    PopKeeps(c);
    assert Top(c.buckets) == levels - 1;
    if ct == levels {
      assert Ready(c.buckets[1], 1) && ReadyBelow(c.buckets, levels - 1) == 1;
    }
  }

  /** Pops until the top bucket has had its share. */
  lemma {:induction false} ShapePops(start: Run, ops0: seq<Op>, r0: Run, levels: nat, t: nat, m: nat, ct: nat, cm: nat)
    returns (ops: seq<Op>, r: Run)
    requires Leads(start, ops0, r0) && Shape(r0.chain, levels, t, m, ct, cm) && m > 0
    requires ct <= levels && t > levels - ct
    ensures Leads(start, ops, r) && Shape(r.chain, levels, t - (levels - ct), m, levels, cm)
    ensures |ops| == |ops0| + levels - ct
    decreases levels - ct
  {
    if ct == levels {
      return ops0, r0;
    }
    ShapePop(r0, levels, t, m, ct, cm);
    LeadsOn(start, ops0, r0, PopMsg);
    ops, r := ShapePops(start, ops0 + [PopMsg], Do(r0, PopMsg), levels, t - 1, m, ct + 1, cm);
  }

  lemma {:induction false} ShapePushes(start: Run, ops0: seq<Op>, r0: Run, levels: nat, t: nat, m: nat, n: nat,
                                       top: bool)
    returns (ops: seq<Op>, r: Run)
    requires Leads(start, ops0, r0) && Shape(r0.chain, levels, t, m, 0, 0) && r0.limit >= t + m + n
    ensures Leads(start, ops, r) && r.limit == r0.limit && |ops| == |ops0| + n
    ensures if top then Shape(r.chain, levels, t + n, m, 0, 0) else Shape(r.chain, levels, t, m + n, 0, 0)
    decreases n
  {
    if n == 0 {
      return ops0, r0;
    }
    var op := PushMsg(Message(0, if top then levels else 2));
    ShapePush(r0, levels, t, m, top);
    LeadsOn(start, ops0, r0, op);
    if top {
      ops, r := ShapePushes(start, ops0 + [op], Do(r0, op), levels, t + 1, m, n - 1, top);
    } else {
      ops, r := ShapePushes(start, ops0 + [op], Do(r0, op), levels, t, m + 1, n - 1, top);
    }
  }

  /** A full share of the top bucket, then one message of priority 2. */
  lemma ShapeTurn(start: Run, ops0: seq<Op>, r0: Run, levels: nat, t: nat, m: nat, cm: nat)
    returns (ops: seq<Op>, r: Run)
    requires Leads(start, ops0, r0) && Shape(r0.chain, levels, t, m, 0, cm) && t > levels && m > 0 && cm < 2
    ensures Leads(start, ops, r) && Shape(r.chain, levels, t - levels, m - 1, 0, cm + 1)
    ensures |ops| == |ops0| + levels + 1
  {
    ops, r := ShapePops(start, ops0, r0, levels, t, m, 0, cm);
    ShapePop(r, levels, t - levels, m, levels, cm);
    LeadsOn(start, ops, r, PopMsg);
    ops, r := ops + [PopMsg], Do(r, PopMsg);
  }

  lemma ShapeStuck(c: Chain<Message>, levels: nat, t: nat, m: nat)
    requires Shape(c, levels, t, m, levels, 2) && t > 0 && m > 0
    ensures c.count > 0 && Top(c.buckets) >= 0 && IsStuck(c)
  {
    TopOfNonempty(c);
    assert Top(c.buckets) == levels - 1;
  }

  lemma ShapeLoaded(limit: nat, levels: nat) returns (ops: seq<Op>, r: Run)
    requires levels >= 3 && limit >= 3 * levels + 4
    ensures Leads(Start(limit, levels), ops, r) && |ops| == 3 * levels + 4
    ensures Shape(r.chain, levels, 3 * levels + 1, 3, 0, 0)
  {
    var start := Start(limit, levels);
    FreshWellFormed<Message>(levels);
    ops, r := ShapePushes(start, [], start, levels, 0, 0, 3 * levels + 1, true);
    ops, r := ShapePushes(start, ops, r, levels, 3 * levels + 1, 0, 3, false);
  }

  /**
   * With three or more priority levels the assertion inside the walk is reachable by plain pushes and
   * pops; with three levels: ten messages of priority 3, three of priority 2, then the twelfth pop.
   */
  lemma AbortReachable(limit: nat, levels: nat) returns (ops: seq<Op>)
    requires levels >= 3 && limit >= 3 * levels + 4
    ensures AllowedAll(Start(limit, levels), ops) && |ops| == (3 * levels + 4) + (3 * levels + 2)
    ensures var c := DoAll(Start(limit, levels), ops).chain;
      c.count > 0 && Top(c.buckets) >= 0 && IsStuck(c)
  {
    var start, t := Start(limit, levels), 3 * levels + 1;
    var r;
    ops, r := ShapeLoaded(limit, levels);
    ops, r := ShapeTurn(start, ops, r, levels, t, 3, 0);
    ops, r := ShapeTurn(start, ops, r, levels, t - levels, 2, 1);
    ops, r := ShapePops(start, ops, r, levels, t - 2 * levels, 1, 0, 2);
    ShapeStuck(r.chain, levels, t - 3 * levels, 1);
  }
}
