/** Over every run of the protocol, messages of one priority leave the chain in the order in which they were stored. */
module QueueStoredOrder {
  import opened Common
  import opened Scheduler
  import opened MsgChains
  import MsgHistory
  import opened QueueProtocol
  import opened QueueSteps
  import opened QueueRuns
  import opened QueueSafety
  import opened QueueTheorems
  import opened QueueTimeouts

  /** The message an action stores: that of a put, of a forced put, or of the writer a get takes in. */
  function StoredBy(s: State, a: Action): seq<Message> {
    if !a.Run? || a.t >= |s.threads| then []
    else
      match s.threads[a.t]
      case PutLocked(m) => if s.getters == [] && s.chain.count != s.limit then [m] else []
      case ForceLocked(m) => [m]
      case Checking(side, _, n) =>
        if side == Getting && n < |s.nodes| && !s.nodes[n].timedOut && s.nodes[n].kind.Putter?
        then [s.nodes[n].kind.message] else []
      case _ => []
  }

  /** The message an action takes out: that of a get, or the one a forced put evicts. */
  ghost function LeftBy(s: State, a: Action): seq<Message> {
    if !a.Run? || a.t >= |s.threads| then []
    else
      match s.threads[a.t]
      case GetLocked => if !WellFormed(s.chain) || s.chain.count == 0 then [] else PoppedFrom(s.chain)
      case ForceLocked(m) => if Fits(s, m) then [] else EvictedFrom(s.chain)
      case _ => []
  }

  ghost function PoppedFrom(c: Chain<Message>): seq<Message>
    requires WellFormed(c) && c.count > 0
  {
    TopOfNonempty(c);
    if Pop(c).Popped? then [Pop(c).item] else []
  }

  function EvictedFrom(c: Chain<Message>): seq<Message> {
    var k := Bottom(c.buckets, 0);
    if k < |c.buckets| then [c.buckets[k].items[0]] else []
  }

  ghost function AllStored(s: State, actions: seq<Action>): seq<Message>
    requires Legal(s, actions)
    decreases |actions|
  {
    if actions == [] then [] else StoredBy(s, actions[0]) + AllStored(Apply(s, actions[0]), actions[1..])
  }

  ghost function AllLeft(s: State, actions: seq<Action>): seq<Message>
    requires Legal(s, actions)
    decreases |actions|
  {
    if actions == [] then [] else LeftBy(s, actions[0]) + AllLeft(Apply(s, actions[0]), actions[1..])
  }

  // ---- One action ----

  ghost predicate Loses(c: Chain<Message>, e: Chain<Message>, left: seq<Message>) {
    if left == [] then e == c else |left| == 1 && exists k :: HeadLeft(c, e, k, left[0])
  }

  predicate Gains(e: Chain<Message>, d: Chain<Message>, stored: seq<Message>) {
    if stored == [] then d == e
    else |stored| == 1 && 1 <= stored[0].priority <= |e.buckets| && d == Push(e, Level(stored[0]), stored[0])
  }

  /** An action takes the head of a bucket out or nothing, then stores a message or nothing. */
  ghost predicate Shifts(c: Chain<Message>, d: Chain<Message>, stored: seq<Message>, left: seq<Message>) {
    exists e :: Loses(c, e, left) && Gains(e, d, stored)
  }

  lemma ShiftsInOrder(pushed: seq<Message>, removed: seq<Message>, c: Chain<Message>, d: Chain<Message>,
                      stored: seq<Message>, left: seq<Message>)
    requires MsgHistory.InOrder(pushed, removed, c.buckets) && Shifts(c, d, stored, left)
    ensures MsgHistory.InOrder(pushed + stored, removed + left, d.buckets)
  {
    var e :| Loses(c, e, left) && Gains(e, d, stored);
    if left == [] {
      assert removed + left == removed;
    } else {
      var k :| HeadLeft(c, e, k, left[0]);
      MsgHistory.HeadLeftInOrder(pushed, removed, c, e, k, left[0]);
      assert left == [left[0]];
    }
    if stored == [] {
      assert pushed + stored == pushed;
    } else {
      MsgHistory.PushInOrder(pushed, removed + left, e, stored[0]);
      assert stored == [stored[0]];
    }
  }

  lemma StaysPut(c: Chain<Message>)
    ensures Shifts(c, c, [], [])
  {
    assert Loses(c, c, []) && Gains(c, c, []);
  }

  lemma GainsOne(c: Chain<Message>, m: Message)
    requires 1 <= m.priority <= |c.buckets|
    ensures Shifts(c, Push(c, Level(m), m), [m], [])
  {
    assert Loses(c, c, []) && Gains(c, Push(c, Level(m), m), [m]);
  }

  lemma LosesOne(c: Chain<Message>, d: Chain<Message>, k: nat, x: Message)
    requires HeadLeft(c, d, k, x)
    ensures Shifts(c, d, [], [x])
  {
    assert HeadLeft(c, d, k, [x][0]);
    assert Loses(c, d, [x]) && Gains(d, d, []);
  }

  lemma PutDecideShifts(s: State, t: nat, m: Message)
    requires t < |s.threads| && s.threads[t] == PutLocked(m) && !PutDecide(s, t, m).fault
    ensures Shifts(s.chain, PutDecide(s, t, m).chain, StoredBy(s, Run(t)), [])
  {
    if s.getters == [] && s.chain.count != s.limit {
      GainsOne(s.chain, m);
    } else {
      StaysPut(s.chain);
    }
  }

  lemma GetDecideShifts(s: State, t: nat)
    requires t < |s.threads| && s.threads[t] == GetLocked && WellFormed(s.chain)
    ensures Shifts(s.chain, GetDecide(s, t).chain, [], LeftBy(s, Run(t)))
  {
    StaysPut(s.chain);
    if s.chain.count > 0 { PopShifts(s.chain); }
  }

  lemma PopShifts(c: Chain<Message>)
    requires WellFormed(c) && c.count > 0
    ensures Top(c.buckets) >= 0 && (Pop(c).Popped? ==> Shifts(c, Pop(c).chain, [], PoppedFrom(c)))
  {
    PopKeeps(c);
    var p := Pop(c);
    if p.Popped? { LosesOne(c, p.chain, p.sn, p.item); }
  }

  lemma GetRefillLeavesChain(s: State, t: nat, m: Message)
    requires t < |s.threads|
    ensures GetRefill(s, t, m).chain == s.chain
  {
  }

  lemma ForceStoreShifts(s: State, t: nat, m: Message)
    requires t < |s.threads| && s.threads[t] == ForceLocked(m) && WellFormed(s.chain) && !ForceStore(s, t, m).fault
    ensures Shifts(s.chain, ForceStore(s, t, m).chain, [m], LeftBy(s, Run(t)))
  {
    if Fits(s, m) {
      GainsOne(s.chain, m);
    } else {
      ForceReplacesShifts(s, t, m);
    }
  }

  lemma ForceReplacesShifts(s: State, t: nat, m: Message)
    requires t < |s.threads| && WellFormed(s.chain) && !ForceReplaces(s, t, m).fault
    ensures Shifts(s.chain, ForceReplaces(s, t, m).chain, [m], EvictedFrom(s.chain))
  {
    EvictShifts(s.chain, m);
  }

  lemma EvictShifts(c: Chain<Message>, m: Message)
    requires WellFormed(c) && c.count > 0 && 1 <= m.priority <= |c.buckets|
    ensures Bottom(c.buckets, 0) < |c.buckets|
    ensures Shifts(c, Push(Evict(c), m.priority - 1, m), [m], EvictedFrom(c))
  {
    EvictKeeps(c);
    var k, e := Bottom(c.buckets, 0), Evict(c);
    assert HeadLeft(c, e, k, EvictedFrom(c)[0]);
    assert Loses(c, e, EvictedFrom(c)) && Gains(e, Push(e, Level(m), m), [m]);
  }

  lemma ServeShifts(s: State, t: nat, side: Side, m: Message, n: nat)
    requires t < |s.threads| && n < |s.nodes| && s.threads[t] == Checking(side, m, n) && !Serve(s, t, side, m, n).fault
    ensures Shifts(s.chain, Serve(s, t, side, m, n).chain, StoredBy(s, Run(t)), [])
  {
    StaysPut(s.chain);
    if side == Getting && !s.nodes[n].timedOut && s.nodes[n].kind.Putter? {
      GainsOne(s.chain, s.nodes[n].kind.message);
    }
  }

  lemma OtherNodeStepLeavesChain(s: State, t: nat, n: nat)
    requires t < |s.threads| && n < |s.nodes| && NodeOf(s.threads[t]) == Some(n) && !s.threads[t].Checking?
    ensures StepNode(s, t, n).chain == s.chain
  {
  }

  lemma FreeStepShifts(s: State, t: nat)
    requires t < |s.threads| && NodeOf(s.threads[t]) == None && WellFormed(s.chain) && !Step(s, t).fault
    ensures Shifts(s.chain, Step(s, t).chain, StoredBy(s, Run(t)), LeftBy(s, Run(t)))
  {
    var pc := s.threads[t];
    StaysPut(s.chain);
    if pc.PutLocked? {
      PutDecideShifts(s, t, pc.m);
    } else if pc.GetLocked? {
      GetDecideShifts(s, t);
    } else if pc.GetPopped? {
      GetRefillLeavesChain(s, t, pc.m);
    } else if pc.ForceLocked? {
      ForceStoreShifts(s, t, pc.m);
    }
  }

  lemma NodeStepShifts(s: State, t: nat, n: nat)
    requires t < |s.threads| && n < |s.nodes| && NodeOf(s.threads[t]) == Some(n) && !StepNode(s, t, n).fault
    ensures Shifts(s.chain, StepNode(s, t, n).chain, StoredBy(s, Run(t)), LeftBy(s, Run(t)))
  {
    match s.threads[t]
    case Checking(side, m, _) => ServeShifts(s, t, side, m, n);
    case _ =>
      OtherNodeStepLeavesChain(s, t, n);
      StaysPut(s.chain);
  }

  lemma RunStepShifts(s: State, t: nat)
    requires Inv(s) && t < |s.threads| && CanRun(s, s.threads[t])
    ensures Shifts(s.chain, Step(s, t).chain, StoredBy(s, Run(t)), LeftBy(s, Run(t)))
  {
    match NodeOf(s.threads[t])
    case None =>
      StepKeeps(s, t);
      FreeStepShifts(s, t);
    case Some(n) =>
      StepNodeKeeps(s, t, n);
      StepAtNode(s, t, n);
      NodeStepShifts(s, t, n);
  }

  lemma ActionShifts(s: State, a: Action)
    requires Inv(s) && Enabled(s, a)
    ensures Shifts(s.chain, Apply(s, a).chain, StoredBy(s, a), LeftBy(s, a))
  {
    if a.Run? {
      RunStepShifts(s, a.t);
    } else {
      StaysPut(s.chain);
    }
  }

  // ---- Runs ----

  lemma ActionInOrder(s: State, a: Action, pushed: seq<Message>, removed: seq<Message>)
    requires Inv(s) && Enabled(s, a) && MsgHistory.InOrder(pushed, removed, s.chain.buckets)
    ensures MsgHistory.InOrder(pushed + StoredBy(s, a), removed + LeftBy(s, a), Apply(s, a).chain.buckets)
  {
    ActionShifts(s, a);
    ShiftsInOrder(pushed, removed, s.chain, Apply(s, a).chain, StoredBy(s, a), LeftBy(s, a));
  }

  lemma Regroup(x: seq<Message>, y: seq<Message>, z: seq<Message>)
    ensures (x + y) + z == x + (y + z)
  {
  }

  lemma {:induction false} RunStoresInOrder(s: State, actions: seq<Action>, pushed: seq<Message>, removed: seq<Message>)
    requires Inv(s) && Legal(s, actions) && MsgHistory.InOrder(pushed, removed, s.chain.buckets)
    ensures MsgHistory.InOrder(pushed + AllStored(s, actions), removed + AllLeft(s, actions),
                               ApplyAll(s, actions).chain.buckets)
    decreases |actions|
  {
    if actions == [] {
      assert pushed + [] == pushed && removed + [] == removed;
    } else {
      var a, s', rest := actions[0], Apply(s, actions[0]), actions[1..];
      ActionInOrder(s, a, pushed, removed);
      ApplyKeeps(s, a);
      RunStoresInOrder(s', rest, pushed + StoredBy(s, a), removed + LeftBy(s, a));
      Regroup(pushed, StoredBy(s, a), AllStored(s', rest));
      Regroup(removed, LeftBy(s, a), AllLeft(s', rest));
    }
  }

  /**
   * Over every run and at every priority: what the run stored in the chain, by puts, forced puts and blocked
   * writers taken in, is what gets and evictions took out, in that order, followed by what the bucket holds.
   */
  lemma StoredInOrder(limit: nat, levels: nat, threadCount: nat, actions: seq<Action>, s: State, p: int)
    requires Reached(limit, levels, threadCount, actions, s) && 1 <= p <= |s.chain.buckets|
    ensures var start := Start(limit, levels, threadCount);
      MsgHistory.AtPriority(AllStored(start, actions), p)
      == MsgHistory.AtPriority(AllLeft(start, actions), p) + s.chain.buckets[p - 1].items
  {
    var start := Start(limit, levels, threadCount);
    StartKeeps(limit, levels, threadCount);
    RunStoresInOrder(start, actions, [], []);
    assert [] + AllStored(start, actions) == AllStored(start, actions);
    assert [] + AllLeft(start, actions) == AllLeft(start, actions);
    assert MsgHistory.InOrderAt(AllStored(start, actions), AllLeft(start, actions), s.chain.buckets[p - 1].items, p);
  }
}
