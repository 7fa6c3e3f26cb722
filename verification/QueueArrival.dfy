/** Waiters are served in the order in which they came: the lists of the protocol over every run. */
module QueueArrival {
  import opened Common
  import opened Scheduler
  import opened MsgChains
  import opened QueueProtocol
  import opened QueueStructure
  import opened QueueSteps
  import opened QueueRuns
  import opened QueueSafety
  import opened QueueTheorems
  import opened QueueTimeouts

  // Waiters are numbered in the order in which they register: each new one is nodes[|nodes|].

  /** A list of waiters, all of the first n, each registered before those behind it. */
  ghost predicate Ascending(q: seq<nat>, n: nat) {
    && (forall i, j | 0 <= i < j < |q| :: q[i] < q[j])
    && forall i | 0 <= i < |q| :: q[i] < n
  }

  ghost predicate AllAscending(b: seq<Bucket<nat>>, n: nat) {
    forall k | 0 <= k < |b| :: Ascending(b[k].items, n)
  }

  ghost predicate InTurn(s: State) {
    Ascending(s.getters, |s.nodes|) && AllAscending(s.putters.buckets, |s.nodes|)
  }

  lemma AppendNew(q: seq<nat>, n: nat)
    requires Ascending(q, n)
    ensures Ascending(q + [n], n + 1)
  {
  }

  lemma CutAscending(q: seq<nat>, n: nat, k: nat)
    requires Ascending(q, n) && k < |q|
    ensures Ascending(q[..k] + q[k + 1..], n) && q[k] !in q[..k]
  {
    var r := q[..k] + q[k + 1..];
    assert forall i | 0 <= i < |r| :: r[i] == if i < k then q[i] else q[i + 1];
  }

  lemma WithoutAscending(q: seq<nat>, n: nat, x: nat)
    requires Ascending(q, n)
    ensures Ascending(Without<nat>(q, x), n)
  {
    if x in q {
      var k: nat :| k < |q| && q[k] == x;
      CutAscending(q, n, k);
      WithoutIsCut<nat>(q, x, k);
    }
  }

  lemma PushAscending(c: Chain<nat>, sn: nat, n: nat)
    requires AllAscending(c.buckets, n) && sn < |c.buckets|
    ensures AllAscending(Push<nat>(c, sn, n).buckets, n + 1)
  {
    var b, d := c.buckets, Push<nat>(c, sn, n).buckets;
    forall k | 0 <= k < |b| ensures Ascending(d[k].items, n + 1) {
      assert Ascending(b[k].items, n);
      AppendNew(b[k].items, n);
    }
  }

  lemma RemoveAscending(c: Chain<nat>, sn: nat, x: nat, n: nat)
    requires AllAscending(c.buckets, n) && sn < |c.buckets| && c.count > 0
    ensures AllAscending(Remove<nat>(c, sn, x).buckets, n)
  {
    var b, d := c.buckets, Remove<nat>(c, sn, x).buckets;
    WithoutAscending(b[sn].items, n, x);
    forall k | 0 <= k < |b| ensures Ascending(d[k].items, n) {
      assert Ascending(b[k].items, n);
    }
  }

  lemma PopAscending(c: Chain<nat>, n: nat)
    requires AllAscending(c.buckets, n) && WellFormed(c) && c.count > 0
    ensures Top(c.buckets) >= 0
    ensures Pop<nat>(c).Popped? ==> AllAscending(Pop<nat>(c).chain.buckets, n)
  {
    PopKeeps<nat>(c);
    var p := Pop<nat>(c);
    if p.Popped? { HeadLeftAscending(c, p.chain, p.sn, p.item, n); }
  }

  lemma HeadLeftAscending(c: Chain<nat>, d: Chain<nat>, k: nat, x: nat, n: nat)
    requires AllAscending(c.buckets, n) && HeadLeft<nat>(c, d, k, x)
    ensures AllAscending(d.buckets, n)
  {
    var b := c.buckets;
    assert forall i | 0 <= i < |d.buckets[k].items| :: d.buckets[k].items[i] == b[k].items[i + 1];
    forall i | 0 <= i < |b| ensures Ascending(d.buckets[i].items, n) {
      assert Ascending(b[i].items, n);
    }
  }

  lemma MoreNodes(s: State, s': State)
    requires InTurn(s) && s'.getters == s.getters && s'.putters.buckets == s.putters.buckets && |s'.nodes| >= |s.nodes|
    ensures InTurn(s')
  {
    forall k | 0 <= k < |s'.putters.buckets| ensures Ascending(s'.putters.buckets[k].items, |s'.nodes|) {
      assert Ascending(s.putters.buckets[k].items, |s.nodes|);
    }
  }

  // ---- One step ----

  lemma PutBlocksInTurn(s: State, t: nat, m: Message)
    requires InTurn(s) && t < |s.threads|
    ensures InTurn(PutBlocks(s, t, m))
  {
    if 1 <= m.priority <= |s.putters.buckets| { PushAscending(s.putters, m.priority - 1, |s.nodes|); }
  }

  lemma PutDecideInTurn(s: State, t: nat, m: Message)
    requires InTurn(s) && t < |s.threads|
    ensures InTurn(PutDecide(s, t, m))
  {
    if s.getters == [] && s.chain.count == s.limit {
      PutBlocksInTurn(s, t, m);
    } else {
      PutGoesOn(s, t, m);
    }
  }

  lemma PutGoesOn(s: State, t: nat, m: Message)
    requires t < |s.threads| && (s.getters != [] || s.chain.count != s.limit)
    ensures var s' := PutDecide(s, t, m);
      && s'.putters == s.putters && |s'.nodes| == |s.nodes|
      && s'.getters == if s.getters != [] then s.getters[1..] else s.getters
  {
  }

  lemma GetDecideInTurn(s: State, t: nat)
    requires InTurn(s) && t < |s.threads|
    ensures InTurn(GetDecide(s, t))
  {
    AppendNew(s.getters, |s.nodes|);
    var b, n := s.putters.buckets, |s.nodes|;
    forall k | 0 <= k < |b| ensures Ascending(b[k].items, n + 1) {
      assert Ascending(b[k].items, n);
    }
  }

  lemma GetRefillLists(s: State, t: nat, m: Message)
    requires t < |s.threads|
    ensures var s' := GetRefill(s, t, m);
      && s'.getters == s.getters && |s'.nodes| == |s.nodes|
      && (s'.putters == s.putters
          || (s.putters.count > 0 && Top(s.putters.buckets) >= 0
              && Pop<nat>(s.putters).Popped? && s'.putters == Pop<nat>(s.putters).chain))
  {
  }

  lemma GetRefillInTurn(s: State, t: nat, m: Message)
    requires InTurn(s) && t < |s.threads| && WellFormed(s.putters)
    ensures InTurn(GetRefill(s, t, m))
  {
    GetRefillLists(s, t, m);
    if s.putters.count > 0 { PopAscending(s.putters, |s.nodes|); }
  }

  lemma UnlinkInTurn(s: State, n: nat, kind: Kind)
    requires InTurn(s) && n < |s.nodes|
    requires kind.Putter? ==> 1 <= kind.message.priority <= |s.putters.buckets| && s.putters.count > 0
    ensures InTurn(Unlink(s, n, kind))
  {
    match kind
    case Getter => WithoutAscending(s.getters, |s.nodes|, n);
    case Putter(m) => RemoveAscending(s.putters, m.priority - 1, n, |s.nodes|);
  }

  lemma WithdrawInTurn(s: State, t: nat, n: nat, got: Option<Message>)
    requires InTurn(s) && t < |s.threads| && n < |s.nodes|
    ensures InTurn(Withdraw(s, t, n, got))
  {
    var node := s.nodes[n];
    if node.timedOut && node.linked && Seats(s, n) {
      var s' := Goto(WithNode(s, n, node.(linked := false)), t, Gone(n, got));
      MoreNodes(s, s');
      UnlinkInTurn(s', n, node.kind);
    } else {
      MoreNodes(s, Withdraw(s, t, n, got));
    }
  }

  /** The step leaves both lists, and the number of waiters, as they are. */
  predicate SameLists(s: State, s': State) {
    s'.getters == s.getters && s'.putters == s.putters && |s'.nodes| == |s.nodes|
  }

  lemma WakeLists(s: State, t: nat, n: nat)
    requires t < |s.threads| && n < |s.nodes|
    ensures SameLists(s, Wake(s, t, n))
  {
  }

  lemma ReturnLists(s: State, t: nat, n: nat, got: Option<Message>)
    requires t < |s.threads| && n < |s.nodes|
    ensures SameLists(s, Return(s, t, n, got))
  {
  }

  lemma ServeLists(s: State, t: nat, side: Side, m: Message, n: nat)
    requires t < |s.threads| && n < |s.nodes|
    ensures SameLists(s, Serve(s, t, side, m, n))
  {
  }

  lemma DropLists(s: State, t: nat, side: Side, m: Message, n: nat, again: bool)
    requires t < |s.threads| && n < |s.nodes|
    ensures SameLists(s, Drop(s, t, side, m, n, again))
  {
  }

  lemma PopperStepLists(s: State, t: nat, n: nat)
    requires t < |s.threads| && n < |s.nodes| && PopperOf(s.threads[t]) == Some(n)
    ensures SameLists(s, StepNode(s, t, n))
  {
    match s.threads[t]
    case Checking(side, m, _) => ServeLists(s, t, side, m, n);
    case Dropping(side, m, _, again) => DropLists(s, t, side, m, n, again);
    case _ =>
  }

  lemma OwnerStepLists(s: State, t: nat, n: nat)
    requires t < |s.threads| && n < |s.nodes| && OwnerOf(s.threads[t]) == Some(n) && !s.threads[t].Left?
    ensures SameLists(s, StepNode(s, t, n))
  {
    match s.threads[t]
    case Woken(_) => WakeLists(s, t, n);
    case Gone(_, got) => ReturnLists(s, t, n, got);
    case _ =>
  }

  lemma OtherNodeStepInTurn(s: State, t: nat, n: nat)
    requires InTurn(s) && t < |s.threads| && n < |s.nodes| && NodeOf(s.threads[t]) == Some(n) && !s.threads[t].Left?
    ensures InTurn(StepNode(s, t, n))
  {
    if OwnerOf(s.threads[t]).Some? { OwnerStepLists(s, t, n); } else { PopperStepLists(s, t, n); }
    MoreNodes(s, StepNode(s, t, n));
  }

  lemma FreeStepInTurn(s: State, t: nat)
    requires InTurn(s) && t < |s.threads| && NodeOf(s.threads[t]) == None && WellFormed(s.putters)
    ensures InTurn(Step(s, t))
  {
    var pc := s.threads[t];
    if pc.PutLocked? {
      PutDecideInTurn(s, t, pc.m);
    } else if pc.GetLocked? {
      GetDecideInTurn(s, t);
    } else if pc.GetPopped? {
      GetRefillInTurn(s, t, pc.m);
    } else {
      MoreNodes(s, Step(s, t));
    }
  }

  lemma ActionInTurn(s: State, a: Action)
    requires Inv(s) && InTurn(s) && Enabled(s, a)
    ensures InTurn(Apply(s, a))
  {
    if a.Run? {
      match NodeOf(s.threads[a.t])
      case None => FreeStepInTurn(s, a.t);
      case Some(n) =>
        StepNodeKeeps(s, a.t, n);
        StepAtNode(s, a.t, n);
        if s.threads[a.t].Left? {
          WithdrawInTurn(s, a.t, n, s.threads[a.t].got);
        } else {
          OtherNodeStepInTurn(s, a.t, n);
        }
    } else {
      MoreNodes(s, Apply(s, a));
    }
  }

  lemma {:induction false} RunInTurn(s: State, actions: seq<Action>)
    requires Inv(s) && InTurn(s) && Legal(s, actions)
    ensures InTurn(ApplyAll(s, actions))
    decreases |actions|
  {
    if actions == [] {
    } else {
      ActionInTurn(s, actions[0]);
      ApplyKeeps(s, actions[0]);
      RunInTurn(Apply(s, actions[0]), actions[1..]);
    }
  }

  // ---- Waiters keep their numbers ----

  /** Every waiter of s is still there under its number, of the same kind and with the same owner. */
  predicate Kept(s: State, s': State) {
    |s.nodes| <= |s'.nodes| && forall n | 0 <= n < |s.nodes| :: SameWho(s.nodes[n], s'.nodes[n])
  }

  predicate SameWho(before: Node, after: Node) {
    after.kind == before.kind && after.owner == before.owner
  }

  /** Only waiter n looks different. */
  predicate AtOne(s: State, s': State, n: nat)
    requires n < |s.nodes|
  {
    |s'.nodes| == |s.nodes| && s'.nodes == s.nodes[n := s'.nodes[n]] && SameWho(s.nodes[n], s'.nodes[n])
  }

  lemma WithdrawAtOne(s: State, t: nat, n: nat, got: Option<Message>)
    requires t < |s.threads| && n < |s.nodes|
    ensures AtOne(s, Withdraw(s, t, n, got), n)
  {
  }

  lemma WakeAtOne(s: State, t: nat, n: nat)
    requires t < |s.threads| && n < |s.nodes|
    ensures AtOne(s, Wake(s, t, n), n)
  {
  }

  lemma ReturnAtOne(s: State, t: nat, n: nat, got: Option<Message>)
    requires t < |s.threads| && n < |s.nodes|
    ensures AtOne(s, Return(s, t, n, got), n)
  {
  }

  lemma ServeAtOne(s: State, t: nat, side: Side, m: Message, n: nat)
    requires t < |s.threads| && n < |s.nodes|
    ensures AtOne(s, Serve(s, t, side, m, n), n)
  {
  }

  lemma DropAtOne(s: State, t: nat, side: Side, m: Message, n: nat, again: bool)
    requires t < |s.threads| && n < |s.nodes|
    ensures AtOne(s, Drop(s, t, side, m, n, again), n)
  {
  }

  lemma OwnerStepAtOne(s: State, t: nat, n: nat)
    requires t < |s.threads| && n < |s.nodes| && OwnerOf(s.threads[t]) == Some(n)
    ensures AtOne(s, StepNode(s, t, n), n)
  {
    match s.threads[t]
    case Woken(_) => WakeAtOne(s, t, n);
    case Left(_, got) => WithdrawAtOne(s, t, n, got);
    case Gone(_, got) => ReturnAtOne(s, t, n, got);
    case _ =>
  }

  lemma PopperStepAtOne(s: State, t: nat, n: nat)
    requires t < |s.threads| && n < |s.nodes| && PopperOf(s.threads[t]) == Some(n)
    ensures AtOne(s, StepNode(s, t, n), n)
  {
    match s.threads[t]
    case Checking(side, m, _) => ServeAtOne(s, t, side, m, n);
    case Dropping(side, m, _, again) => DropAtOne(s, t, side, m, n, again);
    case _ =>
  }

  lemma PutDecideKept(s: State, t: nat, m: Message)
    requires t < |s.threads|
    ensures Kept(s, PutDecide(s, t, m))
  {
  }

  lemma GetDecideKept(s: State, t: nat)
    requires t < |s.threads|
    ensures Kept(s, GetDecide(s, t))
  {
  }

  lemma GetRefillKept(s: State, t: nat, m: Message)
    requires t < |s.threads|
    ensures Kept(s, GetRefill(s, t, m))
  {
  }

  lemma FreeStepKept(s: State, t: nat)
    requires t < |s.threads| && NodeOf(s.threads[t]) == None
    ensures Kept(s, Step(s, t))
  {
    var pc := s.threads[t];
    if pc.PutLocked? {
      PutDecideKept(s, t, pc.m);
    } else if pc.GetLocked? {
      GetDecideKept(s, t);
    } else if pc.GetPopped? {
      GetRefillKept(s, t, pc.m);
    }
  }

  lemma NodeStepKept(s: State, t: nat, n: nat)
    requires t < |s.threads| && NodeOf(s.threads[t]) == Some(n) && n < |s.nodes|
    ensures Kept(s, StepNode(s, t, n))
  {
    if OwnerOf(s.threads[t]).Some? { OwnerStepAtOne(s, t, n); } else { PopperStepAtOne(s, t, n); }
  }

  lemma ActionKept(s: State, a: Action)
    requires Inv(s) && Enabled(s, a)
    ensures Kept(s, Apply(s, a))
  {
    if a.Run? {
      match NodeOf(s.threads[a.t])
      case None => FreeStepKept(s, a.t);
      case Some(n) =>
        StepNodeKeeps(s, a.t, n);
        StepAtNode(s, a.t, n);
        NodeStepKept(s, a.t, n);
    }
  }

  lemma KeptOn(s: State, s': State, s'': State)
    requires Kept(s, s') && Kept(s', s'')
    ensures Kept(s, s'')
  {
    forall n | 0 <= n < |s.nodes| ensures SameWho(s.nodes[n], s''.nodes[n]) {
      assert SameWho(s.nodes[n], s'.nodes[n]) && SameWho(s'.nodes[n], s''.nodes[n]);
    }
  }

  lemma {:induction false} RunKept(s: State, actions: seq<Action>)
    requires Inv(s) && Legal(s, actions)
    ensures Kept(s, ApplyAll(s, actions))
    decreases |actions|
  {
    if actions == [] {
    } else {
      ActionKept(s, actions[0]);
      ApplyKeeps(s, actions[0]);
      RunKept(Apply(s, actions[0]), actions[1..]);
      KeptOn(s, Apply(s, actions[0]), ApplyAll(s, actions));
    }
  }

  // ---- What follows in every reached state ----

  /**
   * Waiters are numbered in the order in which they register, for good: whatever the run does from a reached
   * state on, the waiters there keep number, kind and owner, and new ones get higher numbers.
   */
  lemma NumberedInOrder(limit: nat, levels: nat, threadCount: nat, actions: seq<Action>, s: State, more: seq<Action>)
    requires Reached(limit, levels, threadCount, actions, s) && Legal(s, more)
    ensures |s.nodes| <= |ApplyAll(s, more).nodes|
    ensures forall n | 0 <= n < |s.nodes| ::
              && ApplyAll(s, more).nodes[n].kind == s.nodes[n].kind
              && ApplyAll(s, more).nodes[n].owner == s.nodes[n].owner
  {
    ReachedKeeps(limit, levels, threadCount, actions, s);
    RunKept(s, more);
    forall n | 0 <= n < |s.nodes| ensures SameWho(s.nodes[n], ApplyAll(s, more).nodes[n]) {
    }
  }

  lemma StartInTurn(limit: nat, levels: nat, threadCount: nat)
    requires levels > 0
    ensures InTurn(Start(limit, levels, threadCount))
  {
    FreshWellFormed<nat>(levels);
  }

  lemma ReachedInTurn(limit: nat, levels: nat, threadCount: nat, actions: seq<Action>, s: State)
    requires Reached(limit, levels, threadCount, actions, s)
    ensures Inv(s) && InTurn(s)
  {
    StartKeeps(limit, levels, threadCount);
    StartInTurn(limit, levels, threadCount);
    ReachedKeeps(limit, levels, threadCount, actions, s);
    RunInTurn(Start(limit, levels, threadCount), actions);
  }

  /** In every reached state both lists are in the order of registration, the writers priority by priority. */
  lemma WaitersInTurn(limit: nat, levels: nat, threadCount: nat, actions: seq<Action>, s: State)
    requires Reached(limit, levels, threadCount, actions, s)
    ensures forall i, j | 0 <= i < j < |s.getters| :: s.getters[i] < s.getters[j]
    ensures forall k, i, j | 0 <= k < |s.putters.buckets| && 0 <= i < j < |s.putters.buckets[k].items| ::
              s.putters.buckets[k].items[i] < s.putters.buckets[k].items[j]
  {
    ReachedInTurn(limit, levels, threadCount, actions, s);
    forall k, i, j | 0 <= k < |s.putters.buckets| && 0 <= i < j < |s.putters.buckets[k].items|
      ensures s.putters.buckets[k].items[i] < s.putters.buckets[k].items[j]
    {
      assert Ascending(s.putters.buckets[k].items, |s.nodes|);
    }
  }

  /** Waiter g is a getter in the list. */
  predicate Waits(s: State, g: nat) {
    g < |s.nodes| && s.nodes[g].linked && s.nodes[g].kind.Getter?
  }

  /** Waiter w is a writer in the list, of priority k + 1. */
  predicate Offers(s: State, w: nat, k: nat) {
    && w < |s.nodes| && s.nodes[w].linked && s.nodes[w].kind.Putter?
    && s.nodes[w].kind.message.priority == k + 1
  }

  lemma ListedGetters(s: State)
    requires GettersLinked(s.getters, s.nodes) && Ascending(s.getters, |s.nodes|)
    ensures s.getters != [] ==> Waits(s, s.getters[0])
    ensures forall g | Waits(s, g) :: s.getters != [] && s.getters[0] <= g
  {
    if s.getters != [] {
      assert s.getters[0] in s.getters;
      assert multiset(s.getters)[s.getters[0]] > 0;
    }
    forall g | Waits(s, g) ensures s.getters != [] && s.getters[0] <= g {
      assert multiset(s.getters)[g] == 1;
      assert g in s.getters;
    }
  }

  lemma LinkedIsAlive(s: State, n: nat)
    requires Inv(s) && n < |s.nodes| && s.nodes[n].linked
    ensures !s.nodes[n].freed
  {
    assert NodeOk(n, s.nodes[n], s.threads);
  }

  lemma PutDecidePops(s: State, t: nat, m: Message)
    requires t < |s.threads|
    requires s.getters != [] ==> s.getters[0] < |s.nodes| && !s.nodes[s.getters[0]].freed
    ensures var pc := PutDecide(s, t, m).threads[t];
      if s.getters != [] then pc == Popping(Putting, m, s.getters[0])
      else PutDecide(s, t, m).fault || !pc.Popping?
  {
  }

  /** A put pops a getter if and only if one is waiting, and then the one that registered first. */
  lemma PutServesFirst(limit: nat, levels: nat, threadCount: nat, actions: seq<Action>, s: State, t: nat, m: Message)
    requires Reached(limit, levels, threadCount, actions, s) && t < |s.threads| && s.threads[t] == PutLocked(m)
    ensures var pc := Step(s, t).threads[t];
      && (pc.Popping? <==> exists g :: Waits(s, g))
      && (pc.Popping? ==>
            && pc.side == Putting && pc.m == m && Waits(s, pc.n)
            && forall g | Waits(s, g) :: pc.n <= g)
  {
    ReachedInTurn(limit, levels, threadCount, actions, s);
    PutDecideSafe(s, t, m);
    if s.getters != [] {
      ListedGetters(s);
      LinkedIsAlive(s, s.getters[0]);
    }
    PutPopsFirst(s, t, m);
  }

  lemma PutDecideSafe(s: State, t: nat, m: Message)
    requires Inv(s) && t < |s.threads| && s.threads[t] == PutLocked(m)
    ensures Step(s, t) == PutDecide(s, t, m) && !PutDecide(s, t, m).fault
  {
    StepKeeps(s, t);
  }

  lemma PutPopsFirst(s: State, t: nat, m: Message)
    requires GettersLinked(s.getters, s.nodes) && Ascending(s.getters, |s.nodes|)
    requires t < |s.threads| && !PutDecide(s, t, m).fault
    requires s.getters != [] ==> !s.nodes[s.getters[0]].freed
    ensures var pc := PutDecide(s, t, m).threads[t];
      && (pc.Popping? <==> exists g :: Waits(s, g))
      && (pc.Popping? ==>
            && pc.side == Putting && pc.m == m && Waits(s, pc.n)
            && forall g | Waits(s, g) :: pc.n <= g)
  {
    ListedGetters(s);
    PutDecidePops(s, t, m);
  }

  lemma StoredIn(b: seq<Bucket<nat>>, k: nat, n: nat)
    requires k < |b| && n in b[k].items
    ensures Stored<nat>(b)[n] > 0
  {
    StoredUpdate<nat>(b, k, b[k]);
    assert n in Items<nat>(b[k]);
  }

  /** The writers in a bucket are the linked ones of its priority. */
  lemma BucketOffers(s: State, k: nat, w: nat)
    requires PuttersLinked(s.putters, s.nodes) && k < |s.putters.buckets|
    ensures w in s.putters.buckets[k].items <==> Offers(s, w, k)
  {
    var b := s.putters.buckets;
    if Offers(s, w, k) {
      assert Stored<nat>(b)[w] == 1;
      var i := HomeOf<nat>(b, w);
      assert Seated(s.nodes, w, i);
    } else if w in b[k].items {
      StoredIn(b, k, w);
    }
  }

  lemma HeadIsFirst(q: seq<nat>, n: nat, w: nat)
    requires Ascending(q, n) && w in q
    ensures q[0] <= w
  {
    var i :| 0 <= i < |q| && q[i] == w;
    assert i > 0 ==> q[0] < q[i];
  }

  lemma GetRefillPops(s: State, t: nat, m: Message)
    requires t < |s.threads| && s.putters.count > 0 && Top(s.putters.buckets) >= 0
    requires Pop<nat>(s.putters).Popped?
    requires Pop<nat>(s.putters).item < |s.nodes| && !s.nodes[Pop<nat>(s.putters).item].freed
    ensures GetRefill(s, t, m).threads[t] == Popping(Getting, m, Pop<nat>(s.putters).item)
  {
  }

  /**
   * A get that has taken its message pops, of the bucket the scheduler serves, the writer that registered
   * first; with no writer in the list it pops none, and with one it pops unless it stops at the assertion.
   */
  lemma GetServesFirst(limit: nat, levels: nat, threadCount: nat, actions: seq<Action>, s: State, t: nat, m: Message)
    requires Reached(limit, levels, threadCount, actions, s) && t < |s.threads| && s.threads[t] == GetPopped(m)
    ensures s.putters.count > 0 ==> Top(s.putters.buckets) >= 0
    ensures var pc := Step(s, t).threads[t];
      if s.putters.count == 0 then pc == GetFinish(m)
      else if Pop<nat>(s.putters).Stuck? then Step(s, t).aborted
      else
        var p := Pop<nat>(s.putters);
        && pc == Popping(Getting, m, p.item) && Offers(s, p.item, p.sn)
        && forall w | Offers(s, w, p.sn) :: p.item <= w
  {
    ReachedInTurn(limit, levels, threadCount, actions, s);
    if s.putters.count > 0 {
      PopKeeps<nat>(s.putters);
      var p := Pop<nat>(s.putters);
      if p.Popped? {
        PoppedIsFirst(s);
        LinkedIsAlive(s, p.item);
        GetRefillPops(s, t, m);
      }
    }
  }

  lemma PoppedIsFirst(s: State)
    requires PuttersLinked(s.putters, s.nodes) && AllAscending(s.putters.buckets, |s.nodes|)
    requires s.putters.count > 0 && Top(s.putters.buckets) >= 0 && Pop<nat>(s.putters).Popped?
    ensures var p := Pop<nat>(s.putters);
      Offers(s, p.item, p.sn) && forall w | Offers(s, w, p.sn) :: p.item <= w
  {
    PopKeeps<nat>(s.putters);
    var b, p := s.putters.buckets, Pop<nat>(s.putters);
    assert HeadLeft<nat>(s.putters, p.chain, p.sn, p.item);
    assert p.item == b[p.sn].items[0];
    assert p.item in b[p.sn].items;
    BucketOffers(s, p.sn, p.item);
    forall w | Offers(s, w, p.sn) ensures p.item <= w {
      BucketOffers(s, p.sn, w);
      HeadIsFirst(b[p.sn].items, |s.nodes|, w);
    }
  }
}
