/** What the hand-over protocol guarantees in every state of every run, for any number of threads. */
module QueueTheorems {
  import opened Common
  import opened Scheduler
  import opened MsgChains
  import opened QueueProtocol
  import opened QueueStructure
  import opened QueueLedger
  import opened QueueSteps
  import opened QueueRuns
  import opened QueueSafety

  /** s is reached from an empty queue by some interleaving of calls, steps and expiring timers. */
  ghost predicate Reached(limit: nat, levels: nat, threadCount: nat, actions: seq<Action>, s: State) {
    && limit > 0 && levels > 0
    && Legal(Start(limit, levels, threadCount), actions) && ApplyAll(Start(limit, levels, threadCount), actions) == s
  }

  lemma {:induction false} IdleBooks(n: nat)
    ensures var idle := seq(n, _ => Idle);
      Gather(Hand, idle) == multiset{} && Gather(Offer, idle) == multiset{} && Total(Owes, idle) == 0
  {
    if n == 0 {
    } else {
      var idle := seq(n, _ => Idle);
      assert idle[..n - 1] == seq(n - 1, _ => Idle);
      IdleBooks(n - 1);
    }
  }

  lemma StartKeeps(limit: nat, levels: nat, threadCount: nat)
    requires limit > 0 && levels > 0
    ensures Inv(Start(limit, levels, threadCount))
  {
    var s := Start(limit, levels, threadCount);
    FreshWellFormed<Message>(levels);
    FreshWellFormed<nat>(levels);
    IdleBooks(threadCount);
    assert s.threads == seq(threadCount, _ => Idle);
  }

  lemma ReachedKeeps(limit: nat, levels: nat, threadCount: nat, actions: seq<Action>, s: State)
    requires Reached(limit, levels, threadCount, actions, s)
    ensures Inv(s)
  {
    StartKeeps(limit, levels, threadCount);
    RunKeeps(Start(limit, levels, threadCount), actions);
  }

  /**
   * No step ever touches a freed waiter, fetches from an empty hand-over list, stores over the limit
   * or removes an entry that is not linked.
   */
  lemma NeverFaults(limit: nat, levels: nat, threadCount: nat, actions: seq<Action>, s: State)
    requires Reached(limit, levels, threadCount, actions, s)
    ensures !s.fault
  {
    ReachedKeeps(limit, levels, threadCount, actions, s);
  }

  // ---------- Messages ----------

  lemma {:induction false} IssuedOnce(issued: seq<Message>, m: Message)
    requires forall i | 0 <= i < |issued| :: issued[i].id == i
    ensures multiset(issued)[m] <= 1
  {
    if issued == [] {
    } else {
      var rest, last := issued[..|issued| - 1], issued[|issued| - 1];
      IssuedOnce(rest, m);
      assert issued == rest + [last];
      if m == last {
        assert m !in rest;
      }
    }
  }

  /** How often message m occurs in the buckets, the hand-over list, readers' hands, or already left. */
  ghost function Places(s: State, m: Message): nat {
    Stored(s.chain.buckets)[m] + multiset(s.temp)[m] + Gather(Hand, s.threads)[m] + s.delivered[m] + s.evicted[m]
  }

  /**
   * Every message ever put is in exactly one place, counting the writer that still offers it; a
   * message whose put returned 0 is in a bucket, the hand-over list, the hands of a reader, delivered
   * or evicted by a forced put, and nowhere else.
   */
  lemma ExactlyOnePlace(limit: nat, levels: nat, threadCount: nat, actions: seq<Action>, s: State, m: Message)
    requires Reached(limit, levels, threadCount, actions, s) && m in s.issued
    ensures Places(s, m) + Offered(s)[m] == 1
    ensures m in s.putOk ==> Places(s, m) == 1
    ensures s.delivered[m] <= 1
  {
    ReachedKeeps(limit, levels, threadCount, actions, s);
    OnePlace(s, m);
  }

  lemma OnePlace(s: State, m: Message)
    requires Ledger(s) && m in s.issued
    ensures Places(s, m) + Offered(s)[m] == 1
    ensures m in s.putOk ==> Places(s, m) == 1
    ensures s.delivered[m] <= 1
  {
    IssuedOnce(s.issued, m);
    assert multiset(s.issued)[m] == 1 == Accepted(s)[m] + Offered(s)[m];
    assert m in s.putOk ==> m in Accepted(s);
  }

  lemma TwoHands(threads: seq<Pc>, t: nat, u: nat, m: Message)
    requires t < |threads| && u < |threads| && t != u
    requires HandOf(threads[t]) == Some(m) && HandOf(threads[u]) == Some(m)
    ensures Gather(Hand, threads)[m] >= 2
  {
    var without := threads[t := Idle];
    GatherUpdate(Hand, threads, t, Idle);
    GatherUpdate(Hand, without, u, Idle);
    assert without[u] == threads[u] && Hand(without[u])[m] == 1 && Hand(threads[t])[m] == 1;
  }

  /** No message is in the hands of two readers. */
  lemma NotInTwoHands(limit: nat, levels: nat, threadCount: nat, actions: seq<Action>, s: State, t: nat, u: nat)
    requires Reached(limit, levels, threadCount, actions, s)
    requires t < |s.threads| && u < |s.threads| && t != u && HandOf(s.threads[t]).Some?
    ensures HandOf(s.threads[t]) != HandOf(s.threads[u])
  {
    if HandOf(s.threads[t]) == HandOf(s.threads[u]) {
      var m := HandOf(s.threads[t]).value;
      TwoHands(s.threads, t, u, m);
      HandsWithinIssued(limit, levels, threadCount, actions, s, m);
    }
  }

  lemma HandsWithinIssued(limit: nat, levels: nat, threadCount: nat, actions: seq<Action>, s: State, m: Message)
    requires Reached(limit, levels, threadCount, actions, s)
    ensures Gather(Hand, s.threads)[m] <= 1
  {
    ReachedKeeps(limit, levels, threadCount, actions, s);
    OneHand(s, m);
  }

  lemma OneHand(s: State, m: Message)
    requires Ledger(s)
    ensures Gather(Hand, s.threads)[m] <= 1
  {
    IssuedOnce(s.issued, m);
    assert multiset(s.issued)[m] >= Accepted(s)[m] >= Gather(Hand, s.threads)[m];
  }

  /** The hand-over list covers every getter that was signalled and has not resumed. */
  lemma SignalledAreCovered(limit: nat, levels: nat, threadCount: nat, actions: seq<Action>, s: State)
    requires Reached(limit, levels, threadCount, actions, s)
    ensures Total(NodeOwed, s.nodes) <= |s.temp|
  {
    ReachedKeeps(limit, levels, threadCount, actions, s);
  }

  /** A getter that wakes by signal finds a message and takes the oldest one of the hand-over list. */
  lemma SignalledGetsMessage(limit: nat, levels: nat, threadCount: nat, actions: seq<Action>, s: State, t: nat, n: nat)
    requires Reached(limit, levels, threadCount, actions, s) && t < |s.threads| && s.threads[t] == Woken(n)
    requires n < |s.nodes| && s.nodes[n].kind.Getter? && s.nodes[n].wait == Signalled
    ensures s.temp != [] && !s.nodes[n].freed
    ensures Step(s, t).threads[t] == Leaving(n, Some(s.temp[0])) && Step(s, t).temp == s.temp[1..]
  {
    ReachedKeeps(limit, levels, threadCount, actions, s);
    SignalledIsCovered(s, n);
    assert NodeOk(n, s.nodes[n], s.threads);
    assert ThreadOk(s.threads[t], t, s.nodes, s.quelock);
  }

  // ---------- Wake-ups ----------

  /** In a run without forced puts, with the queue lock free, nobody waits for what is there. */
  lemma NobodyWaitsInVain(limit: nat, levels: nat, threadCount: nat, actions: seq<Action>, s: State)
    requires Reached(limit, levels, threadCount, actions, s) && s.quelock == None && !s.forced
    ensures s.getters != [] ==> s.chain.count == 0
    ensures s.putters.count > 0 ==> s.chain.count == s.limit
    ensures s.getters == [] || s.putters.count == 0
  {
    ReachedKeeps(limit, levels, threadCount, actions, s);
  }

  /** A waiter that still sleeps is linked, or the thread that popped it is about to signal it. */
  lemma SleepersAreReachable(limit: nat, levels: nat, threadCount: nat, actions: seq<Action>, s: State, n: nat)
    requires Reached(limit, levels, threadCount, actions, s) && n < |s.nodes| && s.nodes[n].wait == Waiting
    ensures s.nodes[n].linked ||
            exists t :: 0 <= t < |s.threads| && PopperOf(s.threads[t]) == Some(n) && SignalPending(s.threads[t])
  {
    ReachedKeeps(limit, levels, threadCount, actions, s);
    assert NodeOk(n, s.nodes[n], s.threads);
  }

  // ---------- Reference counts ----------

  /** A waiter's reference count is the number of threads at it; it is freed exactly when none is left. */
  lemma CountedReferences(limit: nat, levels: nat, threadCount: nat, actions: seq<Action>, s: State, n: nat)
    requires Reached(limit, levels, threadCount, actions, s) && n < |s.nodes|
    ensures s.nodes[n].refCount == |set t | 0 <= t < |s.threads| && NodeOf(s.threads[t]) == Some(n)|
    ensures s.nodes[n].freed <==> s.nodes[n].refCount == 0
  {
    ReachedKeeps(limit, levels, threadCount, actions, s);
    var node := s.nodes[n];
    assert NodeOk(n, node, s.threads);
    var users := set t | 0 <= t < |s.threads| && NodeOf(s.threads[t]) == Some(n);
    var expected := (if OwnerHolds(n, node, s.threads) then {node.owner} else {})
                  + (if PopperHolds(n, node, s.threads) then {node.popper.value} else {});
    forall t | t in users ensures t in expected {
      OnlyOwnerAndPopper(s.threads, s.nodes, s.quelock, t, n);
    }
    assert users == expected;
  }

  /** With no call inside, every waiter that was ever created has been freed. */
  lemma NoWaiterLeft(limit: nat, levels: nat, threadCount: nat, actions: seq<Action>, s: State, n: nat)
    requires Reached(limit, levels, threadCount, actions, s) && n < |s.nodes|
    requires forall t | 0 <= t < |s.threads| :: s.threads[t] == Idle
    ensures s.nodes[n].freed && s.nodes[n].refCount == 0
  {
    CountedReferences(limit, levels, threadCount, actions, s, n);
    assert (set t | 0 <= t < |s.threads| && NodeOf(s.threads[t]) == Some(n)) == {};
  }

  predicate Spared(s: State, s': State, n: nat)
    requires n < |s.nodes|
  {
    n < |s'.nodes| && s'.nodes[n] == s.nodes[n]
  }

  lemma WakeSpares(s: State, t: nat, k: nat, n: nat)
    requires t < |s.threads| && k < |s.nodes| && n < |s.nodes| && n != k
    ensures Spared(s, Wake(s, t, k), n)
  {
  }

  lemma WithdrawSpares(s: State, t: nat, k: nat, got: Option<Message>, n: nat)
    requires t < |s.threads| && k < |s.nodes| && n < |s.nodes| && n != k
    ensures Spared(s, Withdraw(s, t, k, got), n)
  {
  }

  lemma ServeSpares(s: State, t: nat, side: Side, m: Message, k: nat, n: nat)
    requires t < |s.threads| && k < |s.nodes| && n < |s.nodes| && n != k
    ensures Spared(s, Serve(s, t, side, m, k), n)
  {
  }

  lemma DropSpares(s: State, t: nat, side: Side, m: Message, k: nat, again: bool, n: nat)
    requires t < |s.threads| && k < |s.nodes| && n < |s.nodes| && n != k
    ensures Spared(s, Drop(s, t, side, m, k, again), n)
  {
  }

  lemma OwnerSpares(s: State, t: nat, k: nat, n: nat)
    requires t < |s.threads| && k < |s.nodes| && n < |s.nodes| && n != k && OwnerOf(s.threads[t]) == Some(k)
    ensures Spared(s, StepNode(s, t, k), n)
  {
    match s.threads[t]
    case Registered(_) => assert Spared(s, LeaveQueue(s, t, k), n);
    case Entering(_) => assert Spared(s, Sleep(s, t, k), n);
    case Blocked(_) => assert Spared(s, Relock(s, t, k), n);
    case Woken(_) => WakeSpares(s, t, k, n);
    case Leaving(_, got) => assert Spared(s, Unlock(s, t, k, Left(k, got)), n);
    case Left(_, got) => WithdrawSpares(s, t, k, got, n);
    case Gone(_, got) =>
  }

  lemma PopperSpares(s: State, t: nat, k: nat, n: nat)
    requires t < |s.threads| && k < |s.nodes| && n < |s.nodes| && n != k && PopperOf(s.threads[t]) == Some(k)
    ensures Spared(s, StepNode(s, t, k), n)
  {
    match s.threads[t]
    case Popping(side, m, _) => assert Spared(s, LockNode(s, t, side, m, k), n);
    case BothLocked(m, _) => assert Spared(s, PutLeavesQueue(s, t, m, k), n);
    case Checking(side, m, _) => ServeSpares(s, t, side, m, k, n);
    case Signalling(side, m, _) => assert Spared(s, Wakeup(s, t, side, m, k), n);
    case Unlocking(side, m, _) => assert Spared(s, Unlock(s, t, k, Dropping(side, m, k, false)), n);
    case Dropping(side, m, _, again) => DropSpares(s, t, side, m, k, again, n);
  }

  lemma PutDecideSpares(s: State, t: nat, m: Message, n: nat)
    requires t < |s.threads| && n < |s.nodes| && s.nodes[n].freed
    ensures Spared(s, PutDecide(s, t, m), n)
  {
  }

  lemma GetDecideSpares(s: State, t: nat, n: nat)
    requires t < |s.threads| && n < |s.nodes| && s.nodes[n].freed
    ensures Spared(s, GetDecide(s, t), n)
  {
  }

  lemma GetRefillSpares(s: State, t: nat, m: Message, n: nat)
    requires t < |s.threads| && n < |s.nodes| && s.nodes[n].freed
    ensures Spared(s, GetRefill(s, t, m), n)
  {
  }

  lemma ForceStoreSpares(s: State, t: nat, m: Message, n: nat)
    requires t < |s.threads| && n < |s.nodes|
    ensures Spared(s, ForceStore(s, t, m), n)
  {
  }

  lemma StepSparesFreed(s: State, t: nat, n: nat)
    requires t < |s.threads| && n < |s.nodes| && s.nodes[n].freed
    ensures Spared(s, Step(s, t), n)
  {
    match NodeOf(s.threads[t])
    case Some(k) => NodeStepSparesFreed(s, t, k, n);
    case None =>
      match s.threads[t]
      case PutLocked(m) => PutDecideSpares(s, t, m, n);
      case GetLocked => GetDecideSpares(s, t, n);
      case GetPopped(m) => GetRefillSpares(s, t, m, n);
      case ForceLocked(m) => ForceStoreSpares(s, t, m, n);
      case _ =>
  }

  lemma NodeStepSparesFreed(s: State, t: nat, k: nat, n: nat)
    requires t < |s.threads| && n < |s.nodes| && s.nodes[n].freed && NodeOf(s.threads[t]) == Some(k)
    ensures Spared(s, Step(s, t), n)
  {
    if k < |s.nodes| && k != n {
      if OwnerOf(s.threads[t]).Some? { OwnerSpares(s, t, k, n); } else { PopperSpares(s, t, k, n); }
    }
  }

  lemma ActionSparesFreed(s: State, a: Action, n: nat)
    requires Inv(s) && Enabled(s, a) && n < |s.nodes| && s.nodes[n].freed
    ensures Spared(s, Apply(s, a), n)
  {
    match a
    case StartPut(t, p) =>
    case StartForce(t, p) =>
    case StartGet(t) =>
    case Run(t) => StepSparesFreed(s, t, n);
    case Expire(k) => ExpireKeeps(s, k);
  }

  lemma {:induction false} RunSparesFreed(s: State, more: seq<Action>, n: nat)
    requires Inv(s) && Legal(s, more) && n < |s.nodes| && s.nodes[n].freed
    ensures Spared(s, ApplyAll(s, more), n)
    decreases |more|
  {
    if more == [] {
      assert ApplyAll(s, more) == s;
    } else {
      ActionSparesFreed(s, more[0], n);
      ApplyKeeps(s, more[0]);
      RunSparesFreed(Apply(s, more[0]), more[1..], n);
    }
  }

  /** However a run goes on, a freed waiter is never touched again; so it is freed once. */
  lemma FreedForever(limit: nat, levels: nat, threadCount: nat, actions: seq<Action>, s: State, more: seq<Action>,
                     n: nat)
    requires Reached(limit, levels, threadCount, actions, s) && n < |s.nodes| && s.nodes[n].freed
    requires Legal(s, more)
    ensures Spared(s, ApplyAll(s, more), n)
  {
    ReachedKeeps(limit, levels, threadCount, actions, s);
    RunSparesFreed(s, more, n);
  }
}
