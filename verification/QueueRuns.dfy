/** The invariant over every run of the hand-over protocol. */
module QueueRuns {
  import opened Common
  import opened Scheduler
  import opened MsgChains
  import opened QueueProtocol
  import opened QueueStructure
  import opened QueueBounds
  import opened QueueLedger
  import opened QueueSteps
  import opened QueueSafety
  import opened QueueFreeSteps

  // ---------- Forced puts ----------

  /** The chain after a forced put. */
  ghost predicate Forces(s: State, s': State, t: nat, m: Message) {
    && FreeMove(s, s', t) && Shelves(s, s', t, m) && SameLinks(s.nodes, s'.nodes)
    && WellFormed(s'.chain) && s'.chain.count <= s.limit == s'.limit
    && s'.forced && s'.getters == s.getters && s'.putters == s.putters && !InGap(s')
  }

  lemma ForceFits(s: State, t: nat, m: Message)
    requires AtFree(s, t) && s.threads[t] == ForceLocked(m) && Fits(s, m) && WellFormed(s.chain)
    ensures Forces(s, ForceTo(s, t, m, Push(s.chain, m.priority - 1, m)), t, m)
  {
    PushOne(s.chain, m);
    GainForces(s, t, m, Push(s.chain, m.priority - 1, m));
  }

  lemma PushOne(c: Chain<Message>, m: Message)
    requires WellFormed(c) && 1 <= m.priority <= |c.buckets|
    ensures var d := Push(c, m.priority - 1, m);
      && WellFormed(d) && |d.buckets| == |c.buckets| && d.count == c.count + 1
      && Stored(d.buckets) == Stored(c.buckets) + multiset{m}
  {
    PushKeeps(c, m.priority - 1, m);
  }

  /** A forced put that replaces the chain by one holding one message more. */
  lemma GainForces(s: State, t: nat, m: Message, c: Chain<Message>)
    requires AtFree(s, t) && s.threads[t] == ForceLocked(m) && |c.buckets| == |s.chain.buckets|
    requires Stored(c.buckets) == Stored(s.chain.buckets) + multiset{m} && WellFormed(c) && c.count <= s.limit
    ensures Forces(s, ForceTo(s, t, m, c), t, m)
  {
    assert Stored(c.buckets) + s.evicted == Stored(s.chain.buckets) + s.evicted + multiset{m};
  }

  lemma EvictPush(c: Chain<Message>, m: Message)
    requires WellFormed(c) && c.count > 0 && 1 <= m.priority <= |c.buckets|
    ensures Bottom(c.buckets, 0) < |c.buckets|
    ensures var x, d := c.buckets[Bottom(c.buckets, 0)].items[0], Push(Evict(c), m.priority - 1, m);
      && WellFormed(d) && |d.buckets| == |c.buckets| && d.count == c.count && m in Stored(d.buckets)
      && Stored(d.buckets) + multiset{x} == Stored(c.buckets) + multiset{m}
  {
    EvictKeeps(c);
    var k := Bottom(c.buckets, 0);
    HeadLeftStored(c, Evict(c), k, c.buckets[k].items[0]);
    PushKeeps(Evict(c), m.priority - 1, m);
  }

  lemma ForceEvicts(s: State, t: nat, m: Message)
    requires AtFree(s, t) && s.threads[t] == ForceLocked(m) && WellFormed(s.chain)
    requires s.chain.count == s.limit > 0 && 1 <= m.priority <= |s.chain.buckets|
    ensures Forces(s, ForceReplaces(s, t, m), t, m)
  {
    EvictPush(s.chain, m);
    var x := s.chain.buckets[Bottom(s.chain.buckets, 0)].items[0];
    var s' := ForceReplaces(s, t, m);
    assert s'.evicted == s.evicted + multiset{x};
    assert Stored(s'.chain.buckets) + (s.evicted + multiset{x}) == (Stored(s'.chain.buckets) + multiset{x}) + s.evicted;
    assert Stored(s.chain.buckets) + s.evicted + multiset{m} == (Stored(s.chain.buckets) + multiset{m}) + s.evicted;
  }

  lemma ForceKeeps(s: State, t: nat, m: Message)
    requires Inv(s) && AtFree(s, t) && s.threads[t] == ForceLocked(m)
    ensures Inv(ForceStore(s, t, m))
  {
    OfferedIsIssued(s, t, m);
    if Fits(s, m) { ForceFits(s, t, m); } else { ForceEvicts(s, t, m); }
    var s' := ForceStore(s, t, m);
    FreeMoveSound(s, s', t);
    ShelvesLedger(s, s', t, m);
  }

  // ---------- Any step of a thread ----------

  lemma LockStepKeeps(s: State, t: nat)
    requires Inv(s) && AtFree(s, t) && s.quelock == None
    requires s.threads[t].PutLock? || s.threads[t].GetLock? || s.threads[t].ForceLock?
    ensures Inv(Step(s, t))
  {
    match s.threads[t] {
      case PutLock(m) => LockQueuePlain(s, t, PutLocked(m));
      case GetLock => LockQueuePlain(s, t, GetLocked);
      case ForceLock(m) => LockQueuePlain(s, t, ForceLocked(m));
    }
    FreePlainKeeps(s, Step(s, t), t);
  }

  lemma ReturnStepKeeps(s: State, t: nat)
    requires Inv(s) && AtFree(s, t)
    requires s.threads[t].PutStored? || s.threads[t].ForceDone? || s.threads[t].GetFinish?
    ensures Inv(Step(s, t))
  {
    match s.threads[t] {
      case PutStored(m) => PutReturnsPlain(s, t, m);
      case ForceDone(m) => PutReturnsPlain(s, t, m);
      case GetFinish(m) => GetReturnsPlain(s, t, m);
    }
    FreePlainKeeps(s, Step(s, t), t);
  }

  lemma PutDecideKeeps(s: State, t: nat, m: Message)
    requires Inv(s) && AtFree(s, t) && s.threads[t] == PutLocked(m)
    ensures Inv(PutDecide(s, t, m))
  {
    if s.getters != [] {
      PutPopsGetterKeeps(s, t, m);
    } else if s.chain.count == s.limit {
      PutBlocksKeeps(s, t, m);
    } else {
      PutStoresKeeps(s, t, m);
    }
  }

  lemma GetDecideKeeps(s: State, t: nat)
    requires Inv(s) && AtFree(s, t) && s.threads[t] == GetLocked
    ensures Inv(GetDecide(s, t))
  {
    if s.chain.count == 0 { GetBlocksKeeps(s, t); } else { GetTakesKeeps(s, t); }
  }

  lemma GetRefillKeeps(s: State, t: nat, m: Message)
    requires Inv(s) && AtFree(s, t) && s.threads[t] == GetPopped(m)
    ensures Inv(GetRefill(s, t, m))
  {
    if s.putters.count == 0 { GetSkipsKeeps(s, t, m); } else { GetPopsPutterKeeps(s, t, m); }
  }

  lemma StepFreeKeeps(s: State, t: nat)
    requires Inv(s) && AtFree(s, t) && CanRun(s, s.threads[t])
    ensures Inv(Step(s, t))
  {
    match s.threads[t] {
      case PutLock(_) => LockStepKeeps(s, t);
      case GetLock => LockStepKeeps(s, t);
      case ForceLock(_) => LockStepKeeps(s, t);
      case PutStored(_) => ReturnStepKeeps(s, t);
      case ForceDone(_) => ReturnStepKeeps(s, t);
      case GetFinish(_) => ReturnStepKeeps(s, t);
      case PutLocked(m) => PutDecideKeeps(s, t, m);
      case GetLocked => GetDecideKeeps(s, t);
      case GetPopped(m) => GetRefillKeeps(s, t, m);
      case ForceLocked(m) => ForceKeeps(s, t, m);
    }
  }

  lemma StepKeeps(s: State, t: nat)
    requires Inv(s) && t < |s.threads| && CanRun(s, s.threads[t])
    ensures Inv(Step(s, t))
  {
    match NodeOf(s.threads[t]) {
      case None =>
        FreeThread(s, t);
        StepFreeKeeps(s, t);
      case Some(n) =>
        StepNodeKeeps(s, t, n);
    }
  }

  // ---------- Calls start, timers expire ----------

  lemma IssueMoves(s: State, t: nat, priority: int, force: bool)
    requires t < |s.threads| && s.threads[t] == Idle && !s.fault
    ensures var s', m := Issue(s, t, priority, force), Message(|s.issued|, priority);
      && ThreadMoves(s, s', t) && s'.nodes == s.nodes && s'.chain == s.chain && s'.temp == s.temp
      && s'.delivered == s.delivered && s'.evicted == s.evicted && s'.putOk == s.putOk && s'.quelock == s.quelock
      && SameStore(s, s') && s'.issued == s.issued + [m] && !s'.fault
      && OfferOf(s'.threads[t]) == Some(m) && HandOf(s'.threads[t]) == None && KeptOf(s'.threads[t]) == None
      && Owes(s'.threads[t]) == 0 && NodeOf(s'.threads[t]) == None && !HoldsQueue(s'.threads[t]) && !Gap(s'.threads[t])
  {
  }

  /** A new message comes on offer. */
  predicate Issues(s: State, s': State, t: nat, m: Message) {
    && ThreadMoves(s, s', t) && s.threads[t] == Idle && s'.nodes == s.nodes
    && s'.chain == s.chain && s'.temp == s.temp && s'.delivered == s.delivered && s'.evicted == s.evicted
    && s'.putOk == s.putOk && s'.issued == s.issued + [m]
    && OfferOf(s'.threads[t]) == Some(m) && HandOf(s'.threads[t]) == None && KeptOf(s'.threads[t]) == None
    && Owes(s'.threads[t]) == 0
  }

  lemma IssueAccepted(s: State, s': State, t: nat, m: Message)
    requires Issues(s, s', t, m)
    ensures Accepted(s') == Accepted(s)
  {
    GatherUpdate(Hand, s.threads, t, s'.threads[t]);
    assert Hand(s.threads[t]) == multiset{} == Hand(s'.threads[t]);
  }

  lemma IssueOffered(s: State, s': State, t: nat, m: Message)
    requires Issues(s, s', t, m)
    ensures Offered(s') == Offered(s) + multiset{m}
  {
    GatherUpdate(Offer, s.threads, t, s'.threads[t]);
    assert Offer(s.threads[t]) == multiset{} && Offer(s'.threads[t]) == multiset{m};
  }

  lemma IssueDebt(s: State, s': State, t: nat, m: Message)
    requires Issues(s, s', t, m)
    ensures Debt(s') == Debt(s)
  {
    TotalUpdate(Owes, s.threads, t, s'.threads[t]);
  }

  lemma IssueCovered(s: State, s': State, t: nat, m: Message, acc: multiset<Message>)
    requires Covered(s, acc) && Issues(s, s', t, m)
    ensures Covered(s', acc)
  {
    forall u | 0 <= u < |s'.threads| ensures Within(Kept(s'.threads[u]), acc) {
      if u != t { assert Within(Kept(s.threads[u]), acc); }
    }
    forall n | 0 <= n < |s'.nodes| ensures Within(TakenFrom(s'.nodes[n]), acc) {
      assert Within(TakenFrom(s.nodes[n]), acc);
    }
  }

  lemma IssueLedger(s: State, s': State, t: nat, m: Message)
    requires Ledger(s) && Issues(s, s', t, m)
    requires m.id == |s.issued| && 1 <= m.priority <= |s.chain.buckets|
    ensures Ledger(s')
  {
    IssueAccepted(s, s', t, m);
    IssueOffered(s, s', t, m);
    IssueDebt(s, s', t, m);
    IssueCovered(s, s', t, m, Accepted(s));
    IssueIds(s, s', t, m);
  }

  lemma IssueIds(s: State, s': State, t: nat, m: Message)
    requires Issues(s, s', t, m)
    requires forall i | 0 <= i < |s.issued| :: s.issued[i].id == i && 1 <= s.issued[i].priority <= |s.chain.buckets|
    requires m.id == |s.issued| && 1 <= m.priority <= |s.chain.buckets|
    ensures forall i | 0 <= i < |s'.issued| :: s'.issued[i].id == i && 1 <= s'.issued[i].priority <= |s'.chain.buckets|
    ensures multiset(s'.issued) == multiset(s.issued) + multiset{m}
  {
  }

  lemma IssueKeeps(s: State, t: nat, priority: int, force: bool)
    requires Inv(s) && t < |s.threads| && s.threads[t] == Idle && 1 <= priority <= |s.chain.buckets|
    ensures Inv(Issue(s, t, priority, force))
  {
    var s' := Issue(s, t, priority, force);
    IssueMoves(s, t, priority, force);
    FreeThread(s, t);
    IssueLedger(s, s', t, Message(|s.issued|, priority));
    MovesFree(s.threads, s.nodes, s.quelock, t, s'.threads[t], s'.quelock);
    QuietRest(s, s', t);
  }

  lemma StartGetKeeps(s: State, t: nat)
    requires Inv(s) && t < |s.threads| && s.threads[t] == Idle
    ensures Inv(Goto(s, t, GetLock))
  {
    FreeThread(s, t);
    FreePlainKeeps(s, Goto(s, t, GetLock), t);
  }

  lemma ExpireKeeps(s: State, n: nat)
    requires Inv(s) && n < |s.nodes| && s.nodes[n].wait == Waiting
    ensures !s.nodes[n].freed && Inv(WithNode(s, n, s.nodes[n].(wait := Expired)))
  {
    assert NodeOk(n, s.nodes[n], s.threads);
    var t, s' := s.nodes[n].owner, WithNode(s, n, s.nodes[n].(wait := Expired));
    AtNode(s, t, n);
    assert s.threads[t := s.threads[t]] == s.threads;
    NodeMoves(s, t, n, s.threads[t], s'.nodes[n], s.quelock);
    PlainKeeps(s, s', t, n);
  }

  lemma ApplyKeeps(s: State, a: Action)
    requires Inv(s) && Enabled(s, a)
    ensures Inv(Apply(s, a))
  {
    match a
    case StartPut(t, p) => IssueKeeps(s, t, p, false);
    case StartForce(t, p) => IssueKeeps(s, t, p, true);
    case StartGet(t) => StartGetKeeps(s, t);
    case Run(t) => StepKeeps(s, t);
    case Expire(n) => ExpireKeeps(s, n);
  }

  lemma {:induction false} RunKeeps(s: State, actions: seq<Action>)
    requires Inv(s) && Legal(s, actions)
    ensures Inv(ApplyAll(s, actions))
    decreases |actions|
  {
    if actions == [] {
    } else {
      ApplyKeeps(s, actions[0]);
      RunKeeps(Apply(s, actions[0]), actions[1..]);
    }
  }
}
