/**
 * What a timeout that comes after the waiter was popped can do: a put that reports a timeout may have
 * stored its message, and a message whose put returned 0 may be left in the hand-over list.
 */
module QueueTimeouts {
  import opened Common
  import opened Scheduler
  import opened MsgChains
  import opened QueueProtocol
  import opened QueueStructure
  import opened QueueLedger
  import opened QueueSteps
  import opened QueueRuns
  import opened QueueSafety
  import opened QueueTheorems

  /** The message of a blocked writer is in the queue, or came out of it, exactly when a reader took it in. */
  lemma AcceptedIffTaken(limit: nat, levels: nat, threadCount: nat, actions: seq<Action>, s: State, n: nat)
    requires Reached(limit, levels, threadCount, actions, s) && n < |s.nodes| && s.nodes[n].kind.Putter?
    ensures Places(s, s.nodes[n].kind.message) == if s.nodes[n].taken then 1 else 0
  {
    ReachedKeeps(limit, levels, threadCount, actions, s);
    var node := s.nodes[n];
    var m := node.kind.message;
    IssuedOnce(s.issued, m);
    assert multiset(s.issued)[m] == Accepted(s)[m] + Offered(s)[m];
    if node.taken {
      assert m in TakenFrom(s.nodes[n]);
    } else {
      GatherUpdate(NodeOffer, s.nodes, n, NOBODY);
      assert NodeOffer(node)[m] == 1 && NodeOffer(node)[m] <= Gather(NodeOffer, s.nodes)[m];
    }
  }

  // ---- Messages left in the hand-over list ----

  /** The signal of a hand-over that finds its getter no longer waiting. */
  predicate LosesSignal(s: State, a: Action) {
    && a.Run? && a.t < |s.threads| && s.threads[a.t].Signalling? && s.threads[a.t].side == Putting
    && s.threads[a.t].n < |s.nodes| && s.nodes[s.threads[a.t].n].wait != Waiting
  }

  function Lost(s: State, a: Action): nat {
    if LosesSignal(s, a) then 1 else 0
  }

  /** How many hand-overs of a run lost their signal. */
  function LostSignals(s: State, actions: seq<Action>): nat
    requires Legal(s, actions)
    decreases |actions|
  {
    if actions == [] then 0 else Lost(s, actions[0]) + LostSignals(Apply(s, actions[0]), actions[1..])
  }

  /** What a step adds to the hand-over list beyond what it adds to the getters that will fetch. */
  ghost predicate Shifts(s: State, s': State, t: nat, n: nat, lost: nat) {
    && ThreadMoves(s, s', t)
    && exists before, after {:trigger OneNode(s, s', n, before, after)} ::
         && OneNode(s, s', n, before, after)
         && |s'.temp| + Owes(s.threads[t]) + NodeOwed(before)
            == |s.temp| + Owes(s'.threads[t]) + NodeOwed(after) + lost
  }

  lemma ShiftsSurplus(s: State, s': State, t: nat, n: nat, lost: nat)
    requires Shifts(s, s', t, n, lost)
    ensures |s'.temp| - Debt(s') == |s.temp| - Debt(s) + lost
  {
    var before, after :|
      && OneNode(s, s', n, before, after)
      && |s'.temp| + Owes(s.threads[t]) + NodeOwed(before) == |s.temp| + Owes(s'.threads[t]) + NodeOwed(after) + lost;
    OneNodeMoves(s, s', n, before, after);
    DebtMoves(s, s', t, before, after);
  }

  lemma NodeShifts(s: State, s': State, t: nat, n: nat, lost: nat)
    requires ThreadMoves(s, s', t) && n < |s.nodes| == |s'.nodes| && s'.nodes == s.nodes[n := s'.nodes[n]]
    requires |s'.temp| + Owes(s.threads[t]) + NodeOwed(s.nodes[n])
          == |s.temp| + Owes(s'.threads[t]) + NodeOwed(s'.nodes[n]) + lost
    ensures Shifts(s, s', t, n, lost)
  {
    assert OneNode(s, s', n, s.nodes[n], s'.nodes[n]);
  }

  lemma WakeShifts(s: State, t: nat, n: nat)
    requires t < |s.threads| && n < |s.nodes| && s.threads[t] == Woken(n) && s.nodes[n].wait in {Signalled, Expired}
    requires !Wake(s, t, n).fault && !s.fault
    ensures Shifts(s, Wake(s, t, n), t, n, 0)
  {
    NodeShifts(s, Wake(s, t, n), t, n, 0);
  }

  lemma WithdrawShifts(s: State, t: nat, n: nat, got: Option<Message>)
    requires t < |s.threads| && n < |s.nodes| && s.threads[t] == Left(n, got)
    requires !Withdraw(s, t, n, got).fault && !s.fault
    ensures Shifts(s, Withdraw(s, t, n, got), t, n, 0)
  {
    NodeShifts(s, Withdraw(s, t, n, got), t, n, 0);
  }

  lemma ServeShifts(s: State, t: nat, side: Side, m: Message, n: nat)
    requires t < |s.threads| && n < |s.nodes| && s.threads[t] == Checking(side, m, n)
    requires !Serve(s, t, side, m, n).fault && !s.fault
    ensures Shifts(s, Serve(s, t, side, m, n), t, n, 0)
  {
    NodeShifts(s, Serve(s, t, side, m, n), t, n, 0);
  }

  lemma WakeupShifts(s: State, t: nat, side: Side, m: Message, n: nat)
    requires t < |s.threads| && n < |s.nodes| && s.threads[t] == Signalling(side, m, n)
    requires side == Putting <==> s.nodes[n].kind.Getter?
    ensures Shifts(s, Wakeup(s, t, side, m, n), t, n, Lost(s, Run(t)))
  {
    NodeShifts(s, Wakeup(s, t, side, m, n), t, n, Lost(s, Run(t)));
  }

  lemma OwnerShifts(s: State, t: nat, n: nat)
    requires t < |s.threads| && n < |s.nodes| && OwnerOf(s.threads[t]) == Some(n) && OwnerFits(s.threads[t], s.nodes[n])
    requires !s.fault && !StepNode(s, t, n).fault
    ensures Shifts(s, StepNode(s, t, n), t, n, 0)
  {
    match s.threads[t]
    case Registered(_) => NodeShifts(s, LeaveQueue(s, t, n), t, n, 0);
    case Entering(_) => NodeShifts(s, Sleep(s, t, n), t, n, 0);
    case Blocked(_) => NodeShifts(s, Relock(s, t, n), t, n, 0);
    case Woken(_) => WakeShifts(s, t, n);
    case Leaving(_, got) => NodeShifts(s, Unlock(s, t, n, Left(n, got)), t, n, 0);
    case Left(_, got) => WithdrawShifts(s, t, n, got);
    case Gone(_, got) => NodeShifts(s, Return(s, t, n, got), t, n, 0);
  }

  lemma PopperShifts(s: State, t: nat, n: nat)
    requires t < |s.threads| && n < |s.nodes|
    requires PopperOf(s.threads[t]) == Some(n) && PopperFits(s.threads[t], s.nodes[n])
    requires !s.fault && !StepNode(s, t, n).fault
    ensures Shifts(s, StepNode(s, t, n), t, n, Lost(s, Run(t)))
  {
    match s.threads[t]
    case Popping(side, m, _) => NodeShifts(s, LockNode(s, t, side, m, n), t, n, 0);
    case BothLocked(m, _) => NodeShifts(s, PutLeavesQueue(s, t, m, n), t, n, 0);
    case Checking(side, m, _) => ServeShifts(s, t, side, m, n);
    case Signalling(side, m, _) => WakeupShifts(s, t, side, m, n);
    case Unlocking(side, m, _) => NodeShifts(s, Unlock(s, t, n, Dropping(side, m, n, false)), t, n, 0);
    case Dropping(side, m, _, again) => NodeShifts(s, Drop(s, t, side, m, n, again), t, n, 0);
  }

  // Steps of threads that stand at no waiter.

  lemma SameNodesShift(s: State, s': State, t: nat)
    requires ThreadMoves(s, s', t) && s'.nodes == s.nodes && s'.temp == s.temp
    requires Owes(s'.threads[t]) == Owes(s.threads[t])
    ensures Shifts(s, s', t, |s.nodes|, 0)
  {
    assert OneNode(s, s', |s.nodes|, NOBODY, NOBODY);
  }

  lemma NewNodeShifts(s: State, s': State, t: nat, node: Node)
    requires ThreadMoves(s, s', t) && s'.nodes == s.nodes + [node] && s'.temp == s.temp
    requires Owes(s'.threads[t]) == Owes(s.threads[t]) && NodeOwed(node) == 0
    ensures Shifts(s, s', t, |s.nodes|, 0)
  {
    assert OneNode(s, s', |s.nodes|, NOBODY, node);
  }

  lemma PutDecideShifts(s: State, t: nat, m: Message)
    requires t < |s.threads| && s.threads[t] == PutLocked(m) && !s.fault && !PutDecide(s, t, m).fault
    ensures exists n :: Shifts(s, PutDecide(s, t, m), t, n, 0)
  {
    if s.getters != [] {
      NodeShifts(s, PutPopsGetter(s, t, m), t, s.getters[0], 0);
    } else if s.chain.count == s.limit {
      NewNodeShifts(s, PutBlocks(s, t, m), t, NewNode(Putter(m), t));
    } else {
      SameNodesShift(s, PutStores(s, t, m), t);
    }
  }

  lemma GetDecideShifts(s: State, t: nat)
    requires t < |s.threads| && s.threads[t] == GetLocked && !s.fault && !GetDecide(s, t).fault
    ensures exists n :: Shifts(s, GetDecide(s, t), t, n, 0)
  {
    if s.chain.count == 0 {
      NewNodeShifts(s, GetBlocks(s, t), t, NewNode(Getter, t));
    } else {
      SameNodesShift(s, GetTakes(s, t), t);
    }
  }

  lemma GetRefillShifts(s: State, t: nat, m: Message)
    requires t < |s.threads| && s.threads[t] == GetPopped(m) && !s.fault && !GetRefill(s, t, m).fault
    ensures exists n :: Shifts(s, GetRefill(s, t, m), t, n, 0)
  {
    if s.putters.count == 0 {
      SameNodesShift(s, Goto(s, t, GetFinish(m)), t);
    } else {
      GetPopsPutterShifts(s, t, m);
    }
  }

  lemma GetPopsPutterShifts(s: State, t: nat, m: Message)
    requires t < |s.threads| && s.threads[t] == GetPopped(m) && s.putters.count > 0
    requires !s.fault && !GetPopsPutter(s, t, m).fault
    ensures exists n :: Shifts(s, GetPopsPutter(s, t, m), t, n, 0)
  {
    match Pop(s.putters)
    case Stuck => SameNodesShift(s, GetPopsPutter(s, t, m), t);
    case Popped(n, _, c) => NodeShifts(s, GetPopsPutter(s, t, m), t, n, 0);
  }

  lemma FreeStepShifts(s: State, t: nat)
    requires t < |s.threads| && NodeOf(s.threads[t]) == None && !s.fault && !Step(s, t).fault
    ensures exists n :: Shifts(s, Step(s, t), t, n, 0)
  {
    var pc := s.threads[t];
    if pc.PutLocked? {
      PutDecideShifts(s, t, pc.m);
    } else if pc.GetLocked? {
      GetDecideShifts(s, t);
    } else if pc.GetPopped? {
      GetRefillShifts(s, t, pc.m);
    } else {
      SameNodesShift(s, Step(s, t), t);
    }
  }

  // Any action, any run.

  lemma NodeStepShifts(s: State, t: nat, n: nat)
    requires Inv(s) && t < |s.threads| && CanRun(s, s.threads[t]) && NodeOf(s.threads[t]) == Some(n)
    ensures n < |s.nodes| && !s.nodes[n].freed && Shifts(s, StepNode(s, t, n), t, n, Lost(s, Run(t)))
  {
    StepNodeKeeps(s, t, n);
    AtNode(s, t, n);
    if OwnerOf(s.threads[t]).Some? { OwnerShifts(s, t, n); } else { PopperShifts(s, t, n); }
  }

  lemma StepAtNode(s: State, t: nat, n: nat)
    requires t < |s.threads| && NodeOf(s.threads[t]) == Some(n) && n < |s.nodes| && !s.nodes[n].freed
    ensures Step(s, t) == StepNode(s, t, n)
  {
  }

  lemma NodeStepSurplus(s: State, t: nat, n: nat)
    requires Inv(s) && t < |s.threads| && CanRun(s, s.threads[t]) && NodeOf(s.threads[t]) == Some(n)
    ensures n < |s.nodes| && !s.nodes[n].freed
    ensures var s' := StepNode(s, t, n); |s'.temp| - Debt(s') == |s.temp| - Debt(s) + Lost(s, Run(t))
  {
    NodeStepShifts(s, t, n);
    ShiftsSurplus(s, StepNode(s, t, n), t, n, Lost(s, Run(t)));
  }

  lemma FreeStepSurplus(s: State, t: nat)
    requires t < |s.threads| && NodeOf(s.threads[t]) == None && !s.fault && !Step(s, t).fault
    ensures var s' := Step(s, t); |s'.temp| - Debt(s') == |s.temp| - Debt(s)
  {
    FreeStepShifts(s, t);
    var n :| Shifts(s, Step(s, t), t, n, 0);
    ShiftsSurplus(s, Step(s, t), t, n, 0);
  }

  lemma StepSurplus(s: State, t: nat)
    requires Inv(s) && t < |s.threads| && CanRun(s, s.threads[t])
    ensures var s' := Step(s, t); |s'.temp| - Debt(s') == |s.temp| - Debt(s) + Lost(s, Run(t))
  {
    match NodeOf(s.threads[t])
    case Some(n) =>
      NodeStepSurplus(s, t, n);
      StepAtNode(s, t, n);
    case None =>
      StepKeeps(s, t);
      FreeStepSurplus(s, t);
  }

  lemma ActionSurplus(s: State, a: Action)
    requires Inv(s) && Enabled(s, a)
    ensures |Apply(s, a).temp| - Debt(Apply(s, a)) == |s.temp| - Debt(s) + Lost(s, a)
  {
    match a
    case StartPut(t, p) => SameNodesShift(s, Apply(s, a), t); ShiftsSurplus(s, Apply(s, a), t, |s.nodes|, 0);
    case StartForce(t, p) => SameNodesShift(s, Apply(s, a), t); ShiftsSurplus(s, Apply(s, a), t, |s.nodes|, 0);
    case StartGet(t) => SameNodesShift(s, Apply(s, a), t); ShiftsSurplus(s, Apply(s, a), t, |s.nodes|, 0);
    case Run(t) => StepSurplus(s, t);
    case Expire(n) => TotalUpdate(NodeOwed, s.nodes, n, Apply(s, a).nodes[n]);
  }

  lemma {:induction false} RunSurplus(s: State, actions: seq<Action>)
    requires Inv(s) && Legal(s, actions)
    ensures |ApplyAll(s, actions).temp| - Debt(ApplyAll(s, actions)) == |s.temp| - Debt(s) + LostSignals(s, actions)
    decreases |actions|
  {
    if actions == [] {
    } else {
      ActionSurplus(s, actions[0]);
      ApplyKeeps(s, actions[0]);
      RunSurplus(Apply(s, actions[0]), actions[1..]);
    }
  }

  /**
   * The hand-over list holds one message for every getter that will fetch one, and one more for every
   * hand-over so far whose signal found its getter no longer waiting. No get looks for the latter.
   */
  lemma SurplusIsLostSignals(limit: nat, levels: nat, threadCount: nat, actions: seq<Action>, s: State)
    requires Reached(limit, levels, threadCount, actions, s)
    ensures |s.temp| == Debt(s) + LostSignals(Start(limit, levels, threadCount), actions)
  {
    StartKeeps(limit, levels, threadCount);
    RunSurplus(Start(limit, levels, threadCount), actions);
    IdleBooks(threadCount);
  }

  /** At rest, messages are left behind in the hand-over list if and only if a signal was lost on the way. */
  lemma LeftBehind(limit: nat, levels: nat, threadCount: nat, actions: seq<Action>, s: State)
    requires Reached(limit, levels, threadCount, actions, s)
    requires forall t | 0 <= t < |s.threads| :: s.threads[t] == Idle
    ensures |s.temp| == LostSignals(Start(limit, levels, threadCount), actions)
  {
    ReachedKeeps(limit, levels, threadCount, actions, s);
    SurplusIsLostSignals(limit, levels, threadCount, actions, s);
    TotalZero(Owes, s.threads);
    forall n | 0 <= n < |s.nodes| ensures NodeOwed(s.nodes[n]) == 0 {
      assert NodeOk(n, s.nodes[n], s.threads);
    }
    TotalZero(NodeOwed, s.nodes);
  }
}
