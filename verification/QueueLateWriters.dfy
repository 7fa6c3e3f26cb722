/**
 * When a put that reports a timeout has stored its message after all: exactly when its timer ran out late,
 * that is after a get had popped the writer and before the get's signal reached it.
 */
module QueueLateWriters {
  import opened Common
  import opened Scheduler
  import opened MsgChains
  import opened QueueProtocol
  import opened QueueStructure
  import opened QueueLedger
  import opened QueueSteps
  import opened QueueRuns
  import opened QueueSafety
  import opened QueueTheorems
  import opened QueueTimeouts

  // ---- Late events ----

  /** A get that holds writer n's lock does not see a timeout noted, though the timer has run out. */
  predicate ServesExpired(s: State, a: Action, n: nat) {
    && a.Run? && a.t < |s.threads| && s.threads[a.t].Checking? && s.threads[a.t].side == Getting
    && s.threads[a.t].n == n < |s.nodes| && s.nodes[n].wait == Expired && !s.nodes[n].timedOut
  }

  /** Writer n's timer runs out while the get that served it is about to signal. */
  predicate ExpiresBeforeSignal(s: State, a: Action, n: nat) {
    a == Expire(n) && exists t | 0 <= t < |s.threads| :: SignalsWriter(s.threads[t], n)
  }

  predicate SignalsWriter(pc: Pc, n: nat) {
    pc.Signalling? && pc.side == Getting && pc.n == n
  }

  function Hit(s: State, a: Action, n: nat): nat {
    if ServesExpired(s, a, n) || ExpiresBeforeSignal(s, a, n) then 1 else 0
  }

  /** The only writer that action a can hit. */
  function Target(s: State, a: Action): Option<nat> {
    match a
    case Run(t) => if t < |s.threads| then PopperOf(s.threads[t]) else None
    case Expire(n) => Some(n)
    case _ => None
  }

  function AnyHit(s: State, a: Action): nat {
    if Target(s, a).Some? then Hit(s, a, Target(s, a).value) else 0
  }

  /** How often a run hits writer n, and how often it hits any writer. */
  function Hits(s: State, actions: seq<Action>, n: nat): nat
    requires Legal(s, actions)
    decreases |actions|
  {
    if actions == [] then 0 else Hit(s, actions[0], n) + Hits(Apply(s, actions[0]), actions[1..], n)
  }

  function AllHits(s: State, actions: seq<Action>): nat
    requires Legal(s, actions)
    decreases |actions|
  {
    if actions == [] then 0 else AnyHit(s, actions[0]) + AllHits(Apply(s, actions[0]), actions[1..])
  }

  // ---- What a step does to the writers ----

  /** 1 for a writer whose message was stored and that will report, or has reported, a timeout. */
  function Late(node: Node): nat {
    if node.kind.Putter? && node.taken && node.wait == Expired then 1 else 0
  }

  function LateAt(s: State, n: nat): nat {
    if n < |s.nodes| then Late(s.nodes[n]) else 0
  }

  predicate KeepsWriter(before: Node, after: Node) {
    before.kind.Putter? ==> after.kind == before.kind && (before.timedOut ==> after.timedOut)
  }

  function RefusedBy(node: Node): set<Message> {
    if node.kind.Putter? && node.timedOut then {node.kind.message} else {}
  }

  /** Only waiter n changes, `hit` says whether it becomes late, and no other put is refused. */
  ghost predicate Turns(s: State, s': State, n: nat, hit: nat) {
    exists before, after {:trigger OneNode(s, s', n, before, after)} ::
      && OneNode(s, s', n, before, after) && Late(after) == Late(before) + hit
      && KeepsWriter(before, after) && s'.putFailed <= s.putFailed + RefusedBy(after)
  }

  lemma NodeTurns(s: State, s': State, n: nat, hit: nat)
    requires n < |s.nodes| == |s'.nodes| && s'.nodes == s.nodes[n := s'.nodes[n]]
    requires Late(s'.nodes[n]) == Late(s.nodes[n]) + hit && KeepsWriter(s.nodes[n], s'.nodes[n])
    requires s'.putFailed <= s.putFailed + RefusedBy(s'.nodes[n])
    ensures Turns(s, s', n, hit)
  {
    assert OneNode(s, s', n, s.nodes[n], s'.nodes[n]);
  }

  lemma SameNodesTurn(s: State, s': State)
    requires s'.nodes == s.nodes && s'.putFailed == s.putFailed
    ensures Turns(s, s', |s.nodes|, 0)
  {
    assert OneNode(s, s', |s.nodes|, NOBODY, NOBODY);
  }

  lemma NewNodeTurns(s: State, s': State, node: Node)
    requires s'.nodes == s.nodes + [node] && s'.putFailed == s.putFailed && !node.taken
    ensures Turns(s, s', |s.nodes|, 0)
  {
    assert OneNode(s, s', |s.nodes|, NOBODY, node);
  }

  // Steps at a waiter.

  lemma WakeTurns(s: State, t: nat, n: nat)
    requires t < |s.threads| && n < |s.nodes| && s.nodes[n].wait in {Signalled, Expired}
    requires !Wake(s, t, n).fault && !s.fault
    ensures Turns(s, Wake(s, t, n), n, 0)
  {
    NodeTurns(s, Wake(s, t, n), n, 0);
  }

  lemma WithdrawTurns(s: State, t: nat, n: nat, got: Option<Message>)
    requires t < |s.threads| && n < |s.nodes| && !Withdraw(s, t, n, got).fault && !s.fault
    ensures Turns(s, Withdraw(s, t, n, got), n, 0)
  {
    NodeTurns(s, Withdraw(s, t, n, got), n, 0);
  }

  lemma ServeTurns(s: State, t: nat, side: Side, m: Message, n: nat)
    requires t < |s.threads| && n < |s.nodes| && s.threads[t] == Checking(side, m, n)
    requires PopperFits(s.threads[t], s.nodes[n]) && !Serve(s, t, side, m, n).fault && !s.fault
    ensures Turns(s, Serve(s, t, side, m, n), n, Hit(s, Run(t), n))
  {
    NodeTurns(s, Serve(s, t, side, m, n), n, Hit(s, Run(t), n));
  }

  lemma ReturnTurns(s: State, t: nat, n: nat, got: Option<Message>)
    requires t < |s.threads| && n < |s.nodes|
    ensures Turns(s, Return(s, t, n, got), n, 0)
  {
    NodeTurns(s, Return(s, t, n, got), n, 0);
  }

  lemma WakeupTurns(s: State, t: nat, side: Side, m: Message, n: nat)
    requires t < |s.threads| && n < |s.nodes|
    ensures Turns(s, Wakeup(s, t, side, m, n), n, 0)
  {
    NodeTurns(s, Wakeup(s, t, side, m, n), n, 0);
  }

  lemma DropTurns(s: State, t: nat, side: Side, m: Message, n: nat, again: bool)
    requires t < |s.threads| && n < |s.nodes|
    ensures Turns(s, Drop(s, t, side, m, n, again), n, 0)
  {
    NodeTurns(s, Drop(s, t, side, m, n, again), n, 0);
  }

  lemma OwnerTurns(s: State, t: nat, n: nat)
    requires t < |s.threads| && n < |s.nodes| && OwnerOf(s.threads[t]) == Some(n) && OwnerFits(s.threads[t], s.nodes[n])
    requires !s.fault && !StepNode(s, t, n).fault
    ensures Turns(s, StepNode(s, t, n), n, 0)
  {
    match s.threads[t]
    case Registered(_) => NodeTurns(s, LeaveQueue(s, t, n), n, 0);
    case Entering(_) => NodeTurns(s, Sleep(s, t, n), n, 0);
    case Blocked(_) => NodeTurns(s, Relock(s, t, n), n, 0);
    case Woken(_) => WakeTurns(s, t, n);
    case Leaving(_, got) => NodeTurns(s, Unlock(s, t, n, Left(n, got)), n, 0);
    case Left(_, got) => WithdrawTurns(s, t, n, got);
    case Gone(_, got) => ReturnTurns(s, t, n, got);
  }

  lemma PopperTurns(s: State, t: nat, n: nat)
    requires t < |s.threads| && n < |s.nodes|
    requires PopperOf(s.threads[t]) == Some(n) && PopperFits(s.threads[t], s.nodes[n])
    requires !s.fault && !StepNode(s, t, n).fault
    ensures Turns(s, StepNode(s, t, n), n, Hit(s, Run(t), n))
  {
    match s.threads[t]
    case Popping(side, m, _) => NodeTurns(s, LockNode(s, t, side, m, n), n, 0);
    case BothLocked(m, _) => NodeTurns(s, PutLeavesQueue(s, t, m, n), n, 0);
    case Checking(side, m, _) => ServeTurns(s, t, side, m, n);
    case Signalling(side, m, _) => WakeupTurns(s, t, side, m, n);
    case Unlocking(side, m, _) => NodeTurns(s, Unlock(s, t, n, Dropping(side, m, n, false)), n, 0);
    case Dropping(side, m, _, again) => DropTurns(s, t, side, m, n, again);
  }

  /** A writer that was served and still waits is about to be signalled, and only such a writer. */
  lemma ServedAndWaiting(s: State, n: nat)
    requires Sound(s) && n < |s.nodes| && s.nodes[n].wait == Waiting
    ensures s.nodes[n].kind.Putter? && s.nodes[n].taken <==> ExpiresBeforeSignal(s, Expire(n), n)
  {
    var node := s.nodes[n];
    assert NodeOk(n, node, s.threads);
    if node.kind.Putter? && node.taken {
      assert ThreadOk(s.threads[node.popper.value], node.popper.value, s.nodes, s.quelock);
      assert SignalsWriter(s.threads[node.popper.value], n);
    }
    if ExpiresBeforeSignal(s, Expire(n), n) {
      var t :| 0 <= t < |s.threads| && SignalsWriter(s.threads[t], n);
      assert ThreadOk(s.threads[t], t, s.nodes, s.quelock);
    }
  }

  lemma ExpireTurns(s: State, n: nat)
    requires Sound(s) && n < |s.nodes| && s.nodes[n].wait == Waiting
    ensures Turns(s, WithNode(s, n, s.nodes[n].(wait := Expired)), n, Hit(s, Expire(n), n))
  {
    ServedAndWaiting(s, n);
    NodeTurns(s, WithNode(s, n, s.nodes[n].(wait := Expired)), n, Hit(s, Expire(n), n));
  }

  // Steps of threads that stand at no waiter.

  lemma PutDecideTurns(s: State, t: nat, m: Message)
    requires t < |s.threads| && !s.fault && !PutDecide(s, t, m).fault
    ensures exists n :: Turns(s, PutDecide(s, t, m), n, 0)
  {
    if s.getters != [] {
      NodeTurns(s, PutPopsGetter(s, t, m), s.getters[0], 0);
    } else if s.chain.count == s.limit {
      NewNodeTurns(s, PutBlocks(s, t, m), NewNode(Putter(m), t));
    } else {
      SameNodesTurn(s, PutStores(s, t, m));
    }
  }

  lemma GetDecideTurns(s: State, t: nat)
    requires t < |s.threads| && !s.fault && !GetDecide(s, t).fault
    ensures exists n :: Turns(s, GetDecide(s, t), n, 0)
  {
    if s.chain.count == 0 {
      NewNodeTurns(s, GetBlocks(s, t), NewNode(Getter, t));
    } else {
      SameNodesTurn(s, GetTakes(s, t));
    }
  }

  lemma GetPopsPutterTurns(s: State, t: nat, m: Message)
    requires t < |s.threads| && s.putters.count > 0 && !s.fault && !GetPopsPutter(s, t, m).fault
    ensures exists n :: Turns(s, GetPopsPutter(s, t, m), n, 0)
  {
    match Pop(s.putters)
    case Stuck => SameNodesTurn(s, GetPopsPutter(s, t, m));
    case Popped(n, _, c) => NodeTurns(s, GetPopsPutter(s, t, m), n, 0);
  }

  lemma FreeStepTurns(s: State, t: nat)
    requires t < |s.threads| && NodeOf(s.threads[t]) == None && !s.fault && !Step(s, t).fault
    ensures exists n :: Turns(s, Step(s, t), n, 0)
  {
    var pc := s.threads[t];
    if pc.PutLocked? {
      PutDecideTurns(s, t, pc.m);
    } else if pc.GetLocked? {
      GetDecideTurns(s, t);
    } else if pc.GetPopped? && s.putters.count > 0 {
      GetPopsPutterTurns(s, t, pc.m);
    } else {
      SameNodesTurn(s, Step(s, t));
    }
  }

  // ---- From steps to runs ----

  /** What an action adds to every single count and to the total. */
  ghost predicate Counts(s: State, s': State, a: Action) {
    && (forall n: nat {:trigger LateAt(s', n)} :: LateAt(s', n) == LateAt(s, n) + Hit(s, a, n))
    && Total(Late, s'.nodes) == Total(Late, s.nodes) + AnyHit(s, a)
  }

  /** Every refused put has its waiter. */
  ghost predicate Refused(s: State) {
    forall m | m in s.putFailed :: HasRefused(s, m)
  }

  ghost predicate HasRefused(s: State, m: Message) {
    exists n | 0 <= n < |s.nodes| :: m in RefusedBy(s.nodes[n])
  }

  lemma TurnsCount(s: State, s': State, n: nat, hit: nat)
    requires Turns(s, s', n, hit) && (n < |s.nodes| || hit == 0)
    ensures forall k: nat {:trigger LateAt(s', k)} :: LateAt(s', k) == LateAt(s, k) + if k == n then hit else 0
    ensures Total(Late, s'.nodes) == Total(Late, s.nodes) + hit
  {
    var before, after :| OneNode(s, s', n, before, after) && Late(after) == Late(before) + hit;
    if n < |s.nodes| {
      TotalUpdate(Late, s.nodes, n, after);
    } else if |s'.nodes| > |s.nodes| {
    }
  }

  lemma TurnsRefused(s: State, s': State, n: nat, hit: nat)
    requires Turns(s, s', n, hit) && Refused(s)
    ensures Refused(s')
  {
    var before, after :|
      && OneNode(s, s', n, before, after) && KeepsWriter(before, after)
      && s'.putFailed <= s.putFailed + RefusedBy(after);
    forall m | m in s'.putFailed ensures HasRefused(s', m) {
      if m in s.putFailed {
        assert HasRefused(s, m);
        var k :| 0 <= k < |s.nodes| && m in RefusedBy(s.nodes[k]);
        assert m in RefusedBy(s'.nodes[k]);
      } else {
        assert m in RefusedBy(s'.nodes[if n < |s.nodes| then n else |s.nodes|]);
      }
    }
  }

  lemma NodeStepTurns(s: State, t: nat, n: nat)
    requires Inv(s) && t < |s.threads| && CanRun(s, s.threads[t]) && NodeOf(s.threads[t]) == Some(n)
    ensures n < |s.nodes| && !s.nodes[n].freed && Turns(s, StepNode(s, t, n), n, Hit(s, Run(t), n))
  {
    StepNodeKeeps(s, t, n);
    AtNode(s, t, n);
    if OwnerOf(s.threads[t]).Some? { OwnerTurns(s, t, n); } else { PopperTurns(s, t, n); }
  }

  lemma NodeStepCounts(s: State, t: nat, n: nat)
    requires Inv(s) && t < |s.threads| && CanRun(s, s.threads[t]) && NodeOf(s.threads[t]) == Some(n)
    ensures n < |s.nodes| && !s.nodes[n].freed && Counts(s, StepNode(s, t, n), Run(t))
    ensures Refused(s) ==> Refused(StepNode(s, t, n))
  {
    NodeStepTurns(s, t, n);
    TurnsSettle(s, StepNode(s, t, n), Run(t), n);
  }

  lemma TurnsSettle(s: State, s': State, a: Action, n: nat)
    requires Turns(s, s', n, Hit(s, a, n)) && n < |s.nodes|
    requires AnyHit(s, a) == Hit(s, a, n) && forall k: nat | k != n :: Hit(s, a, k) == 0
    ensures Counts(s, s', a) && (Refused(s) ==> Refused(s'))
  {
    TurnsCount(s, s', n, Hit(s, a, n));
    if Refused(s) { TurnsRefused(s, s', n, Hit(s, a, n)); }
  }

  lemma FreeStepCounts(s: State, t: nat)
    requires t < |s.threads| && NodeOf(s.threads[t]) == None && !s.fault && !Step(s, t).fault
    ensures Counts(s, Step(s, t), Run(t))
    ensures Refused(s) ==> Refused(Step(s, t))
  {
    FreeStepTurns(s, t);
    var n :| Turns(s, Step(s, t), n, 0);
    TurnsCount(s, Step(s, t), n, 0);
    if Refused(s) { TurnsRefused(s, Step(s, t), n, 0); }
  }

  lemma RunCounts(s: State, t: nat)
    requires Inv(s) && t < |s.threads| && CanRun(s, s.threads[t])
    ensures Counts(s, Step(s, t), Run(t))
    ensures Refused(s) ==> Refused(Step(s, t))
  {
    match NodeOf(s.threads[t])
    case Some(n) =>
      NodeStepCounts(s, t, n);
      StepAtNode(s, t, n);
    case None =>
      StepKeeps(s, t);
      FreeStepCounts(s, t);
  }

  lemma StartCounts(s: State, a: Action)
    requires Enabled(s, a) && !a.Run? && !a.Expire?
    ensures Counts(s, Apply(s, a), a)
    ensures Refused(s) ==> Refused(Apply(s, a))
  {
    var s' := Apply(s, a);
    SameNodesTurn(s, s');
    TurnsCount(s, s', |s.nodes|, 0);
    if Refused(s) { TurnsRefused(s, s', |s.nodes|, 0); }
  }

  lemma ExpireCounts(s: State, n: nat)
    requires Inv(s) && n < |s.nodes| && s.nodes[n].wait == Waiting
    ensures var s' := WithNode(s, n, s.nodes[n].(wait := Expired));
      Counts(s, s', Expire(n)) && (Refused(s) ==> Refused(s'))
  {
    var s' := WithNode(s, n, s.nodes[n].(wait := Expired));
    ExpireTurns(s, n);
    TurnsCount(s, s', n, Hit(s, Expire(n), n));
    if Refused(s) { TurnsRefused(s, s', n, Hit(s, Expire(n), n)); }
  }

  lemma ActionCounts(s: State, a: Action)
    requires Inv(s) && Enabled(s, a)
    ensures Counts(s, Apply(s, a), a)
    ensures Refused(s) ==> Refused(Apply(s, a))
  {
    if a.Run? {
      RunCounts(s, a.t);
    } else if a.Expire? {
      ExpireCounts(s, a.n);
    } else {
      StartCounts(s, a);
    }
  }

  lemma {:induction false} RunHits(s: State, actions: seq<Action>, n: nat)
    requires Inv(s) && Legal(s, actions)
    ensures LateAt(ApplyAll(s, actions), n) == LateAt(s, n) + Hits(s, actions, n)
    ensures Total(Late, ApplyAll(s, actions).nodes) == Total(Late, s.nodes) + AllHits(s, actions)
    ensures Refused(s) ==> Refused(ApplyAll(s, actions))
    decreases |actions|
  {
    if actions == [] {
    } else {
      ActionCounts(s, actions[0]);
      ApplyKeeps(s, actions[0]);
      RunHits(Apply(s, actions[0]), actions[1..], n);
    }
  }

  // ---- What follows for callers ----

  /**
   * In every reachable state the writers that were stored although their timer ran out are exactly those
   * the run hit, each of them once.
   */
  lemma LateIffHit(limit: nat, levels: nat, threadCount: nat, actions: seq<Action>, s: State, n: nat)
    requires Reached(limit, levels, threadCount, actions, s) && n < |s.nodes|
    ensures var start := Start(limit, levels, threadCount);
      && (s.nodes[n].kind.Putter? && s.nodes[n].taken && s.nodes[n].wait == Expired <==> Hits(start, actions, n) > 0)
      && Hits(start, actions, n) <= 1
      && Total(Late, s.nodes) == AllHits(start, actions)
  {
    StartKeeps(limit, levels, threadCount);
    RunHits(Start(limit, levels, threadCount), actions, n);
  }

  /**
   * A put that reported a timeout left its message outside if and only if no late event hit its writer;
   * otherwise the message is in the queue, or came out of it, like any other.
   */
  lemma RefusedPutOutsideIffNotHit(limit: nat, levels: nat, threadCount: nat, actions: seq<Action>, s: State,
                                   m: Message)
    requires Reached(limit, levels, threadCount, actions, s) && m in s.putFailed
    ensures var start := Start(limit, levels, threadCount);
      && (exists n | 0 <= n < |s.nodes| :: s.nodes[n].kind == Putter(m))
      && Places(s, m) <= 1
      && (Places(s, m) == 0 <==> forall n | 0 <= n < |s.nodes| && s.nodes[n].kind == Putter(m) ::
                                   Hits(start, actions, n) == 0)
  {
    var start := Start(limit, levels, threadCount);
    ReachedKeeps(limit, levels, threadCount, actions, s);
    StartKeeps(limit, levels, threadCount);
    RunHits(start, actions, 0);
    assert HasRefused(s, m);
    var k :| 0 <= k < |s.nodes| && m in RefusedBy(s.nodes[k]);
    assert NodeOk(k, s.nodes[k], s.threads);
    forall n | 0 <= n < |s.nodes| && s.nodes[n].kind == Putter(m)
      ensures Hits(start, actions, n) > 0 ==> Places(s, m) == 1
    {
      AcceptedIffTaken(limit, levels, threadCount, actions, s, n);
      LateIffHit(limit, levels, threadCount, actions, s, n);
    }
    AcceptedIffTaken(limit, levels, threadCount, actions, s, k);
    LateIffHit(limit, levels, threadCount, actions, s, k);
  }
}
