/** What calls of the protocol ask for and report: every put has its message and, in the end, one result. */
module QueueResults {
  import opened Common
  import opened Scheduler
  import opened MsgChains
  import opened QueueProtocol
  import opened QueueStructure
  import opened QueueSteps
  import opened QueueRuns
  import opened QueueSafety
  import opened QueueTheorems
  import opened QueueTimeouts
  import opened QueueArrival

  /** The message whose put, forced or not, a thread at pc is inside of. */
  function PutAt(pc: Pc, nodes: seq<Node>): Option<Message> {
    match pc
    case PutLock(m) => Some(m)
    case PutLocked(m) => Some(m)
    case PutStored(m) => Some(m)
    case ForceLock(m) => Some(m)
    case ForceLocked(m) => Some(m)
    case ForceDone(m) => Some(m)
    case BothLocked(m, _) => Some(m)
    case Popping(side, m, _) => if side == Putting then Some(m) else None
    case Checking(side, m, _) => if side == Putting then Some(m) else None
    case Signalling(side, m, _) => if side == Putting then Some(m) else None
    case Unlocking(side, m, _) => if side == Putting then Some(m) else None
    case Dropping(side, m, _, _) => if side == Putting then Some(m) else None
    case _ =>
      if OwnerOf(pc).Some? && OwnerOf(pc).value < |nodes| && nodes[OwnerOf(pc).value].kind.Putter?
      then Some(nodes[OwnerOf(pc).value].kind.message) else None
  }

  function PutOf(s: State, t: nat): Option<Message>
    requires t < |s.threads|
  {
    PutAt(s.threads[t], s.nodes)
  }

  /** Thread t stays inside of its put, or of none, or leaves it with a result. */
  ghost predicate Goes(s: State, s': State, t: nat) {
    && t < |s.threads| == |s'.threads| && s'.threads == s.threads[t := s'.threads[t]] && s'.issued == s.issued
    && if PutOf(s', t) == PutOf(s, t) then s'.putOk == s.putOk && s'.putFailed == s.putFailed
       else
         && PutOf(s, t).Some? && PutOf(s', t) == None
         && var m := PutOf(s, t).value;
            || (s'.putOk == s.putOk + {m} && s'.putFailed == s.putFailed)
            || (s'.putOk == s.putOk && s'.putFailed == s.putFailed + {m})
  }

  // ---- Steps ----

  /** The books of a step that only moves thread t to pc. */
  predicate Moved(s: State, s': State, t: nat, pc: Pc) {
    && t < |s.threads| && s'.threads == s.threads[t := pc]
    && s'.issued == s.issued && s'.putOk == s.putOk && s'.putFailed == s.putFailed
  }

  lemma PopNodeMoved(s: State, t: nat, n: nat, pc: Pc)
    requires t < |s.threads| && !PopNode(s, t, n, pc).fault
    ensures Moved(s, PopNode(s, t, n, pc), t, pc)
  {
  }

  lemma MovedGoes(s: State, s': State, t: nat, pc: Pc)
    requires Moved(s, s', t, pc) && PutAt(pc, s'.nodes) == PutOf(s, t)
    ensures Goes(s, s', t)
  {
  }

  lemma WithdrawGoes(s: State, t: nat, n: nat, got: Option<Message>)
    requires t < |s.threads| && n < |s.nodes| && s.threads[t] == Left(n, got) && !Withdraw(s, t, n, got).fault
    ensures Goes(s, Withdraw(s, t, n, got), t)
  {
    WithdrawMoved(s, t, n, got);
    WithdrawAtOne(s, t, n, got);
    MovedGoes(s, Withdraw(s, t, n, got), t, Gone(n, got));
  }

  lemma WithdrawMoved(s: State, t: nat, n: nat, got: Option<Message>)
    requires t < |s.threads| && n < |s.nodes| && !Withdraw(s, t, n, got).fault
    ensures Moved(s, Withdraw(s, t, n, got), t, Gone(n, got))
  {
  }

  lemma WakeGoes(s: State, t: nat, n: nat)
    requires t < |s.threads| && n < |s.nodes| && s.threads[t] == Woken(n) && !Wake(s, t, n).fault
    ensures Goes(s, Wake(s, t, n), t)
  {
  }

  lemma ReturnGoes(s: State, t: nat, n: nat, got: Option<Message>)
    requires t < |s.threads| && n < |s.nodes| && s.threads[t] == Gone(n, got)
    ensures Goes(s, Return(s, t, n, got), t)
  {
  }

  lemma ServeGoes(s: State, t: nat, side: Side, m: Message, n: nat)
    requires t < |s.threads| && n < |s.nodes| && s.threads[t] == Checking(side, m, n) && !Serve(s, t, side, m, n).fault
    ensures Goes(s, Serve(s, t, side, m, n), t)
  {
    var pc := if s.nodes[n].timedOut then Dropping(side, m, n, true) else Signalling(side, m, n);
    ServeMoved(s, t, side, m, n);
    MovedGoes(s, Serve(s, t, side, m, n), t, pc);
  }

  lemma ServeMoved(s: State, t: nat, side: Side, m: Message, n: nat)
    requires t < |s.threads| && n < |s.nodes| && !Serve(s, t, side, m, n).fault
    ensures Moved(s, Serve(s, t, side, m, n), t,
                  if s.nodes[n].timedOut then Dropping(side, m, n, true) else Signalling(side, m, n))
  {
  }

  lemma DropGoes(s: State, t: nat, side: Side, m: Message, n: nat, again: bool)
    requires t < |s.threads| && n < |s.nodes| && s.threads[t] == Dropping(side, m, n, again)
    ensures Goes(s, Drop(s, t, side, m, n, again), t)
  {
  }

  lemma OwnerStepGoes(s: State, t: nat, n: nat)
    requires t < |s.threads| && n < |s.nodes| && OwnerOf(s.threads[t]) == Some(n) && !StepNode(s, t, n).fault
    ensures Goes(s, StepNode(s, t, n), t)
  {
    match s.threads[t]
    case Woken(_) => WakeGoes(s, t, n);
    case Left(_, got) => WithdrawGoes(s, t, n, got);
    case Gone(_, got) => ReturnGoes(s, t, n, got);
    case _ =>
  }

  lemma LockStepGoes(s: State, t: nat, n: nat)
    requires t < |s.threads| && n < |s.nodes| && PopperOf(s.threads[t]) == Some(n)
    requires !s.threads[t].Checking? && !s.threads[t].Dropping?
    ensures Goes(s, StepNode(s, t, n), t)
  {
    var s' := StepNode(s, t, n);
    match s.threads[t]
    case Popping(side, m, _) =>
      MovedGoes(s, s', t, if side == Putting then BothLocked(m, n) else Checking(Getting, m, n));
    case BothLocked(m, _) => MovedGoes(s, s', t, Checking(Putting, m, n));
    case Signalling(side, m, _) => MovedGoes(s, s', t, Unlocking(side, m, n));
    case Unlocking(side, m, _) => MovedGoes(s, s', t, Dropping(side, m, n, false));
  }

  lemma PopperStepGoes(s: State, t: nat, n: nat)
    requires t < |s.threads| && n < |s.nodes| && PopperOf(s.threads[t]) == Some(n) && !StepNode(s, t, n).fault
    requires PopperFits(s.threads[t], s.nodes[n])
    ensures Goes(s, StepNode(s, t, n), t)
  {
    match s.threads[t]
    case Checking(side, m, _) => ServeGoes(s, t, side, m, n);
    case Dropping(side, m, _, again) => DropGoes(s, t, side, m, n, again);
    case _ => LockStepGoes(s, t, n);
  }

  lemma PutDecideGoes(s: State, t: nat, m: Message)
    requires t < |s.threads| && s.threads[t] == PutLocked(m) && !PutDecide(s, t, m).fault
    ensures Goes(s, PutDecide(s, t, m), t)
  {
    var s' := PutDecide(s, t, m);
    if s.getters != [] {
      PopNodeMoved(s.(getters := s.getters[1..]), t, s.getters[0], Popping(Putting, m, s.getters[0]));
      MovedGoes(s, s', t, Popping(Putting, m, s.getters[0]));
    } else if s.chain.count == s.limit {
      MovedGoes(s, s', t, Registered(|s.nodes|));
    } else {
      MovedGoes(s, s', t, PutStored(m));
    }
  }

  lemma GetDecideGoes(s: State, t: nat)
    requires t < |s.threads| && s.threads[t] == GetLocked && !GetDecide(s, t).fault
    ensures Goes(s, GetDecide(s, t), t)
  {
  }

  lemma GetRefillGoes(s: State, t: nat, m: Message)
    requires t < |s.threads| && s.threads[t] == GetPopped(m) && !GetRefill(s, t, m).fault
    ensures Goes(s, GetRefill(s, t, m), t)
  {
    if s.putters.count > 0 { GetPopsPutterGoes(s, t, m); }
  }

  lemma GetPopsPutterGoes(s: State, t: nat, m: Message)
    requires t < |s.threads| && s.threads[t] == GetPopped(m) && s.putters.count > 0
    requires !GetPopsPutter(s, t, m).fault
    ensures Goes(s, GetPopsPutter(s, t, m), t)
  {
    var p := Pop<nat>(s.putters);
    if p.Popped? {
      PopNodeMoved(s.(putters := p.chain), t, p.item, Popping(Getting, m, p.item));
      MovedGoes(s, GetPopsPutter(s, t, m), t, Popping(Getting, m, p.item));
    }
  }

  lemma ForceStoreGoes(s: State, t: nat, m: Message)
    requires t < |s.threads| && s.threads[t] == ForceLocked(m) && !ForceStore(s, t, m).fault
    ensures Goes(s, ForceStore(s, t, m), t)
  {
  }

  /** A call takes the queue lock first and gives it up last. */
  lemma LockOrEndGoes(s: State, t: nat)
    requires t < |s.threads| && NodeOf(s.threads[t]) == None
    requires var pc := s.threads[t]; !pc.PutLocked? && !pc.GetLocked? && !pc.GetPopped? && !pc.ForceLocked?
    ensures Goes(s, Step(s, t), t)
  {
    var s' := Step(s, t);
    match s.threads[t]
    case PutLock(m) => MovedGoes(s, s', t, PutLocked(m));
    case GetLock => MovedGoes(s, s', t, GetLocked);
    case ForceLock(m) => MovedGoes(s, s', t, ForceLocked(m));
    case _ =>
  }

  lemma FreeStepGoes(s: State, t: nat)
    requires t < |s.threads| && NodeOf(s.threads[t]) == None && !Step(s, t).fault
    ensures Goes(s, Step(s, t), t)
  {
    var pc := s.threads[t];
    if pc.PutLocked? {
      PutDecideGoes(s, t, pc.m);
    } else if pc.GetLocked? {
      GetDecideGoes(s, t);
    } else if pc.GetPopped? {
      GetRefillGoes(s, t, pc.m);
    } else if pc.ForceLocked? {
      ForceStoreGoes(s, t, pc.m);
    } else {
      LockOrEndGoes(s, t);
    }
  }

  lemma RunGoes(s: State, t: nat)
    requires Inv(s) && t < |s.threads| && CanRun(s, s.threads[t])
    ensures Goes(s, Step(s, t), t)
  {
    match NodeOf(s.threads[t])
    case None =>
      StepKeeps(s, t);
      FreeStepGoes(s, t);
    case Some(n) =>
      StepNodeKeeps(s, t, n);
      StepAtNode(s, t, n);
      AtNode(s, t, n);
      if OwnerOf(s.threads[t]).Some? { OwnerStepGoes(s, t, n); } else { PopperStepGoes(s, t, n); }
  }

  // ---- One result for every put ----

  /** A message m whose put is over has one result, and one whose put is under way has none yet. */
  ghost predicate Settled(s: State) {
    && s.putOk !! s.putFailed
    && (forall m | m in s.putOk || m in s.putFailed :: m in s.issued)
    && (forall m | m in s.issued :: m in s.putOk || m in s.putFailed || Underway(s, m))
    && forall t | 0 <= t < |s.threads| && PutOf(s, t).Some? :: OnlyHere(s, t, PutOf(s, t).value)
  }

  predicate Underway(s: State, m: Message) {
    exists t | 0 <= t < |s.threads| :: PutOf(s, t) == Some(m)
  }

  /** Thread t alone is putting m, and there is no result. */
  predicate OnlyHere(s: State, t: nat, m: Message) {
    && m in s.issued && m !in s.putOk && m !in s.putFailed
    && forall u | 0 <= u < |s.threads| && u != t :: PutOf(s, u) != Some(m)
  }

  /** The other threads are where they were, with the same waiters. */
  lemma OthersStay(s: State, s': State, t: nat)
    requires Inv(s) && Kept(s, s') && t < |s.threads| == |s'.threads| && s'.threads == s.threads[t := s'.threads[t]]
    ensures forall u | 0 <= u < |s.threads| && u != t :: PutOf(s', u) == PutOf(s, u)
  {
    forall u | 0 <= u < |s.threads| && u != t ensures PutOf(s', u) == PutOf(s, u) {
      assert ThreadOk(s.threads[u], u, s.nodes, s.quelock);
      if OwnerOf(s.threads[u]).Some? {
        var n := OwnerOf(s.threads[u]).value;
        assert SameWho(s.nodes[n], s'.nodes[n]);
      }
    }
  }

  lemma GoesSettled(s: State, s': State, t: nat)
    requires Settled(s) && Goes(s, s', t)
    requires forall u | 0 <= u < |s.threads| && u != t :: PutOf(s', u) == PutOf(s, u)
    ensures Settled(s')
  {
    forall m | m in s'.issued ensures m in s'.putOk || m in s'.putFailed || Underway(s', m) {
      if Underway(s, m) {
        var u :| 0 <= u < |s.threads| && PutOf(s, u) == Some(m);
        assert PutOf(s', u) == Some(m) || u == t;
      }
    }
    forall u | 0 <= u < |s'.threads| && PutOf(s', u).Some? ensures OnlyHere(s', u, PutOf(s', u).value) {
      assert PutOf(s, u) == PutOf(s', u);
      assert OnlyHere(s, u, PutOf(s, u).value);
      if PutOf(s, t).Some? { assert OnlyHere(s, t, PutOf(s, t).value); }
    }
  }

  lemma RunSettled(s: State, t: nat)
    requires Inv(s) && Settled(s) && Enabled(s, Run(t))
    ensures Settled(Step(s, t))
  {
    RunGoes(s, t);
    ActionKept(s, Run(t));
    OthersStay(s, Step(s, t), t);
    GoesSettled(s, Step(s, t), t);
  }

  lemma IssueSettled(s: State, t: nat, priority: int, force: bool)
    requires Settled(s) && t < |s.threads| && s.threads[t] == Idle
    requires forall i | 0 <= i < |s.issued| :: s.issued[i].id == i
    ensures Settled(Issue(s, t, priority, force))
  {
    var m, s' := Message(|s.issued|, priority), Issue(s, t, priority, force);
    assert m !in s.issued && PutOf(s', t) == Some(m);
    forall x | x in s'.issued ensures x in s'.putOk || x in s'.putFailed || Underway(s', x) {
      if x == m {
        assert PutOf(s', t) == Some(m);
      } else if Underway(s, x) {
        var u :| 0 <= u < |s.threads| && PutOf(s, u) == Some(x);
        assert PutOf(s', u) == Some(x);
      }
    }
    forall u | 0 <= u < |s'.threads| && PutOf(s', u).Some? ensures OnlyHere(s', u, PutOf(s', u).value) {
      if u != t {
        assert PutOf(s, u) == PutOf(s', u);
        assert OnlyHere(s, u, PutOf(s, u).value);
        forall v | 0 <= v < |s.threads| && v != u ensures PutOf(s', v) != PutOf(s', u) {
          assert v != t ==> PutOf(s', v) == PutOf(s, v);
        }
      } else {
        forall v | 0 <= v < |s.threads| && v != t ensures PutOf(s', v) != Some(m) {
          assert PutOf(s', v) == PutOf(s, v);
          if PutOf(s, v).Some? { assert OnlyHere(s, v, PutOf(s, v).value); }
        }
      }
    }
  }

  lemma SameBooksSettled(s: State, s': State)
    requires Settled(s) && |s'.threads| == |s.threads|
    requires s'.issued == s.issued && s'.putOk == s.putOk && s'.putFailed == s.putFailed
    requires forall u | 0 <= u < |s.threads| :: PutOf(s', u) == PutOf(s, u)
    ensures Settled(s')
  {
    forall m | m in s'.issued ensures m in s'.putOk || m in s'.putFailed || Underway(s', m) {
      if Underway(s, m) {
        var u :| 0 <= u < |s.threads| && PutOf(s, u) == Some(m);
        assert PutOf(s', u) == Some(m);
      }
    }
    forall u | 0 <= u < |s'.threads| && PutOf(s', u).Some? ensures OnlyHere(s', u, PutOf(s', u).value) {
      assert OnlyHere(s, u, PutOf(s, u).value);
    }
  }

  lemma ExpireSettled(s: State, n: nat)
    requires Settled(s) && n < |s.nodes|
    ensures Settled(WithNode(s, n, s.nodes[n].(wait := Expired)))
  {
    SameBooksSettled(s, WithNode(s, n, s.nodes[n].(wait := Expired)));
  }

  lemma CallSettled(s: State, a: Action)
    requires Settled(s) && Enabled(s, a) && !a.Run? && forall i | 0 <= i < |s.issued| :: s.issued[i].id == i
    ensures Settled(Apply(s, a))
  {
    match a
    case StartPut(t, p) => IssueSettled(s, t, p, false);
    case StartForce(t, p) => IssueSettled(s, t, p, true);
    case StartGet(t) => SameBooksSettled(s, Goto(s, t, GetLock));
    case Expire(n) => ExpireSettled(s, n);
  }

  lemma ActionSettled(s: State, a: Action)
    requires Inv(s) && Settled(s) && Enabled(s, a)
    ensures Settled(Apply(s, a))
  {
    if a.Run? { RunSettled(s, a.t); } else { CallSettled(s, a); }
  }

  lemma {:induction false} RunsSettled(s: State, actions: seq<Action>)
    requires Inv(s) && Settled(s) && Legal(s, actions)
    ensures Settled(ApplyAll(s, actions))
    decreases |actions|
  {
    if actions == [] {
    } else {
      ActionSettled(s, actions[0]);
      ApplyKeeps(s, actions[0]);
      RunsSettled(Apply(s, actions[0]), actions[1..]);
    }
  }

  /**
   * In every reached state each message put so far is in exactly one of three situations: one thread, and only
   * one, is inside of its put; or its put returned 0; or it returned -1.
   */
  lemma OneResultEach(limit: nat, levels: nat, threadCount: nat, actions: seq<Action>, s: State, m: Message)
    requires Reached(limit, levels, threadCount, actions, s) && m in s.issued
    ensures (m in s.putOk && m !in s.putFailed && !Underway(s, m))
            || (m !in s.putOk && m in s.putFailed && !Underway(s, m))
            || (m !in s.putOk && m !in s.putFailed
                && exists t | 0 <= t < |s.threads| :: PutOf(s, t) == Some(m) && OnlyHere(s, t, m))
  {
    StartKeeps(limit, levels, threadCount);
    RunsSettled(Start(limit, levels, threadCount), actions);
    if Underway(s, m) {
      var t :| 0 <= t < |s.threads| && PutOf(s, t) == Some(m);
      assert OnlyHere(s, t, m);
    }
  }

  /**
   * A blocked call reports what its wait found: a put whose timer expired returns -1 and one that was signalled
   * 0; a get whose timer expired returns nothing and one that was signalled its message.
   */
  lemma BlockedCallReports(limit: nat, levels: nat, threadCount: nat, actions: seq<Action>, s: State, t: nat, n: nat,
                           got: Option<Message>)
    requires Reached(limit, levels, threadCount, actions, s) && t < |s.threads| && s.threads[t] == Gone(n, got)
    ensures n < |s.nodes| && s.nodes[n].wait in {Expired, Resumed} && t < |Step(s, t).threads|
    ensures Reports(s, Step(s, t), t, s.nodes[n], got)
  {
    ReachedKeeps(limit, levels, threadCount, actions, s);
    StepNodeKeeps(s, t, n);
    StepAtNode(s, t, n);
    AtNode(s, t, n);
    ReturnReports(s, t, n, got);
  }

  ghost predicate Reports(s: State, s': State, t: nat, node: Node, got: Option<Message>)
    requires t < |s'.threads|
  {
    var late := node.wait == Expired;
    && s'.threads[t] == Idle
    && match node.kind
       case Getter =>
         && (got == None <==> late) && s'.putOk == s.putOk && s'.putFailed == s.putFailed
         && s'.delivered == if late then s.delivered else s.delivered + multiset{got.value}
       case Putter(m) =>
         && s'.delivered == s.delivered && s'.putOk == s.putOk + (if late then {} else {m})
         && s'.putFailed == s.putFailed + (if late then {m} else {})
  }

  lemma ReturnReports(s: State, t: nat, n: nat, got: Option<Message>)
    requires t < |s.threads| && n < |s.nodes| && OwnerDone(s.nodes[n], got)
    ensures |Return(s, t, n, got).threads| == |s.threads| && Reports(s, Return(s, t, n, got), t, s.nodes[n], got)
  {
  }

  // ---- What is asked for ----

  function AskedBy(a: Action): seq<int> {
    match a
    case StartPut(_, p) => [p]
    case StartForce(_, p) => [p]
    case _ => []
  }

  /** The priorities of all puts and forced puts of a run, in the order of their calls. */
  function Asked(actions: seq<Action>): seq<int> {
    if actions == [] then [] else AskedBy(actions[0]) + Asked(actions[1..])
  }

  /** Messages of these priorities, numbered on from first. */
  function Messages(first: nat, priorities: seq<int>): seq<Message> {
    seq(|priorities|, i requires 0 <= i < |priorities| => Message(first + i, priorities[i]))
  }

  lemma MessagesAppend(issued: seq<Message>, p: seq<int>, q: seq<int>)
    ensures var more := issued + Messages(|issued|, p);
      more + Messages(|more|, q) == issued + Messages(|issued|, p + q)
  {
  }

  lemma CallIssues(s: State, a: Action)
    requires Enabled(s, a) && !a.Run?
    ensures Apply(s, a).issued == s.issued + Messages(|s.issued|, AskedBy(a))
  {
  }

  lemma ActionIssues(s: State, a: Action)
    requires Inv(s) && Enabled(s, a)
    ensures Apply(s, a).issued == s.issued + Messages(|s.issued|, AskedBy(a))
  {
    if a.Run? { RunGoes(s, a.t); } else { CallIssues(s, a); }
  }

  lemma {:induction false} RunIssues(s: State, actions: seq<Action>)
    requires Inv(s) && Legal(s, actions)
    ensures ApplyAll(s, actions).issued == s.issued + Messages(|s.issued|, Asked(actions))
    decreases |actions|
  {
    if actions == [] {
      assert Messages(|s.issued|, []) == [];
    } else {
      ActionIssues(s, actions[0]);
      ApplyKeeps(s, actions[0]);
      RunIssues(Apply(s, actions[0]), actions[1..]);
      MessagesAppend(s.issued, AskedBy(actions[0]), Asked(actions[1..]));
    }
  }

  /** The messages of a run are the puts that were called, numbered in order, with the priorities they asked for. */
  lemma IssuedAsAsked(limit: nat, levels: nat, threadCount: nat, actions: seq<Action>, s: State)
    requires Reached(limit, levels, threadCount, actions, s)
    ensures |s.issued| == |Asked(actions)|
    ensures forall i | 0 <= i < |s.issued| :: s.issued[i] == Message(i, Asked(actions)[i])
  {
    StartKeeps(limit, levels, threadCount);
    RunIssues(Start(limit, levels, threadCount), actions);
  }
}
