/** What every step keeps about locks, waiters, reference counts and list membership. */
module QueueStructure {
  import opened Common
  import opened Scheduler
  import opened MsgChains
  import opened QueueProtocol

  // ---------- Which step of the code holds what ----------

  predicate HoldsQueue(pc: Pc) {
    match pc
    case PutLocked(_) => true
    case PutStored(_) => true
    case GetLocked => true
    case GetPopped(_) => true
    case GetFinish(_) => true
    case ForceLocked(_) => true
    case ForceDone(_) => true
    case Registered(_) => true
    case Popping(_, _, _) => true
    case BothLocked(_, _) => true
    case Checking(side, _, _) => side == Getting
    case Signalling(side, _, _) => side == Getting
    case Unlocking(side, _, _) => side == Getting
    case Dropping(side, _, _, _) => side == Getting
    case _ => false
  }

  predicate HoldsCond(pc: Pc) {
    match pc
    case Registered(_) => true
    case Entering(_) => true
    case Woken(_) => true
    case Leaving(_, _) => true
    case BothLocked(_, _) => true
    case Checking(_, _, _) => true
    case Signalling(_, _, _) => true
    case Unlocking(_, _, _) => true
    case _ => false
  }

  /** The popper has not yet given its signal and will give it unless the waiter timed out first. */
  predicate SignalPending(pc: Pc) {
    pc.Popping? || pc.BothLocked? || pc.Checking? || pc.Signalling?
  }

  // ---------- The invariant ----------

  /** The waiter's progress fits the position of the thread that owns it. */
  predicate OwnerFits(pc: Pc, node: Node) {
    match pc
    case Registered(_) => node.wait == NotYet && !node.timedOut
    case Entering(_) => node.wait == NotYet && !node.timedOut
    case Blocked(_) => node.wait in {Waiting, Signalled, Expired} && !node.timedOut
    case Woken(_) => node.wait in {Signalled, Expired} && !node.timedOut
    case Leaving(_, got) => OwnerDone(node, got)
    case Left(_, got) => OwnerDone(node, got)
    case Gone(_, got) => OwnerDone(node, got) && !node.linked
    case _ => true
  }

  predicate OwnerDone(node: Node, got: Option<Message>) {
    if node.timedOut then node.wait == Expired && got == None
    else node.wait == Resumed && (got.Some? <==> node.kind.Getter?)
  }

  predicate PopperFits(pc: Pc, node: Node) {
    match pc
    case Popping(side, _, _) => (side == Putting <==> node.kind.Getter?) && !node.taken
    case BothLocked(_, _) => node.kind.Getter? && !node.taken
    case Checking(side, _, _) => (side == Putting <==> node.kind.Getter?) && !node.taken
    case Signalling(side, _, _) => (side == Putting <==> node.kind.Getter?) && (side == Getting ==> node.taken)
    case Unlocking(side, _, _) => (side == Putting <==> node.kind.Getter?) && (side == Getting ==> node.taken)
    case Dropping(side, _, _, again) =>
      (side == Putting <==> node.kind.Getter?) && (side == Getting ==> (node.taken <==> !again))
    case _ => true
  }

  predicate ThreadOk(pc: Pc, t: nat, nodes: seq<Node>, quelock: Option<nat>) {
    && (HoldsQueue(pc) <==> quelock == Some(t))
    && (OwnerOf(pc).Some? ==>
          && OwnerOf(pc).value < |nodes|
          && var node := nodes[OwnerOf(pc).value];
             node.owner == t && OwnerFits(pc, node) && (HoldsCond(pc) ==> node.condlock == Some(t)))
    && (PopperOf(pc).Some? ==>
          && PopperOf(pc).value < |nodes|
          && var node := nodes[PopperOf(pc).value];
             node.popper == Some(t) && PopperFits(pc, node) && (HoldsCond(pc) ==> node.condlock == Some(t)))
  }

  predicate OwnerHolds(n: nat, node: Node, threads: seq<Pc>) {
    node.owner < |threads| && OwnerOf(threads[node.owner]) == Some(n)
  }

  predicate PopperHolds(n: nat, node: Node, threads: seq<Pc>) {
    node.popper.Some? && node.popper.value < |threads| && PopperOf(threads[node.popper.value]) == Some(n)
  }

  predicate NodeOk(n: nat, node: Node, threads: seq<Pc>) {
    && node.owner < |threads|
    && (node.condlock.Some? ==>
          && node.condlock.value < |threads|
          && HoldsCond(threads[node.condlock.value]) && NodeOf(threads[node.condlock.value]) == Some(n))
    // the reference count is the number of threads that still use the waiter
    && node.refCount
       == (if OwnerHolds(n, node, threads) then 1 else 0) + (if PopperHolds(n, node, threads) then 1 else 0)
    && (node.freed <==> node.refCount == 0)
    && node.popper != Some(node.owner)
    && (node.linked ==> node.popper == None && OwnerHolds(n, node, threads))
    && (node.popper == None ==> !node.taken && !node.wait.Signalled? && !node.wait.Resumed?)
    && (node.wait.Signalled? || node.wait.Resumed? ==> (node.kind.Putter? ==> node.taken))
    && (node.timedOut ==> node.wait == Expired)
    && (node.wait in {NotYet, Waiting, Signalled} ==> OwnerHolds(n, node, threads))
    // a waiter that sleeps is linked, or the thread that popped it still owes it the signal
    && (node.wait in {NotYet, Waiting} && !node.linked ==>
          PopperHolds(n, node, threads) && SignalPending(threads[node.popper.value]))
  }

  predicate Structure(threads: seq<Pc>, nodes: seq<Node>, quelock: Option<nat>) {
    && (quelock.Some? ==> quelock.value < |threads|)
    && (forall t {:trigger ThreadOk(threads[t], t, nodes, quelock)} | 0 <= t < |threads| ::
          ThreadOk(threads[t], t, nodes, quelock))
    && (forall n {:trigger NodeOk(n, nodes[n], threads)} | 0 <= n < |nodes| :: NodeOk(n, nodes[n], threads))
  }

  /** The getter list holds exactly the linked getters, once each. */
  predicate GettersLinked(getters: seq<nat>, nodes: seq<Node>) {
    && (forall n | n in getters :: n < |nodes|)
    && (forall n: nat {:trigger multiset(getters)[n]} {:trigger nodes[n]} | n < |nodes| ::
          multiset(getters)[n] == if nodes[n].linked && nodes[n].kind.Getter? then 1 else 0)
  }

  /** The putter chain holds exactly the linked putters, once each, in the bucket of their priority. */
  ghost predicate PuttersLinked(putters: Chain<nat>, nodes: seq<Node>) {
    && WellFormed(putters)
    && (forall n: nat {:trigger Stored<nat>(putters.buckets)[n]} {:trigger nodes[n]} | n < |nodes| ::
          Stored<nat>(putters.buckets)[n] == if nodes[n].linked && nodes[n].kind.Putter? then 1 else 0)
    && (forall k: nat, n: nat {:trigger n in putters.buckets[k].items} | k < |putters.buckets| ::
          n in putters.buckets[k].items ==> Seated(nodes, n, k))
    && (forall n: nat {:trigger nodes[n]} | n < |nodes| && nodes[n].kind.Putter? ::
          1 <= nodes[n].kind.message.priority <= |putters.buckets|)
  }

  predicate Seated(nodes: seq<Node>, n: nat, k: nat) {
    n < |nodes| && nodes[n].kind.Putter? && nodes[n].kind.message.priority == k + 1
  }

  // ---------- One thread moves: what has to be checked ----------

  lemma NodeUnaffected(k: nat, node: Node, threads: seq<Pc>, t: nat, pc': Pc)
    requires NodeOk(k, node, threads) && t < |threads|
    requires NodeOf(threads[t]) != Some(k) && NodeOf(pc') != Some(k)
    ensures NodeOk(k, node, threads[t := pc'])
  {
    var threads' := threads[t := pc'];
    assert OwnerHolds(k, node, threads) == OwnerHolds(k, node, threads');
    assert PopperHolds(k, node, threads) == PopperHolds(k, node, threads');
  }

  lemma ThreadUnaffected(threads: seq<Pc>, nodes: seq<Node>, q: Option<nat>, u: nat, n: nat, node': Node,
                         t: nat, q': Option<nat>)
    requires u < |threads| && n < |nodes| && u != t && ThreadOk(threads[u], u, nodes, q)
    requires NodeOf(threads[u]) == Some(n) ==> ThreadOk(threads[u], u, nodes[n := node'], q)
    requires q' == q || (q in {None, Some(t)} && q' in {None, Some(t)})
    ensures ThreadOk(threads[u], u, nodes[n := node'], q')
  {
  }

  /** Thread t moves to pc' and waiter n becomes node'; n is the only waiter t is at before or after. */
  lemma Moves(threads: seq<Pc>, nodes: seq<Node>, q: Option<nat>, t: nat, pc': Pc, n: nat, node': Node, q': Option<nat>)
    requires Structure(threads, nodes, q) && t < |threads| && n < |nodes|
    requires NodeOf(threads[t]) in {None, Some(n)} && NodeOf(pc') in {None, Some(n)}
    requires ThreadOk(pc', t, nodes[n := node'], q') && NodeOk(n, node', threads[t := pc'])
    requires q' == q || (q in {None, Some(t)} && q' in {None, Some(t)})
    requires forall u | 0 <= u < |threads| && u != t && NodeOf(threads[u]) == Some(n) ::
      ThreadOk(threads[u], u, nodes[n := node'], q)
    ensures Structure(threads[t := pc'], nodes[n := node'], q')
  {
    var threads', nodes' := threads[t := pc'], nodes[n := node'];
    forall u | 0 <= u < |threads'| ensures ThreadOk(threads'[u], u, nodes', q') {
      if u != t { ThreadUnaffected(threads, nodes, q, u, n, node', t, q'); }
    }
    forall k | 0 <= k < |nodes'| ensures NodeOk(k, nodes'[k], threads') {
      if k != n { NodeUnaffected(k, nodes[k], threads, t, pc'); }
    }
  }

  /** Thread t moves between steps that hold no waiter. */
  lemma MovesFree(threads: seq<Pc>, nodes: seq<Node>, q: Option<nat>, t: nat, pc': Pc, q': Option<nat>)
    requires Structure(threads, nodes, q) && t < |threads|
    requires NodeOf(threads[t]) == None && NodeOf(pc') == None
    requires HoldsQueue(pc') <==> q' == Some(t)
    requires q' == q || (q in {None, Some(t)} && q' in {None, Some(t)})
    ensures Structure(threads[t := pc'], nodes, q')
  {
    var threads' := threads[t := pc'];
    forall u | 0 <= u < |threads'| ensures ThreadOk(threads'[u], u, nodes, q') {
      assert u != t ==> ThreadOk(threads[u], u, nodes, q);
    }
    forall k | 0 <= k < |nodes| ensures NodeOk(k, nodes[k], threads') {
      NodeUnaffected(k, nodes[k], threads, t, pc');
    }
  }

  /** Thread t, holding the queue lock, creates a waiter. */
  lemma MovesRegister(threads: seq<Pc>, nodes: seq<Node>, q: Option<nat>, t: nat, kind: Kind)
    requires Structure(threads, nodes, q) && t < |threads| && NodeOf(threads[t]) == None && q == Some(t)
    ensures Structure(threads[t := Registered(|nodes|)], nodes + [NewNode(kind, t)], q)
  {
    var threads', nodes' := threads[t := Registered(|nodes|)], nodes + [NewNode(kind, t)];
    forall u | 0 <= u < |threads'| ensures ThreadOk(threads'[u], u, nodes', q) {
      assert u != t ==> ThreadOk(threads[u], u, nodes, q);
    }
    forall k | 0 <= k < |nodes'| ensures NodeOk(k, nodes'[k], threads') {
      if k < |nodes| { NodeUnaffected(k, nodes[k], threads, t, Registered(|nodes|)); }
    }
  }

  /** No thread other than the owner and the popper can be at a waiter. */
  lemma OnlyOwnerAndPopper(threads: seq<Pc>, nodes: seq<Node>, q: Option<nat>, u: nat, n: nat)
    requires Structure(threads, nodes, q) && u < |threads| && n < |nodes| && NodeOf(threads[u]) == Some(n)
    ensures if OwnerOf(threads[u]).Some? then u == nodes[n].owner else Some(u) == nodes[n].popper
    ensures !nodes[n].freed
  {
    assert ThreadOk(threads[u], u, nodes, q);
    assert NodeOk(n, nodes[n], threads);
  }

  // ---------- Every step keeps the structure ----------

  predicate Sound(s: State) { Structure(s.threads, s.nodes, s.quelock) }

  lemma PopNodeSound(s: State, t: nat, n: nat, pc: Pc)
    requires Sound(s) && t < |s.threads| && n < |s.nodes| && s.nodes[n].linked
    requires s.quelock == Some(t) && NodeOf(s.threads[t]) == None
    requires pc.Popping? && pc.n == n && (pc.side == Putting <==> s.nodes[n].kind.Getter?)
    ensures !s.nodes[n].freed && Sound(PopNode(s, t, n, pc))
  {
    assert NodeOk(n, s.nodes[n], s.threads);
    var node' := PopNode(s, t, n, pc).nodes[n];
    forall u | 0 <= u < |s.threads| && u != t && NodeOf(s.threads[u]) == Some(n)
      ensures ThreadOk(s.threads[u], u, s.nodes[n := node'], s.quelock)
    {
      OnlyOwnerAndPopper(s.threads, s.nodes, s.quelock, u, n);
      assert ThreadOk(s.threads[u], u, s.nodes, s.quelock);
    }
    Moves(s.threads, s.nodes, s.quelock, t, pc, n, node', s.quelock);
  }

  /** What a step of thread t may change of waiter n without disturbing the other thread at it. */
  predicate Harmless(node: Node, node': Node, t: nat) {
    && node'.owner == node.owner && node'.popper == node.popper && node'.kind == node.kind
    && (node'.condlock == node.condlock || node.condlock in {None, Some(t)})
    && (node'.linked ==> node.linked)
    && (node.owner == t ==> node'.taken == node.taken)
    && (node.owner != t ==>
          && node'.timedOut == node.timedOut
          && (node'.wait == node.wait || (node.wait == Waiting && node'.wait == Signalled)))
  }

  lemma OthersFit(s: State, t: nat, n: nat, node': Node)
    requires Sound(s) && t < |s.threads| && n < |s.nodes| && NodeOf(s.threads[t]) == Some(n)
    requires Harmless(s.nodes[n], node', t)
    ensures forall u | 0 <= u < |s.threads| && u != t && NodeOf(s.threads[u]) == Some(n) ::
      ThreadOk(s.threads[u], u, s.nodes[n := node'], s.quelock)
  {
    assert NodeOk(n, s.nodes[n], s.threads);
    OnlyOwnerAndPopper(s.threads, s.nodes, s.quelock, t, n);
    forall u | 0 <= u < |s.threads| && u != t && NodeOf(s.threads[u]) == Some(n)
      ensures ThreadOk(s.threads[u], u, s.nodes[n := node'], s.quelock)
    {
      OnlyOwnerAndPopper(s.threads, s.nodes, s.quelock, u, n);
      assert ThreadOk(s.threads[u], u, s.nodes, s.quelock);
    }
  }

  lemma AtNode(s: State, t: nat, n: nat)
    requires Sound(s) && t < |s.threads| && NodeOf(s.threads[t]) == Some(n)
    ensures n < |s.nodes| && !s.nodes[n].freed
    ensures ThreadOk(s.threads[t], t, s.nodes, s.quelock) && NodeOk(n, s.nodes[n], s.threads)
    ensures if OwnerOf(s.threads[t]).Some? then OwnerHolds(n, s.nodes[n], s.threads)
            else PopperHolds(n, s.nodes[n], s.threads)
  {
    assert ThreadOk(s.threads[t], t, s.nodes, s.quelock);
    assert NodeOk(n, s.nodes[n], s.threads);
  }

  /** Thread t, at waiter n, moves to pc' and turns the waiter into node'. */
  lemma NodeMoves(s: State, t: nat, n: nat, pc': Pc, node': Node, q': Option<nat>)
    requires Sound(s) && t < |s.threads| && n < |s.nodes| && NodeOf(s.threads[t]) == Some(n)
    requires NodeOf(pc') in {None, Some(n)} && Harmless(s.nodes[n], node', t)
    requires ThreadOk(pc', t, s.nodes[n := node'], q') && NodeOk(n, node', s.threads[t := pc'])
    requires q' == s.quelock || (s.quelock == Some(t) && q' == None)
    ensures Structure(s.threads[t := pc'], s.nodes[n := node'], q')
  {
    OthersFit(s, t, n, node');
    Moves(s.threads, s.nodes, s.quelock, t, pc', n, node', q');
  }

  /** While the popper holds the waiter's lock, its owner is past entering the wait. */
  lemma OwnerNotBefore(s: State, t: nat, n: nat)
    requires Sound(s) && t < |s.threads| && PopperOf(s.threads[t]) == Some(n) && HoldsCond(s.threads[t])
    requires n < |s.nodes|
    ensures s.nodes[n].wait != NotYet
  {
    AtNode(s, t, n);
    var owner := s.nodes[n].owner;
    assert ThreadOk(s.threads[owner], owner, s.nodes, s.quelock);
  }

  predicate CanStepAt(s: State, t: nat, n: nat) {
    Sound(s) && !s.fault && t < |s.threads| && CanRun(s, s.threads[t]) && NodeOf(s.threads[t]) == Some(n)
  }

  lemma RegisteredSound(s: State, t: nat, n: nat)
    requires CanStepAt(s, t, n) && s.threads[t].Registered?
    ensures n < |s.nodes|
    ensures var s' := LeaveQueue(s, t, n); s'.fault || Sound(s')
  {
    AtNode(s, t, n);
    var pc, node, q := s.threads[t], s.nodes[n], s.quelock;
    assert s.nodes == s.nodes[n := node];
    NodeMoves(s, t, n, Entering(n), node, None);
  }

  lemma EnteringSound(s: State, t: nat, n: nat)
    requires CanStepAt(s, t, n) && s.threads[t].Entering?
    ensures n < |s.nodes|
    ensures var s' := Sleep(s, t, n); s'.fault || Sound(s')
  {
    AtNode(s, t, n);
    var pc, node, q := s.threads[t], s.nodes[n], s.quelock;
    NodeMoves(s, t, n, Blocked(n), node.(wait := Waiting, condlock := None), q);
  }

  lemma BlockedSound(s: State, t: nat, n: nat)
    requires CanStepAt(s, t, n) && s.threads[t].Blocked?
    ensures n < |s.nodes|
    ensures var s' := Relock(s, t, n); s'.fault || Sound(s')
  {
    AtNode(s, t, n);
    var pc, node, q := s.threads[t], s.nodes[n], s.quelock;
    NodeMoves(s, t, n, Woken(n), node.(condlock := Some(t)), q);
  }

  lemma WokenSound(s: State, t: nat, n: nat)
    requires CanStepAt(s, t, n) && s.threads[t].Woken?
    ensures n < |s.nodes|
    ensures var s' := Wake(s, t, n); s'.fault || Sound(s')
  {
    AtNode(s, t, n);
    var pc, node, q := s.threads[t], s.nodes[n], s.quelock;
    if node.wait == Expired {
      NodeMoves(s, t, n, Leaving(n, None), node.(timedOut := true), q);
    } else if node.kind.Putter? {
      NodeMoves(s, t, n, Leaving(n, None), node.(wait := Resumed), q);
    } else if s.temp != [] {
      NodeMoves(s, t, n, Leaving(n, Some(s.temp[0])), node.(wait := Resumed), q);
    }
  }

  lemma LeavingSound(s: State, t: nat, n: nat)
    requires CanStepAt(s, t, n) && s.threads[t].Leaving?
    ensures n < |s.nodes|
    ensures var s' := Unlock(s, t, n, Left(n, s.threads[t].got)); s'.fault || Sound(s')
  {
    AtNode(s, t, n);
    var pc, node, q := s.threads[t], s.nodes[n], s.quelock;
    NodeMoves(s, t, n, Left(n, pc.got), node.(condlock := None), q);
  }

  lemma LeftSound(s: State, t: nat, n: nat)
    requires CanStepAt(s, t, n) && s.threads[t].Left?
    ensures n < |s.nodes|
    ensures var s' := Withdraw(s, t, n, s.threads[t].got); s'.fault || Sound(s')
  {
    AtNode(s, t, n);
    var pc, node, q := s.threads[t], s.nodes[n], s.quelock;
    if node.timedOut && node.linked {
      NodeMoves(s, t, n, Gone(n, pc.got), node.(linked := false), q);
    } else {
      assert s.nodes == s.nodes[n := node];
      NodeMoves(s, t, n, Gone(n, pc.got), node, q);
    }
  }

  lemma GoneSound(s: State, t: nat, n: nat)
    requires CanStepAt(s, t, n) && s.threads[t].Gone?
    ensures n < |s.nodes|
    ensures var s' := Return(s, t, n, s.threads[t].got); s'.fault || Sound(s')
  {
    AtNode(s, t, n);
    var pc, node, q := s.threads[t], s.nodes[n], s.quelock;
    NodeMoves(s, t, n, Idle, Destroyed(node), q);
  }

  lemma PoppingSound(s: State, t: nat, n: nat)
    requires CanStepAt(s, t, n) && s.threads[t].Popping?
    ensures n < |s.nodes|
    ensures var s' := LockNode(s, t, s.threads[t].side, s.threads[t].m, n); s'.fault || Sound(s')
  {
    AtNode(s, t, n);
    var pc, node, q := s.threads[t], s.nodes[n], s.quelock;
    NodeMoves(s, t, n, if pc.side == Putting then BothLocked(pc.m, n) else Checking(Getting, pc.m, n),
              node.(condlock := Some(t)), q);
  }

  lemma BothLockedSound(s: State, t: nat, n: nat)
    requires CanStepAt(s, t, n) && s.threads[t].BothLocked?
    ensures n < |s.nodes|
    ensures var s' := PutLeavesQueue(s, t, s.threads[t].m, n); s'.fault || Sound(s')
  {
    AtNode(s, t, n);
    var pc, node, q := s.threads[t], s.nodes[n], s.quelock;
    assert s.nodes == s.nodes[n := node];
    NodeMoves(s, t, n, Checking(Putting, pc.m, n), node, None);
  }

  lemma CheckingSound(s: State, t: nat, n: nat)
    requires CanStepAt(s, t, n) && s.threads[t].Checking?
    ensures n < |s.nodes|
    ensures var s' := Serve(s, t, s.threads[t].side, s.threads[t].m, n); s'.fault || Sound(s')
  {
    AtNode(s, t, n);
    var pc, node, q := s.threads[t], s.nodes[n], s.quelock;
    if node.timedOut {
      NodeMoves(s, t, n, Dropping(pc.side, pc.m, n, true), node.(condlock := None), q);
    } else if pc.side == Putting {
      assert s.nodes == s.nodes[n := node];
      NodeMoves(s, t, n, Signalling(pc.side, pc.m, n), node, q);
    } else {
      NodeMoves(s, t, n, Signalling(pc.side, pc.m, n), node.(taken := true), q);
    }
  }

  lemma SignallingSound(s: State, t: nat, n: nat)
    requires CanStepAt(s, t, n) && s.threads[t].Signalling?
    ensures n < |s.nodes|
    ensures var s' := Wakeup(s, t, s.threads[t].side, s.threads[t].m, n); s'.fault || Sound(s')
  {
    AtNode(s, t, n);
    OwnerNotBefore(s, t, n);
    var pc, node, q := s.threads[t], s.nodes[n], s.quelock;
    NodeMoves(s, t, n, Unlocking(pc.side, pc.m, n),
              node.(wait := if node.wait == Waiting then Signalled else node.wait), q);
  }

  lemma UnlockingSound(s: State, t: nat, n: nat)
    requires CanStepAt(s, t, n) && s.threads[t].Unlocking?
    ensures n < |s.nodes|
    ensures var s' := Unlock(s, t, n, Dropping(s.threads[t].side, s.threads[t].m, n, false)); s'.fault || Sound(s')
  {
    AtNode(s, t, n);
    var pc, node, q := s.threads[t], s.nodes[n], s.quelock;
    NodeMoves(s, t, n, Dropping(pc.side, pc.m, n, false), node.(condlock := None), q);
  }

  lemma GetterDroppedSound(s: State, t: nat, n: nat)
    requires CanStepAt(s, t, n) && s.threads[t].Dropping? && s.threads[t].side == Putting
    ensures n < |s.nodes|
    ensures var s' := Drop(s, t, Putting, s.threads[t].m, n, s.threads[t].again); s'.fault || Sound(s')
  {
    AtNode(s, t, n);
    var pc := s.threads[t];
    NodeMoves(s, t, n, if pc.again then PutLock(pc.m) else Idle, Destroyed(s.nodes[n]), s.quelock);
  }

  lemma PutterDroppedSound(s: State, t: nat, n: nat)
    requires CanStepAt(s, t, n) && s.threads[t].Dropping? && s.threads[t].side == Getting
    ensures n < |s.nodes|
    ensures var s' := Drop(s, t, Getting, s.threads[t].m, n, s.threads[t].again); s'.fault || Sound(s')
  {
    AtNode(s, t, n);
    var pc := s.threads[t];
    NodeMoves(s, t, n, if pc.again then GetPopped(pc.m) else GetFinish(pc.m), Destroyed(s.nodes[n]), s.quelock);
  }

  lemma StepNodeSound(s: State, t: nat, n: nat)
    requires CanStepAt(s, t, n)
    ensures n < |s.nodes| && !s.nodes[n].freed
    ensures var s' := StepNode(s, t, n); s'.fault || Sound(s')
  {
    AtNode(s, t, n);
    match s.threads[t]
    case Registered(_) => RegisteredSound(s, t, n);
    case Entering(_) => EnteringSound(s, t, n);
    case Blocked(_) => BlockedSound(s, t, n);
    case Woken(_) => WokenSound(s, t, n);
    case Leaving(_, _) => LeavingSound(s, t, n);
    case Left(_, _) => LeftSound(s, t, n);
    case Gone(_, _) => GoneSound(s, t, n);
    case Popping(_, _, _) => PoppingSound(s, t, n);
    case BothLocked(_, _) => BothLockedSound(s, t, n);
    case Checking(_, _, _) => CheckingSound(s, t, n);
    case Signalling(_, _, _) => SignallingSound(s, t, n);
    case Unlocking(_, _, _) => UnlockingSound(s, t, n);
    case Dropping(Putting, _, _, _) => GetterDroppedSound(s, t, n);
    case Dropping(Getting, _, _, _) => PutterDroppedSound(s, t, n);
  }
}
