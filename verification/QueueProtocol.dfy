/**
 * The put/get hand-over of src/qc_mq/qc_queue.c as interleaved steps of any number of threads: the
 * queue lock, one condition lock per waiter, waits that expire or are signalled and only later
 * reacquire their lock, reference counts, and the temporary hand-over list.
 *
 * Every step is total: what would be undefined or an assertion failure in the code (touching a freed
 * waiter, an empty hand-over list, a push over the limit, removing an entry that is not linked) sets
 * `fault`. The one assertion the scheduler can really violate ends the process (`aborted`).
 */
module QueueProtocol {
  import opened Common
  import opened Scheduler
  import opened MsgChains

  // ---------- State ----------

  /** How far a waiter's timed wait has got. */
  datatype Wait = NotYet | Waiting | Signalled | Expired | Resumed

  datatype Kind = Getter | Putter(message: Message)

  /**
   * A QcGetter or QcPutter. `linked` says that its list entry is in the list. `owner`, `popper` and
   * `taken` only record history: who created it, who popped it, whether its message was stored.
   */
  datatype Node = Node(
    kind: Kind, owner: nat, refCount: int, freed: bool, linked: bool, timedOut: bool,
    wait: Wait, condlock: Option<nat>, popper: Option<nat>, taken: bool)

  /** What the thread that popped a waiter is doing: a put pops getters, a get pops putters. */
  datatype Side = Putting | Getting

  /** Where a thread stands. Names of the first group end a call; `n` is always a waiter. */
  datatype Pc =
    | Idle
    | PutLock(m: Message) | PutLocked(m: Message) | PutStored(m: Message)
    | GetLock | GetLocked | GetPopped(m: Message) | GetFinish(m: Message)
    | ForceLock(m: Message) | ForceLocked(m: Message) | ForceDone(m: Message)
    // the owner of a waiter
    | Registered(n: nat) | Entering(n: nat) | Blocked(n: nat) | Woken(n: nat)
    | Leaving(n: nat, got: Option<Message>) | Left(n: nat, got: Option<Message>) | Gone(n: nat, got: Option<Message>)
    // the thread that popped a waiter
    | Popping(side: Side, m: Message, n: nat) | BothLocked(m: Message, n: nat)
    | Checking(side: Side, m: Message, n: nat) | Signalling(side: Side, m: Message, n: nat)
    | Unlocking(side: Side, m: Message, n: nat) | Dropping(side: Side, m: Message, n: nat, again: bool)

  datatype State = State(
    limit: nat, chain: Chain<Message>, temp: seq<Message>,
    getters: seq<nat>, putters: Chain<nat>, nodes: seq<Node>,
    quelock: Option<nat>, threads: seq<Pc>,
    issued: seq<Message>, putOk: set<Message>, putFailed: set<Message>,
    delivered: multiset<Message>, evicted: multiset<Message>,
    forced: bool, fault: bool, aborted: bool)

  /** What the environment may do next: start a call, let a thread run, let a timer expire. */
  datatype Action =
    | StartPut(t: nat, priority: int) | StartGet(t: nat) | StartForce(t: nat, priority: int)
    | Run(t: nat) | Expire(n: nat)

  function Start(limit: nat, levels: nat, threadCount: nat): State {
    State(limit, Fresh(levels), [], [], Fresh(levels), [], None, seq(threadCount, _ => Idle),
          [], {}, {}, multiset{}, multiset{}, false, false, false)
  }

  // ---------- Steps ----------

  function OwnerOf(pc: Pc): Option<nat> {
    match pc
    case Registered(n) => Some(n)
    case Entering(n) => Some(n)
    case Blocked(n) => Some(n)
    case Woken(n) => Some(n)
    case Leaving(n, _) => Some(n)
    case Left(n, _) => Some(n)
    case Gone(n, _) => Some(n)
    case _ => None
  }

  function PopperOf(pc: Pc): Option<nat> {
    match pc
    case Popping(_, _, n) => Some(n)
    case BothLocked(_, n) => Some(n)
    case Checking(_, _, n) => Some(n)
    case Signalling(_, _, n) => Some(n)
    case Unlocking(_, _, n) => Some(n)
    case Dropping(_, _, n, _) => Some(n)
    case _ => None
  }

  function NodeOf(pc: Pc): Option<nat> {
    if OwnerOf(pc).Some? then OwnerOf(pc) else PopperOf(pc)
  }

  predicate CanRun(s: State, pc: Pc) {
    match pc
    case Idle => false
    case PutLock(_) => s.quelock == None
    case GetLock => s.quelock == None
    case ForceLock(_) => s.quelock == None
    case Popping(_, _, n) => n < |s.nodes| ==> s.nodes[n].condlock == None
    case Blocked(n) =>
      n < |s.nodes| ==> s.nodes[n].wait in {Signalled, Expired} && s.nodes[n].condlock == None
    case _ => true
  }

  predicate Enabled(s: State, a: Action) {
    && !s.aborted
    && match a
       case StartPut(t, p) => t < |s.threads| && s.threads[t] == Idle && 1 <= p <= |s.chain.buckets|
       case StartForce(t, p) => t < |s.threads| && s.threads[t] == Idle && 1 <= p <= |s.chain.buckets|
       case StartGet(t) => t < |s.threads| && s.threads[t] == Idle
       case Run(t) => t < |s.threads| && CanRun(s, s.threads[t])
       case Expire(n) => n < |s.nodes| && s.nodes[n].wait == Waiting
  }

  function Goto(s: State, t: nat, pc: Pc): State
    requires t < |s.threads|
  {
    s.(threads := s.threads[t := pc])
  }

  function WithNode(s: State, n: nat, node: Node): State
    requires n < |s.nodes|
  {
    s.(nodes := s.nodes[n := node])
  }

  /** A message may enter the chain: there is room and the priority names a bucket. */
  predicate Fits(s: State, m: Message) {
    s.chain.count < s.limit && 1 <= m.priority <= |s.chain.buckets|
  }

  /** A new waiter, created with its condition lock held and linked under the queue lock. */
  function NewNode(kind: Kind, t: nat): Node {
    Node(kind, t, 1, false, true, false, NotYet, Some(t), None, false)
  }

  function Destroyed(node: Node): Node {
    node.(refCount := node.refCount - 1, freed := node.refCount == 1)
  }

  function PoppedBy(node: Node, t: nat): Node {
    node.(linked := false, refCount := node.refCount + 1, popper := Some(t))
  }

  /** qc_getterslist_pop and qc_putterschain_pop, under the list lock. */
  function PopNode(s: State, t: nat, n: nat, pc: Pc): State
    requires t < |s.threads|
  {
    if n >= |s.nodes| || s.nodes[n].freed then s.(fault := true)
    else Goto(WithNode(s, n, PoppedBy(s.nodes[n], t)), t, pc)
  }

  /** msgput finds a waiting getter. */
  function PutPopsGetter(s: State, t: nat, m: Message): State
    requires t < |s.threads| && s.getters != []
  {
    PopNode(s.(getters := s.getters[1..]), t, s.getters[0], Popping(Putting, m, s.getters[0]))
  }

  /** msgput finds the chain full: create a putter, lock it, queue it. */
  function PutBlocks(s: State, t: nat, m: Message): State
    requires t < |s.threads|
  {
    if !(1 <= m.priority <= |s.putters.buckets|) then s.(fault := true)
    else
      Goto(s.(putters := Push(s.putters, m.priority - 1, |s.nodes|), nodes := s.nodes + [NewNode(Putter(m), t)]),
           t, Registered(|s.nodes|))
  }

  function PutStores(s: State, t: nat, m: Message): State
    requires t < |s.threads|
  {
    if !Fits(s, m) then s.(fault := true)
    else Goto(s.(chain := Push(s.chain, m.priority - 1, m)), t, PutStored(m))
  }

  /** msgput under the queue lock: hand over, wait, or store. */
  function PutDecide(s: State, t: nat, m: Message): State
    requires t < |s.threads|
  {
    if s.getters != [] then PutPopsGetter(s, t, m)
    else if s.chain.count == s.limit then PutBlocks(s, t, m)
    else PutStores(s, t, m)
  }

  /** msgget finds nothing stored: create a getter, lock it, queue it. */
  function GetBlocks(s: State, t: nat): State
    requires t < |s.threads|
  {
    Goto(s.(getters := s.getters + [|s.nodes|], nodes := s.nodes + [NewNode(Getter, t)]), t, Registered(|s.nodes|))
  }

  function GetTakes(s: State, t: nat): State
    requires t < |s.threads| && s.chain.count > 0
  {
    if Top(s.chain.buckets) < 0 then s.(fault := true)
    else
      match Pop(s.chain)
      case Stuck => s.(aborted := true)
      case Popped(m, _, c) => Goto(s.(chain := c), t, GetPopped(m))
  }

  /** msgget under the queue lock: wait, or take a message. */
  function GetDecide(s: State, t: nat): State
    requires t < |s.threads|
  {
    if s.chain.count == 0 then GetBlocks(s, t) else GetTakes(s, t)
  }

  function GetPopsPutter(s: State, t: nat, m: Message): State
    requires t < |s.threads| && s.putters.count > 0
  {
    if Top(s.putters.buckets) < 0 then s.(fault := true)
    else
      match Pop(s.putters)
      case Stuck => s.(aborted := true)
      case Popped(n, _, c) => PopNode(s.(putters := c), t, n, Popping(Getting, m, n))
  }

  /** msgget after taking a message: look for a blocked writer to take in. */
  function GetRefill(s: State, t: nat, m: Message): State
    requires t < |s.threads|
  {
    if s.putters.count == 0 then Goto(s, t, GetFinish(m)) else GetPopsPutter(s, t, m)
  }

  /** A forced put that leaves chain c. */
  function ForceTo(s: State, t: nat, m: Message, c: Chain<Message>): State
    requires t < |s.threads|
  {
    Goto(s.(chain := c, forced := true), t, ForceDone(m))
  }

  /** forceput on a full chain: the oldest message of the lowest nonempty priority gives way. */
  function ForceReplaces(s: State, t: nat, m: Message): State
    requires t < |s.threads|
  {
    var k := Bottom(s.chain.buckets, 0);
    if s.chain.count == 0 || k == |s.chain.buckets| || !(1 <= m.priority <= |s.chain.buckets|) then s.(fault := true)
    else
      Goto(s.(chain := Push(Evict(s.chain), m.priority - 1, m), forced := true,
              evicted := s.evicted + multiset{s.chain.buckets[k].items[0]}), t, ForceDone(m))
  }

  function ForceStore(s: State, t: nat, m: Message): State
    requires t < |s.threads|
  {
    if Fits(s, m) then ForceTo(s, t, m, Push(s.chain, m.priority - 1, m)) else ForceReplaces(s, t, m)
  }

  /** The wait returns: note the timeout, or (a getter) fetch the message that was handed over. */
  function Wake(s: State, t: nat, n: nat): State
    requires t < |s.threads| && n < |s.nodes|
  {
    var node := s.nodes[n];
    var fetch := node.wait != Expired && node.kind.Getter?;
    if fetch && s.temp == [] then s.(fault := true)
    else
      var woken := if node.wait == Expired then node.(timedOut := true) else node.(wait := Resumed);
      Goto(WithNode(s.(temp := if fetch then s.temp[1..] else s.temp), n, woken), t,
           Leaving(n, if fetch then Some(s.temp[0]) else None))
  }

  /** The entry of a linked waiter is where its owner will look for it. */
  predicate Seats(s: State, n: nat)
    requires n < |s.nodes|
  {
    match s.nodes[n].kind
    case Getter => n in s.getters
    case Putter(m) =>
      1 <= m.priority <= |s.putters.buckets| && s.putters.count > 0 && n in s.putters.buckets[m.priority - 1].items
  }

  /** qc_getterslist_remove and qc_putterschain_remove, under the list lock. */
  function Unlink(s: State, n: nat, kind: Kind): State
    requires kind.Putter? ==> 1 <= kind.message.priority <= |s.putters.buckets| && s.putters.count > 0
  {
    match kind
    case Getter => s.(getters := Without(s.getters, n))
    case Putter(m) => s.(putters := Remove(s.putters, m.priority - 1, n))
  }

  /** A timed-out owner takes its own entry out of the list, unless it was popped before. */
  function Withdraw(s: State, t: nat, n: nat, got: Option<Message>): State
    requires t < |s.threads| && n < |s.nodes|
  {
    var node := s.nodes[n];
    if !node.timedOut || !node.linked then Goto(s, t, Gone(n, got))
    else if !Seats(s, n) then s.(fault := true)
    else Unlink(Goto(WithNode(s, n, node.(linked := false)), t, Gone(n, got)), n, node.kind)
  }

  /** The owner gives up its reference and returns to its caller. */
  function Return(s: State, t: nat, n: nat, got: Option<Message>): State
    requires t < |s.threads| && n < |s.nodes|
  {
    var node := s.nodes[n];
    var put := if node.kind.Putter? then {node.kind.message} else {};
    Goto(WithNode(s, n, Destroyed(node)), t, Idle).(
      putFailed := s.putFailed + (if node.timedOut then put else {}),
      putOk := s.putOk + (if node.timedOut then {} else put),
      delivered := s.delivered + (if node.kind.Getter? && got.Some? then multiset{got.value} else multiset{}))
  }

  /** Under the waiter's lock: drop a waiter that timed out, else serve it. */
  function Serve(s: State, t: nat, side: Side, m: Message, n: nat): State
    requires t < |s.threads| && n < |s.nodes|
  {
    var node := s.nodes[n];
    if node.timedOut then Goto(WithNode(s, n, node.(condlock := None)), t, Dropping(side, m, n, true))
    else if side == Putting then Goto(s.(temp := s.temp + [m]), t, Signalling(side, m, n))
    else if node.kind.Getter? || !Fits(s, node.kind.message) then s.(fault := true)
    else
      Goto(WithNode(s.(chain := Push(s.chain, node.kind.message.priority - 1, node.kind.message)), n,
                    node.(taken := true)), t, Signalling(side, m, n))
  }

  /** The popper gives up its reference and goes on. */
  function Drop(s: State, t: nat, side: Side, m: Message, n: nat, again: bool): State
    requires t < |s.threads| && n < |s.nodes|
  {
    var next :=
      if side == Getting then (if again then GetPopped(m) else GetFinish(m))
      else if again then PutLock(m) else Idle;
    Goto(WithNode(s, n, Destroyed(s.nodes[n])), t, next).(
      putOk := s.putOk + (if side == Putting && !again then {m} else {}))
  }

  /** The owner releases the queue lock; it still holds its own. */
  function LeaveQueue(s: State, t: nat, n: nat): State
    requires t < |s.threads| && n < |s.nodes|
  {
    Goto(s.(quelock := None), t, Entering(n))
  }

  /** The timed wait starts: atomically release the condition lock and sleep. */
  function Sleep(s: State, t: nat, n: nat): State
    requires t < |s.threads| && n < |s.nodes|
  {
    Goto(WithNode(s, n, s.nodes[n].(wait := Waiting, condlock := None)), t, Blocked(n))
  }

  /** Signalled or expired, the owner reacquires its condition lock. */
  function Relock(s: State, t: nat, n: nat): State
    requires t < |s.threads| && n < |s.nodes|
  {
    Goto(WithNode(s, n, s.nodes[n].(condlock := Some(t))), t, Woken(n))
  }

  function Unlock(s: State, t: nat, n: nat, next: Pc): State
    requires t < |s.threads| && n < |s.nodes|
  {
    Goto(WithNode(s, n, s.nodes[n].(condlock := None)), t, next)
  }

  /** The popper takes the waiter's condition lock. */
  function LockNode(s: State, t: nat, side: Side, m: Message, n: nat): State
    requires t < |s.threads| && n < |s.nodes|
  {
    Goto(WithNode(s, n, s.nodes[n].(condlock := Some(t))), t,
         if side == Putting then BothLocked(m, n) else Checking(Getting, m, n))
  }

  /** A put that popped a getter lets go of the queue lock. */
  function PutLeavesQueue(s: State, t: nat, m: Message, n: nat): State
    requires t < |s.threads| && n < |s.nodes|
  {
    Goto(s.(quelock := None), t, Checking(Putting, m, n))
  }

  /** The signal reaches a waiter that still waits and is lost on one whose time is up. */
  function Wakeup(s: State, t: nat, side: Side, m: Message, n: nat): State
    requires t < |s.threads| && n < |s.nodes|
  {
    var node := s.nodes[n];
    Goto(WithNode(s, n, node.(wait := if node.wait == Waiting then Signalled else node.wait)), t, Unlocking(side, m, n))
  }

  /** A step of a thread at waiter n. */
  function StepNode(s: State, t: nat, n: nat): State
    requires t < |s.threads| && n < |s.nodes|
  {
    match s.threads[t]
    case Registered(_) => LeaveQueue(s, t, n)
    case Entering(_) => Sleep(s, t, n)
    case Blocked(_) => Relock(s, t, n)
    case Woken(_) => Wake(s, t, n)
    case Leaving(_, got) => Unlock(s, t, n, Left(n, got))
    case Left(_, got) => Withdraw(s, t, n, got)
    case Gone(_, got) => Return(s, t, n, got)
    case Popping(side, m, _) => LockNode(s, t, side, m, n)
    case BothLocked(m, _) => PutLeavesQueue(s, t, m, n)
    case Checking(side, m, _) => Serve(s, t, side, m, n)
    case Signalling(side, m, _) => Wakeup(s, t, side, m, n)
    case Unlocking(side, m, _) => Unlock(s, t, n, Dropping(side, m, n, false))
    case Dropping(side, m, _, again) => Drop(s, t, side, m, n, again)
    case _ => s
  }

  function LockQueue(s: State, t: nat, next: Pc): State
    requires t < |s.threads|
  {
    Goto(s.(quelock := Some(t)), t, next)
  }

  /** A put that stored its message unlocks the queue and returns 0. */
  function PutReturns(s: State, t: nat, m: Message): State
    requires t < |s.threads|
  {
    Goto(s.(quelock := None, putOk := s.putOk + {m}), t, Idle)
  }

  function GetReturns(s: State, t: nat, m: Message): State
    requires t < |s.threads|
  {
    Goto(s.(quelock := None, delivered := s.delivered + multiset{m}), t, Idle)
  }

  /** Any step of a thread; touching a waiter that was freed is a fault. */
  function Step(s: State, t: nat): State
    requires t < |s.threads|
  {
    var pc := s.threads[t];
    match pc
    case Idle => s
    case PutLock(m) => LockQueue(s, t, PutLocked(m))
    case PutLocked(m) => PutDecide(s, t, m)
    case PutStored(m) => PutReturns(s, t, m)
    case GetLock => LockQueue(s, t, GetLocked)
    case GetLocked => GetDecide(s, t)
    case GetPopped(m) => GetRefill(s, t, m)
    case GetFinish(m) => GetReturns(s, t, m)
    case ForceLock(m) => LockQueue(s, t, ForceLocked(m))
    case ForceLocked(m) => ForceStore(s, t, m)
    case ForceDone(m) => PutReturns(s, t, m)
    case _ =>
      var n := NodeOf(pc).value;
      if n >= |s.nodes| || s.nodes[n].freed then s.(fault := true) else StepNode(s, t, n)
  }

  function Issue(s: State, t: nat, priority: int, force: bool): State
    requires t < |s.threads|
  {
    var m := Message(|s.issued|, priority);
    Goto(s.(issued := s.issued + [m]), t, if force then ForceLock(m) else PutLock(m))
  }

  function Apply(s: State, a: Action): State
    requires Enabled(s, a)
  {
    match a
    case StartPut(t, p) => Issue(s, t, p, false)
    case StartForce(t, p) => Issue(s, t, p, true)
    case StartGet(t) => Goto(s, t, GetLock)
    case Run(t) => Step(s, t)
    case Expire(n) => WithNode(s, n, s.nodes[n].(wait := Expired))
  }

  /** A run: every action is enabled where it is taken. */
  predicate Legal(s: State, actions: seq<Action>)
    decreases |actions|
  {
    actions == [] || (Enabled(s, actions[0]) && Legal(Apply(s, actions[0]), actions[1..]))
  }

  function ApplyAll(s: State, actions: seq<Action>): State
    requires Legal(s, actions)
    decreases |actions|
  {
    if actions == [] then s else ApplyAll(Apply(s, actions[0]), actions[1..])
  }
}
