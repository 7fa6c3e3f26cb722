/** Where every message is: the books that each step of the hand-over protocol balances. */
module QueueLedger {
  import opened Common
  import opened Scheduler
  import opened MsgChains
  import opened QueueProtocol

  function Bag(o: Option<Message>): multiset<Message> {
    if o.Some? then multiset{o.value} else multiset{}
  }

  /** The message a writer still offers: it has not been stored or handed over. */
  function OfferOf(pc: Pc): Option<Message> {
    match pc
    case PutLock(m) => Some(m)
    case PutLocked(m) => Some(m)
    case ForceLock(m) => Some(m)
    case ForceLocked(m) => Some(m)
    case Popping(side, m, _) => if side == Putting then Some(m) else None
    case BothLocked(m, _) => Some(m)
    case Checking(side, m, _) => if side == Putting then Some(m) else None
    case Dropping(side, m, _, again) => if side == Putting && again then Some(m) else None
    case _ => None
  }

  /** The message a reader has in its hands. */
  function HandOf(pc: Pc): Option<Message> {
    match pc
    case GetPopped(m) => Some(m)
    case GetFinish(m) => Some(m)
    case Popping(side, m, _) => if side == Getting then Some(m) else None
    case Checking(side, m, _) => if side == Getting then Some(m) else None
    case Signalling(side, m, _) => if side == Getting then Some(m) else None
    case Unlocking(side, m, _) => if side == Getting then Some(m) else None
    case Dropping(side, m, _, _) => if side == Getting then Some(m) else None
    case Leaving(_, got) => got
    case Left(_, got) => got
    case Gone(_, got) => got
    case _ => None
  }

  /** The message, if any, whose put is about to return 0. */
  function KeptOf(pc: Pc): Option<Message> {
    match pc
    case PutStored(m) => Some(m)
    case ForceDone(m) => Some(m)
    case Signalling(side, m, _) => if side == Putting then Some(m) else None
    case Unlocking(side, m, _) => if side == Putting then Some(m) else None
    case Dropping(side, m, _, again) => if side == Putting && !again then Some(m) else None
    case _ => None
  }

  /** The message a blocked writer still offers, or that a reader has stored for it. */
  function NodeOfferOf(node: Node): Option<Message> {
    if node.kind.Putter? && !node.taken then Some(node.kind.message) else None
  }

  function TakenOf(node: Node): Option<Message> {
    if node.kind.Putter? && node.taken then Some(node.kind.message) else None
  }

  function Offer(pc: Pc): multiset<Message> { Bag(OfferOf(pc)) }
  function Hand(pc: Pc): multiset<Message> { Bag(HandOf(pc)) }
  function Kept(pc: Pc): multiset<Message> { Bag(KeptOf(pc)) }
  function NodeOffer(node: Node): multiset<Message> { Bag(NodeOfferOf(node)) }
  function TakenFrom(node: Node): multiset<Message> { Bag(TakenOf(node)) }

  /** 1 for a message in the hand-over list whose getter is not signalled yet. */
  function Owes(pc: Pc): nat {
    if pc.Signalling? && pc.side == Putting then 1 else 0
  }

  /** 1 for a signalled getter that has not resumed. */
  function NodeOwed(node: Node): nat {
    if node.kind.Getter? && node.wait == Signalled then 1 else 0
  }

  /** The messages in the store itself: buckets, hand-over list, delivered or evicted. */
  ghost function Shelf(s: State): multiset<Message> {
    Stored(s.chain.buckets) + multiset(s.temp) + s.delivered + s.evicted
  }

  ghost function Accepted(s: State): multiset<Message> {
    Shelf(s) + Gather(Hand, s.threads)
  }

  ghost function Offered(s: State): multiset<Message> {
    Gather(Offer, s.threads) + Gather(NodeOffer, s.nodes)
  }

  ghost function Debt(s: State): nat {
    Total(Owes, s.threads) + Total(NodeOwed, s.nodes)
  }

  predicate Within(few: multiset<Message>, many: multiset<Message>) {
    forall m | m in few :: m in many
  }

  /** Puts that returned 0 or are about to, and messages taken from blocked writers, were accepted. */
  predicate Covered(s: State, accepted: multiset<Message>) {
    && (forall t {:trigger Kept(s.threads[t])} | 0 <= t < |s.threads| :: Within(Kept(s.threads[t]), accepted))
    && (forall n {:trigger TakenFrom(s.nodes[n])} | 0 <= n < |s.nodes| :: Within(TakenFrom(s.nodes[n]), accepted))
    && (forall m | m in s.putOk :: m in accepted)
  }

  /** Every issued message is in exactly one place; signals are covered; returned puts were accepted. */
  ghost predicate Ledger(s: State) {
    && (forall i | 0 <= i < |s.issued| :: s.issued[i].id == i && 1 <= s.issued[i].priority <= |s.chain.buckets|)
    && multiset(s.issued) == Accepted(s) + Offered(s)
    && Debt(s) <= |s.temp|
    && Covered(s, Accepted(s))
  }

  /** A waiter that holds nothing; stands for "no waiter" in what follows. */
  const NOBODY: Node := NewNode(Getter, 0)

  predicate ThreadMoves(s: State, s': State, t: nat) {
    t < |s.threads| == |s'.threads| && s'.threads == s.threads[t := s'.threads[t]]
  }

  ghost function InHand(s: State, t: nat): multiset<Message>
    requires t < |s.threads|
  {
    Shelf(s) + Hand(s.threads[t])
  }

  function OnOffer(s: State, t: nat, node: Node): multiset<Message>
    requires t < |s.threads|
  {
    Offer(s.threads[t]) + NodeOffer(node)
  }

  /** What the step puts on the shelf or into hands, and what it takes from offers, balances. */
  ghost predicate Balances(s: State, s': State, t: nat, before: Node, after: Node)
    requires t < |s.threads| && t < |s'.threads|
  {
    && InHand(s', t) + OnOffer(s', t, after) == InHand(s, t) + OnOffer(s, t, before)
    && InHand(s, t) <= InHand(s', t)
    && Owes(s'.threads[t]) + NodeOwed(after) + |s.temp| <= Owes(s.threads[t]) + NodeOwed(before) + |s'.temp|
  }

  /** What is known to be accepted after the step without looking at other threads. */
  ghost function Known(s: State, s': State, t: nat, before: Node): multiset<Message>
    requires t < |s.threads| && t < |s'.threads|
  {
    InHand(s', t) + Kept(s.threads[t]) + TakenFrom(before)
  }

  ghost predicate Claims(s: State, s': State, t: nat, before: Node, after: Node)
    requires t < |s.threads| && t < |s'.threads|
  {
    && Within(Kept(s'.threads[t]), Known(s, s', t, before))
    && Within(TakenFrom(after), Known(s, s', t, before))
    && (forall m | m in s'.putOk :: m in s.putOk || m in Known(s, s', t, before))
  }

  /** The waiters changed from `before` to `after` in one place, or not at all. */
  ghost predicate NodesMove(s: State, s': State, before: Node, after: Node) {
    && NodeOffer(before) <= Gather(NodeOffer, s.nodes)
    && Gather(NodeOffer, s'.nodes) == Gather(NodeOffer, s.nodes) - NodeOffer(before) + NodeOffer(after)
    && Total(NodeOwed, s'.nodes) + NodeOwed(before) == Total(NodeOwed, s.nodes) + NodeOwed(after)
  }

  predicate NodesCovered(s: State, s': State, after: Node) {
    forall n | 0 <= n < |s'.nodes| :: s'.nodes[n] == after || (n < |s.nodes| && s'.nodes[n] == s.nodes[n])
  }

  lemma Exchange<T(!new)>(all: multiset<T>, x: multiset<T>, x': multiset<T>, rest: multiset<T>,
                          y: multiset<T>, y': multiset<T>)
    requires x <= all && y <= rest && x' + y' == x + y
    ensures (all - x + x') + (rest - y + y') == all + rest
  {
    forall k ensures ((all - x + x') + (rest - y + y'))[k] == (all + rest)[k] {
      assert (x' + y')[k] == (x + y)[k];
    }
  }

  lemma AcceptedMoves(s: State, s': State, t: nat)
    requires ThreadMoves(s, s', t)
    ensures InHand(s, t) <= Accepted(s)
    ensures Accepted(s') == Accepted(s) - InHand(s, t) + InHand(s', t)
  {
    GatherUpdate(Hand, s.threads, t, s'.threads[t]);
  }

  lemma OfferedMoves(s: State, s': State, t: nat, before: Node, after: Node)
    requires ThreadMoves(s, s', t) && NodesMove(s, s', before, after)
    ensures OnOffer(s, t, before) <= Offered(s)
    ensures Offered(s') == Offered(s) - OnOffer(s, t, before) + OnOffer(s', t, after)
  {
    GatherUpdate(Offer, s.threads, t, s'.threads[t]);
  }

  lemma DebtMoves(s: State, s': State, t: nat, before: Node, after: Node)
    requires ThreadMoves(s, s', t) && NodesMove(s, s', before, after)
    ensures Debt(s') + Owes(s.threads[t]) + NodeOwed(before) == Debt(s) + Owes(s'.threads[t]) + NodeOwed(after)
  {
    TotalUpdate(Owes, s.threads, t, s'.threads[t]);
  }

  lemma ClaimsHold(s: State, s': State, t: nat, before: Node, after: Node,
                   acc: multiset<Message>, acc': multiset<Message>)
    requires Covered(s, acc) && ThreadMoves(s, s', t) && NodesCovered(s, s', after)
    requires Claims(s, s', t, before, after) && Within(acc, acc')
    requires Within(Known(s, s', t, before), acc')
    ensures Covered(s', acc')
  {
    forall u | 0 <= u < |s'.threads| ensures Within(Kept(s'.threads[u]), acc') {
      if u != t { assert Within(Kept(s.threads[u]), acc); }
    }
    forall n | 0 <= n < |s'.nodes| ensures Within(TakenFrom(s'.nodes[n]), acc') {
      if s'.nodes[n] != after { assert Within(TakenFrom(s.nodes[n]), acc); }
    }
  }

  lemma BooksBalance(s: State, s': State, t: nat, before: Node, after: Node)
    requires ThreadMoves(s, s', t) && NodesMove(s, s', before, after) && Balances(s, s', t, before, after)
    ensures Accepted(s') + Offered(s') == Accepted(s) + Offered(s)
    ensures Within(Accepted(s), Accepted(s')) && Within(InHand(s', t), Accepted(s'))
    ensures Debt(s') + |s.temp| <= Debt(s) + |s'.temp|
  {
    AcceptedMoves(s, s', t);
    OfferedMoves(s, s', t, before, after);
    DebtMoves(s, s', t, before, after);
    Exchange(Accepted(s), InHand(s, t), InHand(s', t), Offered(s), OnOffer(s, t, before), OnOffer(s', t, after));
    assert Accepted(s) <= Accepted(s');
  }

  /** Waiter n went from `before` to `after`, or was created, or no waiter changed. */
  predicate OneNode(s: State, s': State, n: nat, before: Node, after: Node) {
    if n < |s.nodes| then s.nodes[n] == before && s'.nodes == s.nodes[n := after]
    else if |s'.nodes| > |s.nodes| then before == NOBODY && s'.nodes == s.nodes + [after]
    else before == NOBODY == after && s'.nodes == s.nodes
  }

  lemma OneNodeMoves(s: State, s': State, n: nat, before: Node, after: Node)
    requires OneNode(s, s', n, before, after)
    ensures NodesMove(s, s', before, after)
  {
    if n < |s.nodes| {
      GatherUpdate(NodeOffer, s.nodes, n, after);
      TotalUpdate(NodeOwed, s.nodes, n, after);
    } else if |s'.nodes| > |s.nodes| {
    }
  }

  lemma OneNodeCovered(s: State, s': State, n: nat, before: Node, after: Node)
    requires OneNode(s, s', n, before, after)
    ensures NodesCovered(s, s', after)
  {
  }

  /** Thread t moves and at most one waiter changes: the books stay balanced if the step balances locally. */
  lemma LedgerMoves(s: State, s': State, t: nat, n: nat, before: Node, after: Node)
    requires Ledger(s) && ThreadMoves(s, s', t) && OneNode(s, s', n, before, after)
    requires s'.issued == s.issued && |s'.chain.buckets| == |s.chain.buckets|
    requires Balances(s, s', t, before, after) && Claims(s, s', t, before, after)
    ensures Ledger(s')
  {
    OneNodeMoves(s, s', n, before, after);
    OneNodeCovered(s, s', n, before, after);
    BooksBalance(s, s', t, before, after);
    var acc, acc' := Accepted(s), Accepted(s');
    ClaimsHold(s, s', t, before, after, acc, acc');
  }
}
