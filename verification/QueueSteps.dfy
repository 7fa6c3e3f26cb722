/** Every step of a thread at a waiter keeps the lists, the bounds and the books, and faults nowhere. */
module QueueSteps {
  import opened Common
  import opened Scheduler
  import opened MsgChains
  import opened QueueProtocol
  import opened QueueStructure
  import opened QueueBounds
  import opened QueueLedger

  ghost predicate Rest(s: State) {
    Linked(s.getters, s.putters, s.nodes) && Bounds(s)
  }

  /** The invariant of the protocol. */
  ghost predicate Inv(s: State) {
    !s.fault && Sound(s) && Rest(s) && Ledger(s)
  }

  predicate SameStore(s: State, s': State) {
    s'.limit == s.limit && s'.chain == s.chain && s'.getters == s.getters && s'.putters == s.putters
    && s'.forced == s.forced
  }

  /** The queue lock stays where it is, or passes between steps outside the gap. */
  predicate GapKept(s: State, s': State, t: nat)
    requires t < |s.threads|
  {
    && ThreadMoves(s, s', t)
    && (Gap(s.threads[t]) <==> Gap(s'.threads[t]))
    && (s'.quelock == s.quelock || (!Gap(s.threads[t]) && {s.quelock, s'.quelock} == {None, Some(t)}))
  }

  lemma QuietRest(s: State, s': State, t: nat)
    requires Rest(s) && t < |s.threads| && SameStore(s, s') && SameLinks(s.nodes, s'.nodes) && GapKept(s, s', t)
    ensures Rest(s')
  {
    LinkedSame(s.getters, s.putters, s.nodes, s'.nodes);
    if s.quelock != s'.quelock { assert s.quelock in {s.quelock, s'.quelock} && s'.quelock in {s.quelock, s'.quelock}; }
    assert InGap(s) == InGap(s');
  }

  predicate AtHand(s: State, t: nat, n: nat) {
    && t < |s.threads| && n < |s.nodes| && NodeOf(s.threads[t]) == Some(n)
    && (HoldsQueue(s.threads[t]) <==> s.quelock == Some(t))
  }


  // ---------- Steps that leave lists and chain alone ----------

  predicate Quiet(s: State, s': State, t: nat)
    requires t < |s.threads|
  {
    SameStore(s, s') && SameLinks(s.nodes, s'.nodes) && GapKept(s, s', t)
  }

  /** What the books know of a thread and its waiter. */
  predicate SameAccount(pc: Pc, pc': Pc, node: Node, node': Node) {
    && OfferOf(pc') == OfferOf(pc) && HandOf(pc') == HandOf(pc) && KeptOf(pc') == KeptOf(pc) && Owes(pc') == Owes(pc)
    && NodeOfferOf(node') == NodeOfferOf(node) && TakenOf(node') == TakenOf(node) && NodeOwed(node') == NodeOwed(node)
  }

  predicate SameShelf(s: State, s': State) {
    && s'.chain == s.chain && s'.temp == s.temp && s'.delivered == s.delivered && s'.evicted == s.evicted
    && s'.issued == s.issued
  }

  ghost predicate Settles(s: State, s': State, t: nat, n: nat) {
    && ThreadMoves(s, s', t) && n < |s.nodes| == |s'.nodes| && OneNode(s, s', n, s.nodes[n], s'.nodes[n])
    && s'.issued == s.issued && |s'.chain.buckets| == |s.chain.buckets|
    && Balances(s, s', t, s.nodes[n], s'.nodes[n]) && Claims(s, s', t, s.nodes[n], s'.nodes[n])
  }

  /** Thread t moves and only waiter n may change; nothing is issued and the buckets stay. */
  predicate Local(s: State, s': State, t: nat, n: nat) {
    && !s'.fault && ThreadMoves(s, s', t)
    && n < |s.nodes| == |s'.nodes| && s'.nodes == s.nodes[n := s'.nodes[n]]
    && s'.issued == s.issued && |s'.chain.buckets| == |s.chain.buckets| && s'.evicted == s.evicted
  }

  /** A step that leaves every message where it is. */
  predicate SameBooks(s: State, s': State, t: nat, n: nat) {
    && Local(s, s', t, n) && SameShelf(s, s') && s'.putOk == s.putOk
    && SameAccount(s.threads[t], s'.threads[t], s.nodes[n], s'.nodes[n])
  }

  /** A step that changes neither the store nor the books. */
  predicate Plain(s: State, s': State, t: nat, n: nat) {
    SameBooks(s, s', t, n) && Quiet(s, s', t)
  }

  lemma SameBooksClaims(s: State, s': State, t: nat, n: nat)
    requires SameBooks(s, s', t, n)
    ensures Claims(s, s', t, s.nodes[n], s'.nodes[n])
  {
  }

  lemma SameBooksSettle(s: State, s': State, t: nat, n: nat)
    requires SameBooks(s, s', t, n)
    ensures Settles(s, s', t, n)
  {
    SameBooksClaims(s, s', t, n);
  }

  /** A call returns or a signal is given: hands empty into `delivered`, puts are acknowledged. */
  predicate Acknowledges(s: State, s': State, t: nat, n: nat, acked: set<Message>) {
    Local(s, s', t, n) && Pays(s, s', t, n, acked)
  }

  predicate Pays(s: State, s': State, t: nat, n: nat, acked: set<Message>)
    requires t < |s.threads| && t < |s'.threads| && n < |s.nodes| && n < |s'.nodes|
  {
    && s'.chain == s.chain && s'.temp == s.temp
    && var pc, pc', node, node' := s.threads[t], s'.threads[t], s.nodes[n], s'.nodes[n];
    && (if HandOf(pc') == HandOf(pc) then s'.delivered == s.delivered
        else HandOf(pc') == None && s'.delivered == s.delivered + Hand(pc))
    && OfferOf(pc') == OfferOf(pc) && NodeOfferOf(node') == NodeOfferOf(node) && TakenOf(node') == TakenOf(node)
    && (KeptOf(pc') == KeptOf(pc) || KeptOf(pc') == None)
    && s'.putOk == s.putOk + acked && (forall m | m in acked :: Some(m) in {KeptOf(pc), TakenOf(node)})
    && Owes(pc') + NodeOwed(node') <= Owes(pc) + NodeOwed(node)
  }

  lemma AcknowledgesBalances(s: State, s': State, t: nat, n: nat, acked: set<Message>)
    requires Acknowledges(s, s', t, n, acked)
    ensures Balances(s, s', t, s.nodes[n], s'.nodes[n])
  {
    assert InHand(s', t) == InHand(s, t);
  }

  lemma AcknowledgesClaims(s: State, s': State, t: nat, n: nat, acked: set<Message>)
    requires Acknowledges(s, s', t, n, acked)
    ensures Claims(s, s', t, s.nodes[n], s'.nodes[n])
  {
  }

  lemma AcknowledgesSettles(s: State, s': State, t: nat, n: nat, acked: set<Message>)
    requires Acknowledges(s, s', t, n, acked)
    ensures Settles(s, s', t, n)
  {
    AcknowledgesBalances(s, s', t, n, acked);
    AcknowledgesClaims(s, s', t, n, acked);
  }

  /** A signalled getter takes the first message of the hand-over list. */
  predicate Fetches(s: State, s': State, t: nat, n: nat, m: Message) {
    && Local(s, s', t, n) && s'.chain == s.chain && s.temp == [m] + s'.temp && s'.delivered == s.delivered
    && s'.putOk == s.putOk
    && var pc, pc', node, node' := s.threads[t], s'.threads[t], s.nodes[n], s'.nodes[n];
    && HandOf(pc) == None && HandOf(pc') == Some(m) && OfferOf(pc') == OfferOf(pc)
    && NodeOfferOf(node') == NodeOfferOf(node) && TakenOf(node') == TakenOf(node) && KeptOf(pc') == KeptOf(pc)
    && Owes(pc') == Owes(pc) && NodeOwed(node) == 1 && NodeOwed(node') == 0
  }

  lemma FetchesBalances(s: State, s': State, t: nat, n: nat, m: Message)
    requires Fetches(s, s', t, n, m)
    ensures Balances(s, s', t, s.nodes[n], s'.nodes[n])
  {
    assert Shelf(s) == Shelf(s') + multiset{m};
    assert InHand(s', t) == InHand(s, t);
    assert OnOffer(s', t, s'.nodes[n]) == OnOffer(s, t, s.nodes[n]);
  }

  lemma FetchesSettles(s: State, s': State, t: nat, n: nat, m: Message)
    requires Fetches(s, s', t, n, m)
    ensures Settles(s, s', t, n)
  {
    FetchesBalances(s, s', t, n, m);
  }

  /** A put hands its message over. */
  predicate HandsOver(s: State, s': State, t: nat, n: nat, m: Message) {
    && Local(s, s', t, n) && s'.chain == s.chain && s'.temp == s.temp + [m] && s'.delivered == s.delivered
    && s'.putOk == s.putOk && s'.nodes == s.nodes
    && var pc, pc' := s.threads[t], s'.threads[t];
    && HandOf(pc') == HandOf(pc) && OfferOf(pc) == Some(m) && OfferOf(pc') == None
    && KeptOf(pc') == Some(m) && Owes(pc) == 0 && Owes(pc') == 1
  }

  lemma HandsOverBalances(s: State, s': State, t: nat, n: nat, m: Message)
    requires HandsOver(s, s', t, n, m)
    ensures Balances(s, s', t, s.nodes[n], s'.nodes[n])
  {
    assert OnOffer(s, t, s.nodes[n]) == OnOffer(s', t, s'.nodes[n]) + multiset{m};
  }

  lemma HandsOverSettles(s: State, s': State, t: nat, n: nat, m: Message)
    requires HandsOver(s, s', t, n, m)
    ensures Settles(s, s', t, n)
  {
    HandsOverBalances(s, s', t, n, m);
  }

  /** A get stores the message of a blocked writer. */
  ghost predicate TakesIn(s: State, s': State, t: nat, n: nat, m: Message) {
    Local(s, s', t, n) && StoresFor(s, s', t, n, m)
  }

  ghost predicate StoresFor(s: State, s': State, t: nat, n: nat, m: Message)
    requires t < |s.threads| && t < |s'.threads| && n < |s.nodes| && n < |s'.nodes|
  {
    && s'.temp == s.temp && s'.delivered == s.delivered && s'.putOk == s.putOk
    && Stored(s'.chain.buckets) == Stored(s.chain.buckets) + multiset{m}
    && var pc, pc', node, node' := s.threads[t], s'.threads[t], s.nodes[n], s'.nodes[n];
    && HandOf(pc') == HandOf(pc) && OfferOf(pc') == OfferOf(pc) && KeptOf(pc') == KeptOf(pc) && Owes(pc') == Owes(pc)
    && NodeOfferOf(node) == Some(m) == TakenOf(node') && NodeOfferOf(node') == None
    && NodeOwed(node') == NodeOwed(node)
  }

  lemma TakesInBalances(s: State, s': State, t: nat, n: nat, m: Message)
    requires TakesIn(s, s', t, n, m)
    ensures Balances(s, s', t, s.nodes[n], s'.nodes[n])
  {
    assert InHand(s, t) <= InHand(s, t) + multiset{m};
  }

  lemma TakesInSettles(s: State, s': State, t: nat, n: nat, m: Message)
    requires TakesIn(s, s', t, n, m)
    ensures Settles(s, s', t, n)
  {
    TakesInBalances(s, s', t, n, m);
  }

  lemma LeaveQueuePlain(s: State, t: nat, n: nat)
    requires AtHand(s, t, n) && !s.fault && s.threads[t].Registered?
    ensures Plain(s, LeaveQueue(s, t, n), t, n)
  {
  }

  lemma SleepPlain(s: State, t: nat, n: nat)
    requires AtHand(s, t, n) && !s.fault && s.threads[t].Entering? && s.nodes[n].wait == NotYet
    ensures Plain(s, Sleep(s, t, n), t, n)
  {
  }

  lemma RelockPlain(s: State, t: nat, n: nat)
    requires AtHand(s, t, n) && !s.fault && s.threads[t].Blocked?
    ensures Plain(s, Relock(s, t, n), t, n)
  {
  }

  lemma UnlockPlain(s: State, t: nat, n: nat, next: Pc)
    requires AtHand(s, t, n) && !s.fault
    requires SameAccount(s.threads[t], next, s.nodes[n], s.nodes[n]) && (Gap(s.threads[t]) <==> Gap(next))
    ensures Plain(s, Unlock(s, t, n, next), t, n)
  {
  }

  lemma LockGetterPlain(s: State, t: nat, m: Message, n: nat)
    requires AtHand(s, t, n) && !s.fault && s.threads[t] == Popping(Putting, m, n)
    ensures Plain(s, LockNode(s, t, Putting, m, n), t, n)
  {
  }

  lemma LockPutterPlain(s: State, t: nat, m: Message, n: nat)
    requires AtHand(s, t, n) && !s.fault && s.threads[t] == Popping(Getting, m, n)
    ensures Plain(s, LockNode(s, t, Getting, m, n), t, n)
  {
  }

  lemma PutLeavesQueuePlain(s: State, t: nat, m: Message, n: nat)
    requires AtHand(s, t, n) && !s.fault && s.threads[t] == BothLocked(m, n)
    ensures Plain(s, PutLeavesQueue(s, t, m, n), t, n)
  {
  }

  lemma WakePlain(s: State, t: nat, n: nat)
    requires AtHand(s, t, n) && !s.fault && s.threads[t].Woken? && OwnerFits(s.threads[t], s.nodes[n])
    requires s.nodes[n].wait == Expired || s.nodes[n].kind.Putter?
    ensures Plain(s, Wake(s, t, n), t, n)
  {
  }

  lemma WakeFetches(s: State, t: nat, n: nat)
    requires AtHand(s, t, n) && !s.fault && s.threads[t].Woken? && OwnerFits(s.threads[t], s.nodes[n])
    requires s.nodes[n].wait != Expired && s.nodes[n].kind.Getter? && s.temp != []
    ensures Quiet(s, Wake(s, t, n), t) && Fetches(s, Wake(s, t, n), t, n, s.temp[0])
  {
  }

  function AckedBy(node: Node): set<Message> {
    if node.kind.Putter? && !node.timedOut then {node.kind.message} else {}
  }

  lemma ReturnQuiet(s: State, t: nat, n: nat, got: Option<Message>)
    requires AtHand(s, t, n) && !s.fault && s.threads[t] == Gone(n, got)
    ensures Quiet(s, Return(s, t, n, got), t)
  {
  }

  lemma ReturnAcknowledges(s: State, t: nat, n: nat, got: Option<Message>)
    requires AtHand(s, t, n) && !s.fault && s.threads[t] == Gone(n, got) && OwnerFits(s.threads[t], s.nodes[n])
    requires s.nodes[n].wait == Resumed && s.nodes[n].kind.Putter? ==> s.nodes[n].taken
    ensures Acknowledges(s, Return(s, t, n, got), t, n, AckedBy(s.nodes[n]))
  {
  }

  lemma WakeGetterPays(s: State, t: nat, m: Message, n: nat)
    requires t < |s.threads| && n < |s.nodes| && !s.fault && s.threads[t] == Signalling(Putting, m, n)
    ensures Pays(s, Wakeup(s, t, Putting, m, n), t, n, {})
  {
  }

  lemma WakePutterPlain(s: State, t: nat, m: Message, n: nat)
    requires AtHand(s, t, n) && !s.fault && s.threads[t] == Signalling(Getting, m, n) && s.nodes[n].kind.Putter?
    ensures Plain(s, Wakeup(s, t, Getting, m, n), t, n)
  {
  }

  lemma DropPutterPlain(s: State, t: nat, m: Message, n: nat)
    requires AtHand(s, t, n) && !s.fault && s.threads[t] == Dropping(Getting, m, n, false)
    ensures Plain(s, Drop(s, t, Getting, m, n, false), t, n)
  {
  }

  lemma DropLateGetterPlain(s: State, t: nat, m: Message, n: nat)
    requires AtHand(s, t, n) && !s.fault && s.threads[t] == Dropping(Putting, m, n, true)
    ensures Plain(s, Drop(s, t, Putting, m, n, true), t, n)
  {
  }

  lemma DropGetterQuiet(s: State, t: nat, m: Message, n: nat)
    requires AtHand(s, t, n) && !s.fault && s.threads[t] == Dropping(Putting, m, n, false)
    ensures Quiet(s, Drop(s, t, Putting, m, n, false), t) && Local(s, Drop(s, t, Putting, m, n, false), t, n)
  {
  }

  lemma DropGetterPays(s: State, t: nat, m: Message, n: nat)
    requires t < |s.threads| && n < |s.nodes| && !s.fault && s.threads[t] == Dropping(Putting, m, n, false)
    ensures Pays(s, Drop(s, t, Putting, m, n, false), t, n, {m})
  {
  }

  lemma ServeTimedOut(s: State, t: nat, side: Side, m: Message, n: nat)
    requires AtHand(s, t, n) && !s.fault && s.threads[t] == Checking(side, m, n) && s.nodes[n].timedOut
    ensures Plain(s, Serve(s, t, side, m, n), t, n)
  {
  }

  lemma ServeHandsOver(s: State, t: nat, m: Message, n: nat)
    requires AtHand(s, t, n) && !s.fault && s.threads[t] == Checking(Putting, m, n) && !s.nodes[n].timedOut
    ensures Quiet(s, Serve(s, t, Putting, m, n), t) && HandsOver(s, Serve(s, t, Putting, m, n), t, n, m)
  {
  }

  lemma ServeTakesIn(s: State, t: nat, m: Message, n: nat)
    requires t < |s.threads| && n < |s.nodes| && !s.fault
    requires s.threads[t] == Checking(Getting, m, n) && !s.nodes[n].timedOut
    requires PopperFits(s.threads[t], s.nodes[n]) && Fits(s, s.nodes[n].kind.message) && WellFormed(s.chain)
    ensures TakesIn(s, Serve(s, t, Getting, m, n), t, n, s.nodes[n].kind.message)
  {
    ServeStoresFor(s, t, m, n);
  }

  lemma ServeStoresFor(s: State, t: nat, m: Message, n: nat)
    requires t < |s.threads| && n < |s.nodes| && !s.fault
    requires s.threads[t] == Checking(Getting, m, n) && !s.nodes[n].timedOut
    requires PopperFits(s.threads[t], s.nodes[n]) && Fits(s, s.nodes[n].kind.message) && WellFormed(s.chain)
    ensures var s' := Serve(s, t, Getting, m, n);
      t < |s'.threads| && n < |s'.nodes| && StoresFor(s, s', t, n, s.nodes[n].kind.message)
  {
    var x := s.nodes[n].kind.message;
    ServeStores(s, t, m, n);
    PushKeeps(s.chain, x.priority - 1, x);
    TakenInStores(s, Serve(s, t, Getting, m, n), t, m, n);
  }

  /** What serving a blocked writer does, with the push left unopened. */
  lemma ServeStores(s: State, t: nat, m: Message, n: nat)
    requires t < |s.threads| && n < |s.nodes| && !s.fault
    requires s.threads[t] == Checking(Getting, m, n) && !s.nodes[n].timedOut
    requires PopperFits(s.threads[t], s.nodes[n]) && Fits(s, s.nodes[n].kind.message)
    ensures var s' := Serve(s, t, Getting, m, n); var x := s.nodes[n].kind.message;
      && s' == s.(chain := Push(s.chain, x.priority - 1, x), threads := s.threads[t := Signalling(Getting, m, n)],
                  nodes := s.nodes[n := s.nodes[n].(taken := true)])
  {
  }

  lemma TakenInStores(s: State, s': State, t: nat, m: Message, n: nat)
    requires t < |s.threads| && n < |s.nodes| && s.threads[t] == Checking(Getting, m, n)
    requires PopperFits(s.threads[t], s.nodes[n])
    requires s' == s.(chain := s'.chain, threads := s.threads[t := Signalling(Getting, m, n)],
                      nodes := s.nodes[n := s.nodes[n].(taken := true)])
    requires Stored(s'.chain.buckets) == Stored(s.chain.buckets) + multiset{s.nodes[n].kind.message}
    ensures StoresFor(s, s', t, n, s.nodes[n].kind.message)
  {
  }

  lemma WithdrawPlain(s: State, t: nat, n: nat, got: Option<Message>)
    requires AtHand(s, t, n) && !s.fault && s.threads[t] == Left(n, got) && !(s.nodes[n].timedOut && s.nodes[n].linked)
    ensures Plain(s, Withdraw(s, t, n, got), t, n)
  {
  }

  lemma WithdrawGetterBooks(s: State, t: nat, n: nat, got: Option<Message>)
    requires t < |s.threads| && n < |s.nodes| && !s.fault && s.threads[t] == Left(n, got) && Seats(s, n)
    requires s.nodes[n].timedOut && s.nodes[n].linked && s.nodes[n].kind == Getter
    ensures SameBooks(s, Withdraw(s, t, n, got), t, n)
  {
  }

  lemma WithdrawPutterBooks(s: State, t: nat, n: nat, got: Option<Message>)
    requires t < |s.threads| && n < |s.nodes| && !s.fault && s.threads[t] == Left(n, got) && Seats(s, n)
    requires s.nodes[n].timedOut && s.nodes[n].linked && s.nodes[n].kind.Putter?
    ensures SameBooks(s, Withdraw(s, t, n, got), t, n)
  {
  }
}
