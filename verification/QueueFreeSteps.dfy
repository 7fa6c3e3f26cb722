/** The steps of threads that hold no waiter: taking the queue lock, deciding, storing, returning. */
module QueueFreeSteps {
  import opened Common
  import opened Scheduler
  import opened MsgChains
  import opened QueueProtocol
  import opened QueueStructure
  import opened QueueBounds
  import opened QueueLedger
  import opened QueueSteps
  import opened QueueSafety

  /** Thread t stands where it holds no waiter. */
  predicate AtFree(s: State, t: nat) {
    && t < |s.threads| && NodeOf(s.threads[t]) == None && !s.fault
    && (HoldsQueue(s.threads[t]) <==> s.quelock == Some(t))
  }

  lemma FreeThread(s: State, t: nat)
    requires Sound(s) && t < |s.threads| && NodeOf(s.threads[t]) == None && !s.fault
    ensures AtFree(s, t)
  {
    assert ThreadOk(s.threads[t], t, s.nodes, s.quelock);
  }

  /** Only thread t, the lock and the messages moved. */
  predicate FreeMove(s: State, s': State, t: nat) {
    && !s'.fault && ThreadMoves(s, s', t) && s'.nodes == s.nodes && NodeOf(s'.threads[t]) == None
    && (HoldsQueue(s'.threads[t]) <==> s'.quelock == Some(t))
    && (s'.quelock == s.quelock || (s.quelock in {None, Some(t)} && s'.quelock in {None, Some(t)}))
  }

  lemma FreeMoveSound(s: State, s': State, t: nat)
    requires Sound(s) && AtFree(s, t) && FreeMove(s, s', t)
    ensures Sound(s')
  {
    MovesFree(s.threads, s.nodes, s.quelock, t, s'.threads[t], s'.quelock);
  }

  function KeptSet(pc: Pc): set<Message> {
    match KeptOf(pc) case Some(m) => {m} case None => {}
  }

  /** The shelf gains what the thread gives up, or a message in hand is delivered. */
  predicate FreeBooks(s: State, s': State, t: nat) {
    && ThreadMoves(s, s', t) && s'.nodes == s.nodes && s'.issued == s.issued
    && s'.chain == s.chain && s'.temp == s.temp && s'.evicted == s.evicted
    && var pc, pc' := s.threads[t], s'.threads[t];
    && (if HandOf(pc') == HandOf(pc) then s'.delivered == s.delivered
        else HandOf(pc') == None && s'.delivered == s.delivered + Hand(pc))
    && OfferOf(pc') == OfferOf(pc) && KeptOf(pc') in {None, KeptOf(pc)} && Owes(pc') == Owes(pc)
    && s'.putOk == (if KeptOf(pc') == KeptOf(pc) then s.putOk else s.putOk + KeptSet(pc))
  }

  lemma FreeBooksBalance(s: State, s': State, t: nat)
    requires FreeBooks(s, s', t)
    ensures Balances(s, s', t, NOBODY, NOBODY)
  {
    assert InHand(s', t) == InHand(s, t);
  }

  lemma FreeBooksClaims(s: State, s': State, t: nat)
    requires FreeBooks(s, s', t)
    ensures Claims(s, s', t, NOBODY, NOBODY)
  {
  }

  lemma FreeBooksLedger(s: State, s': State, t: nat)
    requires Ledger(s) && FreeBooks(s, s', t)
    ensures Ledger(s')
  {
    FreeBooksBalance(s, s', t);
    FreeBooksClaims(s, s', t);
    LedgerMoves(s, s', t, |s.nodes|, NOBODY, NOBODY);
  }

  predicate FreePlain(s: State, s': State, t: nat) {
    FreeMove(s, s', t) && FreeBooks(s, s', t) && Quiet(s, s', t)
  }

  lemma FreePlainKeeps(s: State, s': State, t: nat)
    requires Inv(s) && AtFree(s, t) && FreePlain(s, s', t)
    ensures Inv(s')
  {
    FreeMoveSound(s, s', t);
    FreeBooksLedger(s, s', t);
    QuietRest(s, s', t);
  }

  lemma LockQueuePlain(s: State, t: nat, next: Pc)
    requires AtFree(s, t) && s.quelock == None && NodeOf(next) == None && HoldsQueue(next) && !Gap(next)
    requires HandOf(next) == HandOf(s.threads[t]) && OfferOf(next) == OfferOf(s.threads[t])
    requires KeptOf(next) == KeptOf(s.threads[t]) && Owes(next) == Owes(s.threads[t])
    ensures FreePlain(s, LockQueue(s, t, next), t)
  {
  }

  lemma PutReturnsPlain(s: State, t: nat, m: Message)
    requires AtFree(s, t) && (s.threads[t] == PutStored(m) || s.threads[t] == ForceDone(m))
    ensures FreePlain(s, PutReturns(s, t, m), t)
  {
  }

  lemma GetReturnsPlain(s: State, t: nat, m: Message)
    requires AtFree(s, t) && s.threads[t] == GetFinish(m)
    ensures FreePlain(s, GetReturns(s, t, m), t)
  {
  }

  // ---------- The decisions under the queue lock ----------

  /** A message on offer was issued, so its priority names a bucket. */
  lemma OfferedIsIssued(s: State, t: nat, m: Message)
    requires Ledger(s) && t < |s.threads| && OfferOf(s.threads[t]) == Some(m)
    ensures 1 <= m.priority <= |s.chain.buckets|
  {
    GatherUpdate(Offer, s.threads, t, s.threads[t]);
    assert m in Offered(s) && m in multiset(s.issued);
    assert m in s.issued;
  }

  lemma FirstGetterLinked(getters: seq<nat>, nodes: seq<Node>)
    requires GettersLinked(getters, nodes) && getters != []
    ensures getters[0] < |nodes| && nodes[getters[0]].linked && nodes[getters[0]].kind.Getter?
    ensures multiset(getters) == multiset(getters[1..]) + multiset{getters[0]}
  {
    assert getters == [getters[0]] + getters[1..];
    assert getters[0] in getters && getters[0] in multiset(getters);
  }

  lemma PutPopsGetterRest(s: State, t: nat, m: Message)
    requires Rest(s) && AtFree(s, t) && s.threads[t] == PutLocked(m) && s.getters != []
    requires s.getters[0] < |s.nodes| && !s.nodes[s.getters[0]].freed
    ensures Rest(PutPopsGetter(s, t, m))
  {
    var n, s' := s.getters[0], PutPopsGetter(s, t, m);
    FirstGetterLinked(s.getters, s.nodes);
    var node' := s'.nodes[n];
    LosesGetter(s.getters, s.getters[1..], s.nodes, n, node');
    PuttersSame(s.putters, s.nodes, n, node');
    ShrinkBounds(s, s');
  }

  lemma PutPopsGetterBooks(s: State, t: nat, m: Message)
    requires AtFree(s, t) && s.threads[t] == PutLocked(m) && s.getters != []
    requires s.getters[0] < |s.nodes| && !s.nodes[s.getters[0]].freed
    ensures SameBooks(s, PutPopsGetter(s, t, m), t, s.getters[0])
  {
  }

  lemma PutPopsGetterKeeps(s: State, t: nat, m: Message)
    requires Inv(s) && AtFree(s, t) && s.threads[t] == PutLocked(m) && s.getters != []
    ensures Inv(PutPopsGetter(s, t, m))
  {
    var n, s' := s.getters[0], PutPopsGetter(s, t, m);
    FirstGetterLinked(s.getters, s.nodes);
    PopNodeSound(s.(getters := s.getters[1..]), t, n, Popping(Putting, m, n));
    PutPopsGetterRest(s, t, m);
    PutPopsGetterBooks(s, t, m);
    SameBooksSettle(s, s', t, n);
    LedgerMoves(s, s', t, n, s.nodes[n], s'.nodes[n]);
  }

  lemma PutBlocksRest(s: State, t: nat, m: Message)
    requires Rest(s) && AtFree(s, t) && s.threads[t] == PutLocked(m) && 1 <= m.priority <= |s.chain.buckets|
    requires s.getters == [] && s.chain.count == s.limit
    ensures Rest(PutBlocks(s, t, m))
  {
    NewPutter(s.putters, s.nodes, t, m);
    GettersIgnore(s.getters, s.nodes, NewNode(Putter(m), t));
  }

  lemma PutBlocksKeeps(s: State, t: nat, m: Message)
    requires Inv(s) && AtFree(s, t) && s.threads[t] == PutLocked(m)
    requires s.getters == [] && s.chain.count == s.limit
    ensures Inv(PutBlocks(s, t, m))
  {
    OfferedIsIssued(s, t, m);
    PutBlocksRest(s, t, m);
    MovesRegister(s.threads, s.nodes, s.quelock, t, Putter(m));
    var s', node := PutBlocks(s, t, m), NewNode(Putter(m), t);
    PutBlocksParks(s, t, m);
    ParksLedger(s, s', t, node);
  }

  /** A message on offer moves from the thread to a new waiter, or nothing is on offer at all. */
  predicate Parks(s: State, s': State, t: nat, node: Node) {
    && ThreadMoves(s, s', t) && s'.nodes == s.nodes + [node] && SameShelf(s, s') && s'.putOk == s.putOk
    && var pc, pc' := s.threads[t], s'.threads[t];
    && OfferOf(pc) == NodeOfferOf(node) && OfferOf(pc') == None && HandOf(pc') == HandOf(pc)
    && KeptOf(pc') == None && TakenOf(node) == None && Owes(pc') + NodeOwed(node) <= Owes(pc)
  }

  lemma ParksLedger(s: State, s': State, t: nat, node: Node)
    requires Ledger(s) && Parks(s, s', t, node)
    ensures Ledger(s')
  {
    assert InHand(s', t) == InHand(s, t);
    assert OnOffer(s', t, node) == OnOffer(s, t, NOBODY);
    LedgerMoves(s, s', t, |s.nodes|, NOBODY, node);
  }

  lemma PutBlocksParks(s: State, t: nat, m: Message)
    requires AtFree(s, t) && s.threads[t] == PutLocked(m) && 1 <= m.priority <= |s.putters.buckets|
    ensures Parks(s, PutBlocks(s, t, m), t, NewNode(Putter(m), t))
  {
  }

  lemma PutStoresRest(s: State, t: nat, m: Message)
    requires Rest(s) && AtFree(s, t) && s.threads[t] == PutLocked(m) && 1 <= m.priority <= |s.chain.buckets|
    requires s.getters == [] && s.chain.count != s.limit
    ensures Fits(s, m) && Rest(PutStores(s, t, m))
  {
    PutStoresBounds(s, t, m, PutStores(s, t, m));
  }

  lemma PutStoresBounds(s: State, t: nat, m: Message, s': State)
    requires Bounds(s) && AtFree(s, t) && s.threads[t] == PutLocked(m) && Fits(s, m)
    requires s.getters == [] && s.chain.count != s.limit
    requires s' == s.(chain := Push(s.chain, m.priority - 1, m), threads := s.threads[t := PutStored(m)])
    ensures Bounds(s')
  {
    PushKeeps(s.chain, m.priority - 1, m);
    assert !InGap(s');
  }

  /** A message on offer goes onto the shelf. */
  ghost predicate Shelves(s: State, s': State, t: nat, m: Message) {
    && ThreadMoves(s, s', t) && s'.nodes == s.nodes && s'.issued == s.issued && s'.temp == s.temp && s'.putOk == s.putOk
    && |s'.chain.buckets| == |s.chain.buckets| && s'.delivered == s.delivered
    && Stored(s'.chain.buckets) + s'.evicted == Stored(s.chain.buckets) + s.evicted + multiset{m}
    && m in Stored(s'.chain.buckets)
    && var pc, pc' := s.threads[t], s'.threads[t];
    && OfferOf(pc) == Some(m) && OfferOf(pc') == None && HandOf(pc') == HandOf(pc) && KeptOf(pc') == Some(m)
    && Owes(pc') == Owes(pc)
  }

  lemma ShelvesHand(s: State, s': State, t: nat, m: Message)
    requires Shelves(s, s', t, m)
    ensures InHand(s', t) == InHand(s, t) + multiset{m}
  {
    var stays := multiset(s.temp) + s.delivered;
    assert Shelf(s) == (Stored(s.chain.buckets) + s.evicted) + stays;
    assert Shelf(s') == (Stored(s'.chain.buckets) + s'.evicted) + stays;
  }

  lemma ShelvesBalance(s: State, s': State, t: nat, m: Message)
    requires Shelves(s, s', t, m)
    ensures Balances(s, s', t, NOBODY, NOBODY)
  {
    ShelvesHand(s, s', t, m);
    assert OnOffer(s, t, NOBODY) == OnOffer(s', t, NOBODY) + multiset{m};
  }

  lemma ShelvesLedger(s: State, s': State, t: nat, m: Message)
    requires Ledger(s) && Shelves(s, s', t, m)
    ensures Ledger(s')
  {
    ShelvesBalance(s, s', t, m);
    LedgerMoves(s, s', t, |s.nodes|, NOBODY, NOBODY);
  }

  lemma PutStoresMoves(s: State, t: nat, m: Message)
    requires AtFree(s, t) && s.threads[t] == PutLocked(m) && Fits(s, m) && WellFormed(s.chain)
    ensures FreeMove(s, PutStores(s, t, m), t) && Shelves(s, PutStores(s, t, m), t, m)
  {
    PushKeeps(s.chain, m.priority - 1, m);
  }

  lemma PutStoresKeeps(s: State, t: nat, m: Message)
    requires Inv(s) && AtFree(s, t) && s.threads[t] == PutLocked(m)
    requires s.getters == [] && s.chain.count != s.limit
    ensures Inv(PutStores(s, t, m))
  {
    OfferedIsIssued(s, t, m);
    PutStoresRest(s, t, m);
    PutStoresMoves(s, t, m);
    FreeMoveSound(s, PutStores(s, t, m), t);
    ShelvesLedger(s, PutStores(s, t, m), t, m);
  }

  lemma GetBlocksRest(s: State, t: nat)
    requires Rest(s) && AtFree(s, t) && s.threads[t] == GetLocked && s.chain.count == 0
    ensures Rest(GetBlocks(s, t))
  {
    NewGetter(s.getters, s.nodes, t);
    PuttersIgnore(s.putters, s.nodes, NewNode(Getter, t));
  }

  lemma GetBlocksKeeps(s: State, t: nat)
    requires Inv(s) && AtFree(s, t) && s.threads[t] == GetLocked && s.chain.count == 0
    ensures Inv(GetBlocks(s, t))
  {
    GetBlocksRest(s, t);
    MovesRegister(s.threads, s.nodes, s.quelock, t, Getter);
    ParksLedger(s, GetBlocks(s, t), t, NewNode(Getter, t));
  }

  /** A stored message goes into the hands of the thread. */
  ghost predicate Takes(s: State, s': State, t: nat, m: Message) {
    && ThreadMoves(s, s', t) && s'.nodes == s.nodes && s'.issued == s.issued && s'.temp == s.temp && s'.putOk == s.putOk
    && |s'.chain.buckets| == |s.chain.buckets| && s'.delivered == s.delivered && s'.evicted == s.evicted
    && Stored(s.chain.buckets) == Stored(s'.chain.buckets) + multiset{m}
    && var pc, pc' := s.threads[t], s'.threads[t];
    && HandOf(pc) == None && HandOf(pc') == Some(m) && OfferOf(pc') == OfferOf(pc) && KeptOf(pc') == None
    && Owes(pc') == Owes(pc)
  }

  lemma TakesLedger(s: State, s': State, t: nat, m: Message)
    requires Ledger(s) && Takes(s, s', t, m)
    ensures Ledger(s')
  {
    assert InHand(s', t) == InHand(s, t);
    LedgerMoves(s, s', t, |s.nodes|, NOBODY, NOBODY);
  }

  lemma GetTakesMoves(s: State, t: nat)
    requires AtFree(s, t) && s.threads[t] == GetLocked && s.chain.count > 0 && WellFormed(s.chain)
    ensures Top(s.chain.buckets) >= 0
    ensures Pop(s.chain).Popped? ==>
      && FreeMove(s, GetTakes(s, t), t) && Takes(s, GetTakes(s, t), t, Pop(s.chain).item)
      && WellFormed(GetTakes(s, t).chain) && GetTakes(s, t).chain.count == s.chain.count - 1
  {
    PopKeeps(s.chain);
    var r := Pop(s.chain);
    assert r.Popped? ==> HeadLeft(s.chain, r.chain, r.sn, r.item);
  }

  lemma GetTakesRest(s: State, t: nat)
    requires Rest(s) && AtFree(s, t) && s.threads[t] == GetLocked && s.chain.count > 0
    ensures Top(s.chain.buckets) >= 0
    ensures Pop(s.chain).Popped? ==> Rest(GetTakes(s, t))
  {
    GetTakesMoves(s, t);
  }

  /** The process stops at the scheduler's assertion; nothing else changes. */
  lemma AbortKeeps(s: State)
    requires Inv(s)
    ensures Inv(s.(aborted := true))
  {
    AbortLedger(s);
  }

  lemma AbortLedger(s: State)
    requires Ledger(s)
    ensures Ledger(s.(aborted := true))
  {
    var s' := s.(aborted := true);
    assert Accepted(s') == Accepted(s) && Offered(s') == Offered(s) && Debt(s') == Debt(s);
  }

  lemma GetTakesKeeps(s: State, t: nat)
    requires Inv(s) && AtFree(s, t) && s.threads[t] == GetLocked && s.chain.count > 0
    ensures Inv(GetTakes(s, t))
  {
    GetTakesMoves(s, t);
    GetTakesRest(s, t);
    var s' := GetTakes(s, t);
    if Pop(s.chain).Stuck? {
      AbortKeeps(s);
    } else {
      FreeMoveSound(s, s', t);
      TakesLedger(s, s', t, Pop(s.chain).item);
    }
  }

  lemma GetSkipsKeeps(s: State, t: nat, m: Message)
    requires Inv(s) && AtFree(s, t) && s.threads[t] == GetPopped(m) && s.putters.count == 0
    ensures Inv(Goto(s, t, GetFinish(m)))
  {
    var s' := Goto(s, t, GetFinish(m));
    FreeMoveSound(s, s', t);
    FreeBooksLedger(s, s', t);
  }

  lemma GetPopsPutterLinks(s: State, t: nat, m: Message)
    requires Rest(s) && AtFree(s, t) && s.threads[t] == GetPopped(m) && s.putters.count > 0
    ensures Top(s.putters.buckets) >= 0
    ensures var r := Pop(s.putters); r.Popped? ==>
      && r.item < |s.nodes| && s.nodes[r.item].linked && s.nodes[r.item].kind.Putter?
      && PuttersLinked(r.chain, s.nodes[r.item := PoppedBy(s.nodes[r.item], t)])
      && |r.chain.buckets| == |s.putters.buckets| && r.chain.count <= s.putters.count
  {
    PopKeeps<nat>(s.putters);
    var r := Pop(s.putters);
    if r.Popped? {
      assert HeadLeft(s.putters, r.chain, r.sn, r.item);
      var n := r.item;
      assert n in s.putters.buckets[r.sn].items && Seated(s.nodes, n, r.sn);
      var node := s.nodes[n];
      LosesPutter(s.putters, r.chain, s.nodes, n, PoppedBy(node, t));
    }
  }

  lemma GetPopsPutterMoves(s: State, t: nat, m: Message)
    requires AtFree(s, t) && s.threads[t] == GetPopped(m) && s.putters.count > 0 && Top(s.putters.buckets) >= 0
    requires Pop(s.putters).Popped? && Pop(s.putters).item < |s.nodes| && !s.nodes[Pop(s.putters).item].freed
    ensures var s', n := GetPopsPutter(s, t, m), Pop(s.putters).item;
      && SameBooks(s, s', t, n) && InGap(s') == InGap(s) && s'.limit == s.limit && s'.forced == s.forced
      && s'.chain == s.chain && s'.getters == s.getters && s'.putters == Pop(s.putters).chain
      && s'.nodes == s.nodes[n := PoppedBy(s.nodes[n], t)]
  {
  }

  lemma GetPopsPutterKeeps(s: State, t: nat, m: Message)
    requires Inv(s) && AtFree(s, t) && s.threads[t] == GetPopped(m) && s.putters.count > 0
    ensures Inv(GetPopsPutter(s, t, m))
  {
    GetPopsPutterLinks(s, t, m);
    var r := Pop(s.putters);
    if r.Popped? {
      var n := r.item;
      PopNodeSound(s.(putters := r.chain), t, n, Popping(Getting, m, n));
      GetPopsPutterMoves(s, t, m);
      var s' := GetPopsPutter(s, t, m);
      GettersSame(s.getters, s.nodes, n, s'.nodes[n]);
      ShrinkBounds(s, s');
      GetPopsPutterLedger(s, t, m);
    } else {
      AbortKeeps(s);
    }
  }

  lemma GetPopsPutterLedger(s: State, t: nat, m: Message)
    requires Ledger(s) && AtFree(s, t) && s.threads[t] == GetPopped(m) && s.putters.count > 0
    requires Top(s.putters.buckets) >= 0 && Pop(s.putters).Popped?
    requires Pop(s.putters).item < |s.nodes| && !s.nodes[Pop(s.putters).item].freed
    ensures Ledger(GetPopsPutter(s, t, m))
  {
    GetPopsPutterMoves(s, t, m);
    var s', n := GetPopsPutter(s, t, m), Pop(s.putters).item;
    SameBooksSettle(s, s', t, n);
    LedgerMoves(s, s', t, n, s.nodes[n], s'.nodes[n]);
  }
}
