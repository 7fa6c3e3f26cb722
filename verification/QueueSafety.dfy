/** Every step of a thread at a waiter keeps the invariant of the hand-over protocol. */
module QueueSafety {
  import opened Common
  import opened Scheduler
  import opened MsgChains
  import opened QueueProtocol
  import opened QueueStructure
  import opened QueueBounds
  import opened QueueLedger
  import opened QueueSteps

  // ---------- Steps at a waiter ----------

  lemma QuietKeeps(s: State, s': State, t: nat, n: nat)
    requires Rest(s) && Ledger(s) && t < |s.threads| && Quiet(s, s', t) && Settles(s, s', t, n)
    ensures Rest(s') && Ledger(s')
  {
    QuietRest(s, s', t);
    LedgerMoves(s, s', t, n, s.nodes[n], s'.nodes[n]);
  }

  lemma PlainKeeps(s: State, s': State, t: nat, n: nat)
    requires Rest(s) && Ledger(s) && Plain(s, s', t, n)
    ensures !s'.fault && Rest(s') && Ledger(s')
  {
    SameBooksSettle(s, s', t, n);
    QuietKeeps(s, s', t, n);
  }

  lemma AcknowledgesKeeps(s: State, s': State, t: nat, n: nat, acked: set<Message>)
    requires Rest(s) && Ledger(s) && t < |s.threads| && Quiet(s, s', t) && Acknowledges(s, s', t, n, acked)
    ensures !s'.fault && Rest(s') && Ledger(s')
  {
    AcknowledgesSettles(s, s', t, n, acked);
    QuietKeeps(s, s', t, n);
  }

  /** A signalled getter that has not resumed is covered by a message in the hand-over list. */
  lemma SignalledIsCovered(s: State, n: nat)
    requires Ledger(s) && n < |s.nodes| && s.nodes[n].kind.Getter? && s.nodes[n].wait == Signalled
    ensures s.temp != []
  {
    TotalUpdate(NodeOwed, s.nodes, n, NOBODY);
  }

  /** The gap closes: a blocked writer's message fills the place that was made. */
  lemma TakesInBounds(s: State, s': State, x: Message)
    requires Bounds(s) && InGap(s) && !InGap(s') && 1 <= x.priority <= |s.chain.buckets|
    requires s'.limit == s.limit && s'.forced == s.forced && s'.getters == s.getters && s'.putters == s.putters
    requires s'.chain == Push(s.chain, x.priority - 1, x)
    ensures Bounds(s')
  {
    PushKeeps(s.chain, x.priority - 1, x);
  }

  lemma TakesInLinks(s: State, t: nat, m: Message, n: nat)
    requires AtHand(s, t, n) && !s.fault && s.threads[t] == Checking(Getting, m, n) && !s.nodes[n].timedOut
    requires s.nodes[n].kind.Putter? && Fits(s, s.nodes[n].kind.message)
    ensures var s', x := Serve(s, t, Getting, m, n), s.nodes[n].kind.message;
      && SameLinks(s.nodes, s'.nodes) && !InGap(s') && s'.chain == Push(s.chain, x.priority - 1, x)
      && s'.limit == s.limit && s'.forced == s.forced && s'.getters == s.getters && s'.putters == s.putters
  {
  }

  lemma TakesInRest(s: State, t: nat, m: Message, n: nat)
    requires Rest(s) && AtHand(s, t, n) && !s.fault && s.threads[t] == Checking(Getting, m, n) && !s.nodes[n].timedOut
    requires s.nodes[n].kind.Putter?
    ensures Rest(Serve(s, t, Getting, m, n))
  {
    TakesInLinks(s, t, m, n);
    var s' := Serve(s, t, Getting, m, n);
    TakesInBounds(s, s', s.nodes[n].kind.message);
    LinkedSame(s.getters, s.putters, s.nodes, s'.nodes);
  }

  /** Waiters leave the lists; chain and gap stay. */
  lemma ShrinkBounds(s: State, s': State)
    requires Bounds(s) && InGap(s') == InGap(s)
    requires s'.limit == s.limit && s'.forced == s.forced && s'.chain == s.chain
    requires s'.getters != [] ==> s.getters != []
    requires s'.putters.count <= s.putters.count && |s'.putters.buckets| == |s.putters.buckets|
    ensures Bounds(s')
  {
  }

  lemma WithdrawGap(s: State, t: nat, n: nat, got: Option<Message>)
    requires AtHand(s, t, n) && !s.fault && s.threads[t] == Left(n, got) && Seats(s, n)
    ensures var s' := Withdraw(s, t, n, got);
      !s'.fault && InGap(s') == InGap(s) && s'.limit == s.limit && s'.forced == s.forced && s'.chain == s.chain
  {
  }

  lemma WithdrawGetter(s: State, t: nat, n: nat, got: Option<Message>)
    requires Rest(s) && AtHand(s, t, n) && !s.fault && s.threads[t] == Left(n, got)
    requires s.nodes[n].timedOut && s.nodes[n].linked && s.nodes[n].kind.Getter?
    ensures Seats(s, n) && Rest(Withdraw(s, t, n, got))
  {
    assert multiset(s.getters)[n] == 1;
    WithdrawGap(s, t, n, got);
    var s', node' := Withdraw(s, t, n, got), s.nodes[n].(linked := false);
    LosesGetter(s.getters, Without(s.getters, n), s.nodes, n, node');
    PuttersSame(s.putters, s.nodes, n, node');
    ShrinkBounds(s, s');
  }

  lemma WithdrawPutter(s: State, t: nat, n: nat, got: Option<Message>)
    requires Rest(s) && AtHand(s, t, n) && !s.fault && s.threads[t] == Left(n, got)
    requires s.nodes[n].timedOut && s.nodes[n].linked && s.nodes[n].kind.Putter?
    ensures Seats(s, n) && Rest(Withdraw(s, t, n, got))
  {
    PutterSeat(s.putters, s.nodes, n);
    WithdrawGap(s, t, n, got);
    var s', node' := Withdraw(s, t, n, got), s.nodes[n].(linked := false);
    var level := s.nodes[n].kind.message.priority - 1;
    RemoveKeeps<nat>(s.putters, level, n);
    LosesPutter(s.putters, Remove(s.putters, level, n), s.nodes, n, node');
    GettersSame(s.getters, s.nodes, n, node');
    ShrinkBounds(s, s');
  }

  /** A step kept everything but the structure, which StepNodeSound covers. */
  ghost predicate Keeps(s: State) { !s.fault && Rest(s) && Ledger(s) }

  lemma WakeKeeps(s: State, t: nat, n: nat)
    requires Keeps(s) && AtHand(s, t, n) && s.threads[t].Woken? && OwnerFits(s.threads[t], s.nodes[n])
    ensures Keeps(Wake(s, t, n))
  {
    if s.nodes[n].wait == Expired || s.nodes[n].kind.Putter? {
      WakePlain(s, t, n);
      PlainKeeps(s, Wake(s, t, n), t, n);
    } else {
      SignalledIsCovered(s, n);
      WakeFetches(s, t, n);
      FetchesSettles(s, Wake(s, t, n), t, n, s.temp[0]);
      QuietKeeps(s, Wake(s, t, n), t, n);
    }
  }

  lemma WithdrawKeeps(s: State, t: nat, n: nat, got: Option<Message>)
    requires Keeps(s) && AtHand(s, t, n) && s.threads[t] == Left(n, got)
    ensures Keeps(Withdraw(s, t, n, got))
  {
    var s' := Withdraw(s, t, n, got);
    if !(s.nodes[n].timedOut && s.nodes[n].linked) {
      WithdrawPlain(s, t, n, got);
      PlainKeeps(s, s', t, n);
    } else {
      if s.nodes[n].kind.Getter? {
        WithdrawGetter(s, t, n, got);
        WithdrawGetterBooks(s, t, n, got);
      } else {
        WithdrawPutter(s, t, n, got);
        WithdrawPutterBooks(s, t, n, got);
      }
      SameBooksSettle(s, s', t, n);
      LedgerMoves(s, s', t, n, s.nodes[n], s'.nodes[n]);
    }
  }

  lemma ServeKeeps(s: State, t: nat, side: Side, m: Message, n: nat)
    requires Keeps(s) && AtHand(s, t, n) && s.threads[t] == Checking(side, m, n)
    requires PopperFits(s.threads[t], s.nodes[n])
    ensures Keeps(Serve(s, t, side, m, n))
  {
    var s' := Serve(s, t, side, m, n);
    if s.nodes[n].timedOut {
      ServeTimedOut(s, t, side, m, n);
      PlainKeeps(s, s', t, n);
    } else if side == Putting {
      ServeHandsOver(s, t, m, n);
      HandsOverSettles(s, s', t, n, m);
      QuietKeeps(s, s', t, n);
    } else {
      var x := s.nodes[n].kind.message;
      TakesInRest(s, t, m, n);
      ServeTakesIn(s, t, m, n);
      TakesInSettles(s, s', t, n, x);
      LedgerMoves(s, s', t, n, s.nodes[n], s'.nodes[n]);
    }
  }

  lemma WakeupKeeps(s: State, t: nat, side: Side, m: Message, n: nat)
    requires Keeps(s) && AtHand(s, t, n) && s.threads[t] == Signalling(side, m, n)
    requires PopperFits(s.threads[t], s.nodes[n])
    ensures Keeps(Wakeup(s, t, side, m, n))
  {
    var s' := Wakeup(s, t, side, m, n);
    if side == Putting {
      WakeGetterPays(s, t, m, n);
      AcknowledgesKeeps(s, s', t, n, {});
    } else {
      WakePutterPlain(s, t, m, n);
      PlainKeeps(s, s', t, n);
    }
  }

  lemma DropKeeps(s: State, t: nat, side: Side, m: Message, n: nat, again: bool)
    requires Keeps(s) && AtHand(s, t, n) && s.threads[t] == Dropping(side, m, n, again)
    ensures Keeps(Drop(s, t, side, m, n, again))
  {
    var s' := Drop(s, t, side, m, n, again);
    if side == Putting && !again {
      DropGetterQuiet(s, t, m, n);
      DropGetterPays(s, t, m, n);
      AcknowledgesKeeps(s, s', t, n, {m});
    } else {
      if side == Putting {
        DropLateGetterPlain(s, t, m, n);
      } else if again {
      } else {
        DropPutterPlain(s, t, m, n);
      }
      PlainKeeps(s, s', t, n);
    }
  }

  lemma OwnerKeeps(s: State, t: nat, n: nat)
    requires Keeps(s) && AtHand(s, t, n) && OwnerOf(s.threads[t]).Some? && OwnerFits(s.threads[t], s.nodes[n])
    requires s.nodes[n].wait == Resumed && s.nodes[n].kind.Putter? ==> s.nodes[n].taken
    ensures Keeps(StepNode(s, t, n))
  {
    var s' := StepNode(s, t, n);
    match s.threads[t] {
      case Registered(_) => LeaveQueuePlain(s, t, n); PlainKeeps(s, s', t, n);
      case Entering(_) => SleepPlain(s, t, n); PlainKeeps(s, s', t, n);
      case Blocked(_) => RelockPlain(s, t, n); PlainKeeps(s, s', t, n);
      case Woken(_) => WakeKeeps(s, t, n);
      case Leaving(_, got) => UnlockPlain(s, t, n, Left(n, got)); PlainKeeps(s, s', t, n);
      case Left(_, got) => WithdrawKeeps(s, t, n, got);
      case Gone(_, got) =>
        ReturnQuiet(s, t, n, got);
        ReturnAcknowledges(s, t, n, got);
        AcknowledgesKeeps(s, s', t, n, AckedBy(s.nodes[n]));
    }
  }

  /** The steps of a popper that only take or release locks. */
  lemma PopperLocksKeep(s: State, t: nat, n: nat)
    requires Keeps(s) && AtHand(s, t, n) && PopperOf(s.threads[t]).Some? && PopperFits(s.threads[t], s.nodes[n])
    requires s.threads[t].Popping? || s.threads[t].BothLocked? || s.threads[t].Unlocking?
    ensures Keeps(StepNode(s, t, n))
  {
    match s.threads[t] {
      case Popping(side, m, _) =>
        if side == Putting { LockGetterPlain(s, t, m, n); } else { LockPutterPlain(s, t, m, n); }
      case BothLocked(m, _) => PutLeavesQueuePlain(s, t, m, n);
      case Unlocking(side, m, _) => UnlockPlain(s, t, n, Dropping(side, m, n, false));
    }
    PlainKeeps(s, StepNode(s, t, n), t, n);
  }

  lemma PopperKeeps(s: State, t: nat, n: nat)
    requires Keeps(s) && AtHand(s, t, n) && PopperOf(s.threads[t]).Some? && PopperFits(s.threads[t], s.nodes[n])
    ensures Keeps(StepNode(s, t, n))
  {
    match s.threads[t] {
      case Checking(side, m, _) => ServeKeeps(s, t, side, m, n);
      case Signalling(side, m, _) => WakeupKeeps(s, t, side, m, n);
      case Dropping(side, m, _, again) => DropKeeps(s, t, side, m, n, again);
      case _ => PopperLocksKeep(s, t, n);
    }
  }

  lemma StepNodeKeeps(s: State, t: nat, n: nat)
    requires Inv(s) && t < |s.threads| && CanRun(s, s.threads[t]) && NodeOf(s.threads[t]) == Some(n)
    ensures n < |s.nodes| && !s.nodes[n].freed && Inv(StepNode(s, t, n))
  {
    StepNodeSound(s, t, n);
    AtNode(s, t, n);
    if OwnerOf(s.threads[t]).Some? { OwnerKeeps(s, t, n); } else { PopperKeeps(s, t, n); }
  }
}
