/** When the hand-over protocol can come to a stand: freedom from deadlock. */
module QueueProgress {
  import opened Common
  import opened QueueProtocol
  import opened QueueStructure
  import opened QueueSteps
  import opened QueueTheorems

  /** Whoever holds a waiter's lock can go on. */
  lemma CondHolderRuns(s: State, n: nat)
    requires Inv(s) && n < |s.nodes| && s.nodes[n].condlock.Some?
    ensures exists t | 0 <= t < |s.threads| :: CanRun(s, s.threads[t])
  {
    assert NodeOk(n, s.nodes[n], s.threads);
    assert CanRun(s, s.threads[s.nodes[n].condlock.value]);
  }

  /** A thread that cannot go on waits for the queue lock, or sleeps. */
  lemma WhoCannotRun(s: State, t: nat)
    requires Inv(s) && t < |s.threads| && forall u | 0 <= u < |s.threads| :: !CanRun(s, s.threads[u])
    ensures s.quelock != Some(t)
    ensures s.threads[t].PutLock? || s.threads[t].GetLock? || s.threads[t].ForceLock? || s.threads[t].Idle?
            || (s.threads[t].Blocked? && s.threads[t].n < |s.nodes| && s.nodes[s.threads[t].n].wait == Waiting)
  {
    assert ThreadOk(s.threads[t], t, s.nodes, s.quelock);
    assert !CanRun(s, s.threads[t]);
    forall n: nat | n < |s.nodes| ensures s.nodes[n].condlock == None {
      if s.nodes[n].condlock.Some? { CondHolderRuns(s, n); }
    }
  }

  lemma StuckSleeperIsLinked(s: State, n: nat)
    requires Inv(s) && n < |s.nodes| && s.nodes[n].wait == Waiting
    requires forall u | 0 <= u < |s.threads| :: !CanRun(s, s.threads[u])
    ensures s.nodes[n].linked
  {
    assert NodeOk(n, s.nodes[n], s.threads);
    if s.nodes[n].condlock.Some? {
      CondHolderRuns(s, n);
    } else if !s.nodes[n].linked {
      assert CanRun(s, s.threads[s.nodes[n].popper.value]);
    }
  }

  /**
   * No deadlock: nothing can move only when the queue lock is free and all that is inside sleeps in its
   * list, and then, without forced puts, getters face an empty chain and putters a full one.
   */
  lemma StuckOnlyOnWaiters(limit: nat, levels: nat, threadCount: nat, actions: seq<Action>, s: State, t: nat)
    requires Reached(limit, levels, threadCount, actions, s) && t < |s.threads| && s.threads[t] != Idle
    requires forall u | 0 <= u < |s.threads| :: !CanRun(s, s.threads[u])
    ensures s.quelock == None && s.threads[t].Blocked? && s.threads[t].n < |s.nodes|
    ensures var node := s.nodes[s.threads[t].n];
      && node.wait == Waiting && node.linked
      && (!s.forced ==> s.chain.count == if node.kind.Getter? then 0 else s.limit)
  {
    ReachedKeeps(limit, levels, threadCount, actions, s);
    if s.quelock.Some? { WhoCannotRun(s, s.quelock.value); }
    WhoCannotRun(s, t);
    assert !CanRun(s, s.threads[t]);
    StuckSleeperIsLinked(s, s.threads[t].n);
  }
}
