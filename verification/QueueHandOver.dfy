/** The hand-over list is first in, first out over every run of the protocol. */
module QueueHandOver {
  import opened Common
  import opened MsgChains
  import opened QueueProtocol
  import opened QueueSteps
  import opened QueueRuns
  import opened QueueSafety
  import opened QueueTheorems
  import opened QueueTimeouts

  /** The message an action hands over: a put serves a getter that did not time out. */
  function HandedBy(s: State, a: Action): seq<Message> {
    if a.Run? && a.t < |s.threads| && s.threads[a.t].Checking? && s.threads[a.t].side == Putting
       && s.threads[a.t].n < |s.nodes| && !s.nodes[s.threads[a.t].n].timedOut
    then [s.threads[a.t].m] else []
  }

  /** What a thread took into its hands when its wait returned. */
  function Took(before: Pc, after: Pc): seq<Message> {
    if before.Woken? && after.Leaving? && after.got.Some? then [after.got.value] else []
  }

  function FetchedBy(s: State, a: Action): seq<Message>
    requires Enabled(s, a)
  {
    if a.Run? && a.t < |Apply(s, a).threads| then Took(s.threads[a.t], Apply(s, a).threads[a.t]) else []
  }

  function HandedOver(s: State, actions: seq<Action>): seq<Message>
    requires Legal(s, actions)
    decreases |actions|
  {
    if actions == [] then [] else HandedBy(s, actions[0]) + HandedOver(Apply(s, actions[0]), actions[1..])
  }

  function Fetched(s: State, actions: seq<Action>): seq<Message>
    requires Legal(s, actions)
    decreases |actions|
  {
    if actions == [] then [] else FetchedBy(s, actions[0]) + Fetched(Apply(s, actions[0]), actions[1..])
  }

  lemma ServeHands(s: State, t: nat, side: Side, m: Message, n: nat)
    requires t < |s.threads| && n < |s.nodes| && s.threads[t] == Checking(side, m, n) && !Serve(s, t, side, m, n).fault
    ensures Balanced(s, Serve(s, t, side, m, n), t)
  {
    assert s.temp + [] == s.temp;
  }

  lemma WakeFetches(s: State, t: nat, n: nat)
    requires t < |s.threads| && n < |s.nodes| && s.threads[t] == Woken(n) && !Wake(s, t, n).fault
    ensures Balanced(s, Wake(s, t, n), t)
  {
    assert s.temp + [] == s.temp;
  }

  /** What the list held and what a step handed over is what the step fetched and what the list holds. */
  predicate Balanced(s: State, s': State, t: nat)
    requires t < |s.threads|
  {
    |s'.threads| == |s.threads| && s.temp + HandedBy(s, Run(t)) == Took(s.threads[t], s'.threads[t]) + s'.temp
  }

  lemma WithdrawLeavesTemp(s: State, t: nat, n: nat, got: Option<Message>)
    requires t < |s.threads| && n < |s.nodes|
    ensures Withdraw(s, t, n, got).temp == s.temp && |Withdraw(s, t, n, got).threads| == |s.threads|
  {
  }

  lemma OtherNodeStepTemp(s: State, t: nat, n: nat)
    requires t < |s.threads| && n < |s.nodes| && NodeOf(s.threads[t]) == Some(n)
    requires !s.threads[t].Checking? && !s.threads[t].Woken?
    ensures StepNode(s, t, n).temp == s.temp && |StepNode(s, t, n).threads| == |s.threads|
  {
    if s.threads[t].Left? { WithdrawLeavesTemp(s, t, n, s.threads[t].got); }
  }

  lemma GetDecideLeavesTemp(s: State, t: nat)
    requires t < |s.threads|
    ensures GetDecide(s, t).temp == s.temp && |GetDecide(s, t).threads| == |s.threads|
  {
  }

  lemma GetRefillLeavesTemp(s: State, t: nat, m: Message)
    requires t < |s.threads|
    ensures GetRefill(s, t, m).temp == s.temp && |GetRefill(s, t, m).threads| == |s.threads|
  {
  }

  lemma FreeStepTemp(s: State, t: nat)
    requires t < |s.threads| && NodeOf(s.threads[t]) == None
    ensures Step(s, t).temp == s.temp && |Step(s, t).threads| == |s.threads|
  {
    var pc := s.threads[t];
    if pc.PutLocked? {
    } else if pc.GetLocked? {
      GetDecideLeavesTemp(s, t);
    } else if pc.GetPopped? {
      GetRefillLeavesTemp(s, t, pc.m);
    } else if pc.ForceLocked? {
    }
  }

  lemma NodeStepInOrder(s: State, t: nat, n: nat)
    requires t < |s.threads| && n < |s.nodes| && NodeOf(s.threads[t]) == Some(n) && !StepNode(s, t, n).fault
    ensures Balanced(s, StepNode(s, t, n), t)
  {
    match s.threads[t]
    case Checking(side, m, _) => ServeHands(s, t, side, m, n);
    case Woken(_) => WakeFetches(s, t, n);
    case _ =>
      OtherNodeStepTemp(s, t, n);
  }

  lemma RunStepInOrder(s: State, t: nat)
    requires Inv(s) && t < |s.threads| && CanRun(s, s.threads[t])
    ensures Balanced(s, Step(s, t), t)
  {
    match NodeOf(s.threads[t])
    case None =>
      FreeStepTemp(s, t);
    case Some(n) =>
      StepNodeKeeps(s, t, n);
      StepAtNode(s, t, n);
      NodeStepInOrder(s, t, n);
  }

  lemma ActionInOrder(s: State, a: Action)
    requires Inv(s) && Enabled(s, a)
    ensures s.temp + HandedBy(s, a) == FetchedBy(s, a) + Apply(s, a).temp
  {
    if a.Run? {
      RunStepInOrder(s, a.t);
    } else {
      assert Apply(s, a).temp == s.temp;
    }
  }

  lemma Regroup(x: seq<Message>, h: seq<Message>, hs: seq<Message>, f: seq<Message>, fs: seq<Message>,
                y: seq<Message>, z: seq<Message>)
    requires x + h == f + y && y + hs == fs + z
    ensures x + (h + hs) == (f + fs) + z
  {
    assert x + (h + hs) == (x + h) + hs;
    assert (f + y) + hs == f + (y + hs);
  }

  lemma {:induction false} RunInOrder(s: State, actions: seq<Action>)
    requires Inv(s) && Legal(s, actions)
    ensures s.temp + HandedOver(s, actions) == Fetched(s, actions) + ApplyAll(s, actions).temp
    decreases |actions|
  {
    if actions == [] {
      assert s.temp + [] == [] + s.temp;
    } else {
      var a, s', rest := actions[0], Apply(s, actions[0]), actions[1..];
      ActionInOrder(s, a);
      ApplyKeeps(s, a);
      RunInOrder(s', rest);
      Regroup(s.temp, HandedBy(s, a), HandedOver(s', rest), FetchedBy(s, a), Fetched(s', rest), s'.temp,
              ApplyAll(s', rest).temp);
    }
  }

  /** Over every run, getters fetch messages in the order in which puts handed them over; the rest is in the list. */
  lemma HandOverInOrder(limit: nat, levels: nat, threadCount: nat, actions: seq<Action>, s: State)
    requires Reached(limit, levels, threadCount, actions, s)
    ensures var start := Start(limit, levels, threadCount);
      HandedOver(start, actions) == Fetched(start, actions) + s.temp
  {
    var start := Start(limit, levels, threadCount);
    StartKeeps(limit, levels, threadCount);
    RunInOrder(start, actions);
    assert start.temp + HandedOver(start, actions) == HandedOver(start, actions);
  }
}
