/** The blocking queue end to end: what its callers pass and what they get back, told from the calls of a run. */
module BlockHistory {
  import opened Common
  import opened BlockQueues

  /**
   * What the calls of one thread say: the value of its last put, whether that put found room, and how many
   * values had been taken when it took its last one.
   */
  datatype Memory<T> = Memory(put: Option<T>, room: bool, took: nat)

  /** The calls so far: what each thread did last, the values of the puts that found room in order, the takings. */
  datatype History<T> = History(threads: seq<Memory<T>>, stored: seq<T>, taken: nat)

  function NoCalls<T>(threads: nat): History<T> {
    History(seq(threads, _ => Memory(None, false, 0)), [], 0)
  }

  function Change<T>(h: History<T>, t: nat, m: Memory<T>): History<T>
    requires t < |h.threads|
  {
    h.(threads := h.threads[t := m])
  }

  /** A put that is about to store looks whether fewer values are stored than there are slots. */
  function Looks<T>(s: State<T>, h: History<T>, t: nat): History<T>
    requires t < |h.threads|
  {
    var m := h.threads[t];
    if |Contents(s)| < |s.slots| && m.put.Some?
    then Change(h, t, m.(room := true)).(stored := h.stored + [m.put.value])
    else Change(h, t, m.(room := false))
  }

  function Remember<T>(s: State<T>, h: History<T>, a: Action<T>): History<T>
    requires Legal(s, a) && |h.threads| == |s.threads|
  {
    match a
    case Put(t, x) => Change(h, t, h.threads[t].(put := Some(x)))
    case Get(t) => h
    case Step(t) =>
      if s.threads[t].PutStore? then Looks(s, h, t)
      else if s.threads[t].GetTake? then Change(h, t, h.threads[t].(took := h.taken)).(taken := h.taken + 1)
      else h
  }

  /** The calls of a run; actions that are not legal when their turn comes are no calls. */
  ghost function Calls<T>(s0: State<T>, acts: seq<Action<T>>): (h: History<T>)
    ensures |h.threads| == |Run(s0, acts).threads|
  {
    if acts == [] then NoCalls(|s0.threads|)
    else
      var s, h, a := Run(s0, acts[..|acts| - 1]), Calls(s0, acts[..|acts| - 1]), acts[|acts| - 1];
      if Legal(s, a) then SizesStay(s, a); Remember(s, h, a) else h
  }

  // ---- What every action keeps ----

  predicate ThreadTied<T(==)>(s: State<T>, h: History<T>, t: nat)
    requires t < |s.threads| == |h.threads|
  {
    var m := h.threads[t];
    match s.threads[t]
    case PutEnter(x) => m.put == Some(x)
    case PutStore(x) => m.put == Some(x)
    case PutSignal => m.room
    case PutLeave(full) => full == !m.room
    case GetLeave(got) => m.took < |s.accepted| && got == Some(s.accepted[m.took])
    case _ => true
  }

  ghost predicate Tied<T>(s: State<T>, h: History<T>) {
    && |h.threads| == |s.threads| && h.stored == s.accepted && h.taken == |s.delivered|
    && forall t {:trigger ThreadTied(s, h, t)} | 0 <= t < |s.threads| :: ThreadTied(s, h, t)
  }

  /** s' is s after thread t moved, with its calls; another one may have been woken. */
  ghost predicate OneMoves<T>(s: State<T>, h: History<T>, s': State<T>, h': History<T>, t: nat) {
    && t < |s.threads| == |s'.threads| == |h.threads| == |h'.threads|
    && (forall u | 0 <= u < |s.threads| && u != t ::
          h'.threads[u] == h.threads[u] && (s'.threads[u] == s.threads[u] || s'.threads[u].GetWoken?))
    && s.accepted <= s'.accepted
  }

  lemma OneMovesTied<T>(s: State<T>, h: History<T>, s': State<T>, h': History<T>, t: nat)
    requires Tied(s, h) && OneMoves(s, h, s', h', t)
    requires ThreadTied(s', h', t) && h'.stored == s'.accepted && h'.taken == |s'.delivered|
    ensures Tied(s', h')
  {
    forall u | 0 <= u < |s'.threads| ensures ThreadTied(s', h', u) {
      if u != t { assert ThreadTied(s, h, u); }
    }
  }

  lemma StoreTied<T>(s: State<T>, h: History<T>, t: nat)
    requires Inv(s) && Tied(s, h) && CanStep(s, t) && s.threads[t].PutStore?
    ensures Tied(StepThread(s, t), Remember(s, h, Step(t)))
  {
    assert ThreadTied(s, h, t);
    StoreStores(s, t, s.threads[t].x);
    OneMovesTied(s, h, StepThread(s, t), Remember(s, h, Step(t)), t);
  }

  lemma TakeTied<T>(s: State<T>, h: History<T>, t: nat)
    requires Inv(s) && Tied(s, h) && CanStep(s, t) && s.threads[t].GetTake?
    ensures Tied(StepThread(s, t), Remember(s, h, Step(t)))
  {
    assert ThreadTied(s, h, t) && Fits(s, t);
    TakeStores(s, t);
    OneMovesTied(s, h, StepThread(s, t), Remember(s, h, Step(t)), t);
  }

  lemma SignalTied<T>(s: State<T>, h: History<T>, t: nat)
    requires Inv(s) && Tied(s, h) && CanStep(s, t) && s.threads[t].PutSignal?
    ensures Tied(StepThread(s, t), h)
  {
    assert ThreadTied(s, h, t);
    OneMovesTied(s, h, StepThread(s, t), h, t);
  }

  lemma OtherStepTied<T>(s: State<T>, h: History<T>, t: nat)
    requires Tied(s, h) && CanStep(s, t)
    requires !s.threads[t].PutStore? && !s.threads[t].GetTake? && !s.threads[t].PutSignal?
    ensures Tied(StepThread(s, t), h)
  {
    assert ThreadTied(s, h, t);
    OneMovesTied(s, h, StepThread(s, t), h, t);
  }

  lemma ActionTied<T>(s: State<T>, h: History<T>, a: Action<T>)
    requires Inv(s) && Tied(s, h) && Legal(s, a)
    ensures Tied(Do(s, a), Remember(s, h, a))
  {
    if a.Step? {
      var t := a.t;
      if s.threads[t].PutStore? {
        StoreTied(s, h, t);
      } else if s.threads[t].GetTake? {
        TakeTied(s, h, t);
      } else if s.threads[t].PutSignal? {
        SignalTied(s, h, t);
      } else {
        OtherStepTied(s, h, t);
      }
    } else {
      OneMovesTied(s, h, Do(s, a), Remember(s, h, a), a.t);
    }
  }

  lemma {:induction false} RunTied<T>(limit: nat, threads: nat, acts: seq<Action<T>>)
    ensures Tied(Run(Fresh(limit, threads), acts), Calls(Fresh(limit, threads), acts))
  {
    var s0 := Fresh<T>(limit, threads);
    if acts == [] {
      assert forall u | 0 <= u < threads :: ThreadTied(s0, NoCalls<T>(threads), u);
    } else {
      var before, a := acts[..|acts| - 1], acts[|acts| - 1];
      RunTied(limit, threads, before);
      RunKeeps(limit, threads, before);
      if Legal(Run(s0, before), a) { ActionTied(Run(s0, before), Calls(s0, before), a); }
    }
  }

  /**
   * Over every run the queue holds and has delivered the values of the puts that found room, in the order in
   * which they stored them. A put reports a full queue exactly if it found no room, and a get returns the value
   * whose turn it was when the get took one.
   */
  lemma CallersAgree<T>(limit: nat, threads: nat, acts: seq<Action<T>>, t: nat)
    requires t < threads
    ensures t < |Run(Fresh<T>(limit, threads), acts).threads| == |Calls(Fresh<T>(limit, threads), acts).threads|
    ensures var s, h := Run(Fresh<T>(limit, threads), acts), Calls(Fresh<T>(limit, threads), acts);
      && s.accepted == h.stored && h.taken == |s.delivered| <= |h.stored| && s.delivered == h.stored[..h.taken]
      && (s.threads[t].PutLeave? ==> (s.threads[t].full <==> !h.threads[t].room))
      && (s.threads[t].GetLeave? ==>
            h.threads[t].took < |h.stored| && s.threads[t].got == Some(h.stored[h.threads[t].took]))
  {
    SlotsStay<T>(limit, threads, acts);
    RunTied<T>(limit, threads, acts);
    RunKeeps<T>(limit, threads, acts);
    assert ThreadTied(Run(Fresh<T>(limit, threads), acts), Calls(Fresh<T>(limit, threads), acts), t);
  }
}
