/**
 * The shared-memory queue end to end: what a puller sees is what a pusher wrote and the length it passed to
 * shm_queue_push_end, told from the calls of a run.
 */
module ShmHistory {
  import opened Common
  import opened ShmQueues

  /**
   * What the calls of one user say: the data of its last write since it began to push, the length it ended its
   * last push with, and how many slots had been taken when it took its last one.
   */
  datatype Memory<T> = Memory(wrote: Option<T>, len: int, took: nat)

  /** A push as its caller made it; data is None if the caller wrote nothing. */
  datatype Entry<T> = Entry(len: int, data: Option<T>)

  /** The calls so far: what each user did last, the pushes in the order their slots were added, the takings. */
  datatype History<T> = History(users: seq<Memory<T>>, added: seq<Entry<T>>, taken: nat)

  function NoCalls<T>(users: nat): History<T> {
    History(seq(users, _ => Memory(None, 0, 0)), [], 0)
  }

  function Change<T>(h: History<T>, t: nat, m: Memory<T>): History<T>
    requires t < |h.users|
  {
    h.(users := h.users[t := m])
  }

  function Remember<T>(s: State<T>, h: History<T>, a: Action<T>): History<T>
    requires Legal(s, a) && |h.users| == |s.users|
  {
    match a
    case Push(t) => Change(h, t, h.users[t].(wrote := None))
    case Write(t, d) => Change(h, t, h.users[t].(wrote := Some(d)))
    case PushEnd(t, len) => Change(h, t, h.users[t].(len := len))
    case Step(t) =>
      if s.users[t].PushEndAdd? then h.(added := h.added + [Entry(h.users[t].len, h.users[t].wrote)])
      else if s.users[t].PullTake? then Change(h, t, h.users[t].(took := h.taken)).(taken := h.taken + 1)
      else h
    case _ => h
  }

  lemma DoUsersStay<T>(s: State<T>, a: Action<T>)
    requires Legal(s, a)
    ensures |Do(s, a).users| == |s.users| && Do(s, a).msgSize == s.msgSize
  {
  }

  /** The calls of a run; actions that are not legal when their turn comes are no calls. */
  function Calls<T>(s0: State<T>, acts: seq<Action<T>>): (h: History<T>)
    ensures |h.users| == |Run(s0, acts).users|
  {
    if acts == [] then NoCalls(|s0.users|)
    else
      var s, h, a := Run(s0, acts[..|acts| - 1]), Calls(s0, acts[..|acts| - 1]), acts[|acts| - 1];
      if Legal(s, a) then DoUsersStay(s, a); Remember(s, h, a) else h
  }

  // ---- What every action keeps ----

  predicate Matches<T(==)>(x: Slot<T>, e: Entry<T>) {
    x.len == e.len && (e.data.Some? ==> x.data == e.data.value)
  }

  predicate HasData<T(==)>(s: State<T>, i: nat, w: Option<T>) {
    w.Some? ==> i < |s.slots| && s.slots[i].data == w.value
  }

  predicate Took<T(==)>(s: State<T>, k: nat, x: Slot<T>) {
    k < |s.consumed| <= |s.published| && s.published[k] == x
  }

  /** Where a user stands fits what its calls said. */
  predicate UserTied<T(==)>(s: State<T>, h: History<T>, t: nat)
    requires t < |s.users| == |h.users|
  {
    var m := h.users[t];
    match s.users[t]
    case PushLst => m.wrote == None
    case PushTake => m.wrote == None
    case PushPost(_) => m.wrote == None
    case PushInit(_) => m.wrote == None
    case Pushing(i) => HasData(s, i, m.wrote) && i < |s.slots| && s.slots[i].len == s.msgSize
    case PushEndLst(i, len) => len == m.len && HasData(s, i, m.wrote)
    case PushEndAdd(i, len) => len == m.len && HasData(s, i, m.wrote)
    case PullPost(_, x) => Took(s, m.took, x)
    case PullRead(_, x) => Took(s, m.took, x)
    case Pulling(_, x, len) => Took(s, m.took, x) && len == x.len
    case PullEndLst(_, x) => Took(s, m.took, x)
    case PullEndAdd(_, x) => Took(s, m.took, x)
    case _ => true
  }

  predicate AddedTied<T(==)>(published: seq<Slot<T>>, added: seq<Entry<T>>) {
    |added| == |published| && forall k | 0 <= k < |added| :: Matches(published[k], added[k])
  }

  ghost predicate Tied<T>(s: State<T>, h: History<T>) {
    && |h.users| == |s.users| && h.taken == |s.consumed| && AddedTied(s.published, h.added)
    && forall t {:trigger UserTied(s, h, t)} | 0 <= t < |s.users| :: UserTied(s, h, t)
  }

  /** s' is s after user t moved, with its calls; the others' slots, and what was taken, stay. */
  ghost predicate OneMoves<T>(s: State<T>, h: History<T>, s': State<T>, h': History<T>, t: nat) {
    && t < |s.users| == |s'.users| == |h.users| == |h'.users|
    && s'.users == s.users[t := s'.users[t]] && h'.users == h.users[t := h'.users[t]]
    && |s.consumed| <= |s'.consumed| <= |s'.published| && s.published <= s'.published
    && |s'.slots| == |s.slots| && s'.msgSize == s.msgSize
    && forall i | 0 <= i < |s.slots| && Held(s.users[t]) != Some(i) :: s'.slots[i] == s.slots[i]
  }

  lemma OneMovesTied<T>(s: State<T>, h: History<T>, s': State<T>, h': History<T>, t: nat)
    requires Inv(s) && Tied(s, h) && OneMoves(s, h, s', h', t)
    requires UserTied(s', h', t) && h'.taken == |s'.consumed| && AddedTied(s'.published, h'.added)
    ensures Tied(s', h')
  {
    forall u | 0 <= u < |s'.users| ensures UserTied(s', h', u) {
      if u != t {
        assert UserTied(s, h, u) && HoldsAlone(s, u);
      }
    }
  }

  lemma CallTied<T>(s: State<T>, h: History<T>, a: Action<T>)
    requires Inv(s) && Tied(s, h) && Legal(s, a) && !a.Step? && !a.Write?
    ensures Tied(Do(s, a), Remember(s, h, a))
  {
    assert UserTied(s, h, a.t);
    OneMovesTied(s, h, Do(s, a), Remember(s, h, a), a.t);
  }

  lemma WriteTied<T>(s: State<T>, h: History<T>, t: nat, d: T)
    requires Inv(s) && Tied(s, h) && Legal(s, Write(t, d))
    ensures Tied(Do(s, Write(t, d)), Remember(s, h, Write(t, d)))
  {
    assert UserTied(s, h, t) && HoldsAlone(s, t);
    OneMovesTied(s, h, Do(s, Write(t, d)), Remember(s, h, Write(t, d)), t);
  }

  lemma AddTied<T>(s: State<T>, h: History<T>, t: nat)
    requires Inv(s) && Tied(s, h) && CanStep(s, t) && s.users[t].PushEndAdd?
    ensures Tied(StepUser(s, t), Remember(s, h, Step(t)))
  {
    assert UserTied(s, h, t) && HoldsAlone(s, t);
    OneMovesTied(s, h, StepUser(s, t), Remember(s, h, Step(t)), t);
  }

  lemma TakeTied<T>(s: State<T>, h: History<T>, t: nat)
    requires Inv(s) && Tied(s, h) && CanStep(s, t) && s.users[t].PullTake?
    ensures Tied(StepUser(s, t), Remember(s, h, Step(t)))
  {
    assert UserTied(s, h, t);
    TakeUsedKeeps(s, t);
    OneMovesTied(s, h, StepUser(s, t), Remember(s, h, Step(t)), t);
  }

  lemma PullStepTied<T>(s: State<T>, h: History<T>, t: nat)
    requires Inv(s) && Tied(s, h) && CanStep(s, t) && IsPull(s.users[t]) && !s.users[t].PullTake?
    ensures Tied(StepUser(s, t), h)
  {
    assert UserTied(s, h, t) && Intact(s, t);
    OneMovesTied(s, h, StepUser(s, t), h, t);
  }

  lemma PushStepTied<T>(s: State<T>, h: History<T>, t: nat)
    requires Inv(s) && Tied(s, h) && CanStep(s, t) && !IsPull(s.users[t]) && !s.users[t].PushEndAdd?
    ensures Tied(StepUser(s, t), h)
  {
    assert UserTied(s, h, t) && HoldsAlone(s, t);
    OneMovesTied(s, h, StepUser(s, t), h, t);
  }

  lemma ActionTied<T>(s: State<T>, h: History<T>, a: Action<T>)
    requires Inv(s) && Tied(s, h) && Legal(s, a)
    ensures Tied(Do(s, a), Remember(s, h, a))
  {
    match a
    case Write(t, d) => WriteTied(s, h, t, d);
    case Step(t) =>
      if s.users[t].PushEndAdd? {
        AddTied(s, h, t);
      } else if s.users[t].PullTake? {
        TakeTied(s, h, t);
      } else if IsPull(s.users[t]) {
        PullStepTied(s, h, t);
      } else {
        PushStepTied(s, h, t);
      }
    case _ => CallTied(s, h, a);
  }

  lemma {:induction false} RunTied<T>(s0: State<T>, acts: seq<Action<T>>)
    requires Inv(s0) && Tied(s0, NoCalls(|s0.users|))
    ensures Tied(Run(s0, acts), Calls(s0, acts)) && Run(s0, acts).msgSize == s0.msgSize
  {
    if acts == [] {
    } else {
      var before, a := acts[..|acts| - 1], acts[|acts| - 1];
      RunTied(s0, before);
      RunKeeps(s0, before);
      if Legal(Run(s0, before), a) {
        ActionTied(Run(s0, before), Calls(s0, before), a);
        DoUsersStay(Run(s0, before), a);
      }
    }
  }

  lemma ReachedTied<T>(limit: nat, users: nat, msgSize: int, blank: Slot<T>, acts: seq<Action<T>>)
    ensures var s0 := Fresh(limit, users, msgSize, blank);
      Inv(Run(s0, acts)) && Tied(Run(s0, acts), Calls(s0, acts)) && Run(s0, acts).msgSize == msgSize
  {
    var s0 := Fresh(limit, users, msgSize, blank);
    FreshHolds(limit, users, msgSize, blank);
    assert forall u | 0 <= u < users :: UserTied(s0, NoCalls<T>(users), u);
    RunTied(s0, acts);
    RunKeeps(s0, acts);
  }

  /** A pusher finds its slot with the full message size as its length. */
  lemma PushersSeeMessageSize<T>(limit: nat, users: nat, msgSize: int, blank: Slot<T>, acts: seq<Action<T>>, t: nat)
    requires t < |Run(Fresh(limit, users, msgSize, blank), acts).users|
    requires Run(Fresh(limit, users, msgSize, blank), acts).users[t].Pushing?
    ensures var s := Run(Fresh(limit, users, msgSize, blank), acts);
      s.users[t].idx < |s.slots| && s.slots[s.users[t].idx].len == msgSize
  {
    var s0 := Fresh(limit, users, msgSize, blank);
    ReachedTied(limit, users, msgSize, blank, acts);
    assert UserTied(Run(s0, acts), Calls(s0, acts), t);
  }

  /**
   * Over every run the slots come into the used list with the length that push_end was given and the data that
   * was written last, in the order in which they were added. The slots are taken in that order, and a puller
   * that reads sees the length and the data of the push whose turn it got.
   */
  lemma PullersSeeWhatWasPushed<T>(limit: nat, users: nat, msgSize: int, blank: Slot<T>, acts: seq<Action<T>>, t: nat)
    requires t < |Run(Fresh(limit, users, msgSize, blank), acts).users|
    ensures var s0 := Fresh(limit, users, msgSize, blank); var s, h := Run(s0, acts), Calls(s0, acts);
      && |s.published| == |h.added| && h.taken == |s.consumed|
      && (forall k | 0 <= k < |h.added| :: Matches(s.published[k], h.added[k]))
      && (s.users[t].Pulling? ==>
            var k, i := h.users[t].took, s.users[t].idx;
            && k < |h.added| && i < |s.slots| && s.users[t].len == h.added[k].len == s.slots[i].len
            && (h.added[k].data.Some? ==> s.slots[i].data == h.added[k].data.value))
  {
    var s0 := Fresh(limit, users, msgSize, blank);
    ReachedTied(limit, users, msgSize, blank, acts);
    var s, h := Run(s0, acts), Calls(s0, acts);
    assert UserTied(s, h, t) && Intact(s, t);
    if s.users[t].Pulling? { assert Matches(s.published[h.users[t].took], h.added[h.users[t].took]); }
  }

  // ---- The order in which slots are used again ----

  /** The slots that pushers got, in order. */
  function HandedOut<T>(s0: State<T>, acts: seq<Action<T>>): seq<nat> {
    if acts == [] then []
    else
      var s, a := Run(s0, acts[..|acts| - 1]), acts[|acts| - 1];
      HandedOut(s0, acts[..|acts| - 1]) + if Legal(s, a) then HandedBy(s, a) else []
  }

  function HandedBy<T>(s: State<T>, a: Action<T>): seq<nat>
    requires Legal(s, a)
  {
    DoUsersStay(s, a);
    if a.Step? && s.users[a.t].PushTake? && Do(s, a).users[a.t].PushPost? then [Do(s, a).users[a.t].idx] else []
  }

  /** The slots that pullers gave back, in order. */
  function GivenBack<T>(s0: State<T>, acts: seq<Action<T>>): seq<nat> {
    if acts == [] then []
    else
      var s, a := Run(s0, acts[..|acts| - 1]), acts[|acts| - 1];
      GivenBack(s0, acts[..|acts| - 1]) + if Legal(s, a) then GivenBy(s, a) else []
  }

  function GivenBy<T>(s: State<T>, a: Action<T>): seq<nat>
    requires Legal(s, a)
  {
    if a.Step? && s.users[a.t].PullEndAdd? then [s.users[a.t].idx] else []
  }

  lemma ActionFrees<T>(s: State<T>, a: Action<T>)
    requires Legal(s, a)
    ensures s.free + GivenBy(s, a) == HandedBy(s, a) + Do(s, a).free
  {
    if a.Step? && s.users[a.t].PushTake? {
      TakeFrees(s, a.t);
    } else if a.Step? && s.users[a.t].PullEndAdd? {
    } else {
      OthersLeaveFree(s, a);
      assert s.free + [] == [] + s.free;
    }
  }

  lemma TakeFrees<T>(s: State<T>, t: nat)
    requires Legal(s, Step(t)) && s.users[t].PushTake?
    ensures s.free == HandedBy(s, Step(t)) + Do(s, Step(t)).free && GivenBy(s, Step(t)) == []
  {
  }

  lemma OthersLeaveFree<T>(s: State<T>, a: Action<T>)
    requires Legal(s, a) && !(a.Step? && (s.users[a.t].PushTake? || s.users[a.t].PullEndAdd?))
    ensures Do(s, a).free == s.free
  {
  }

  lemma {:induction false} RunFrees<T>(s0: State<T>, acts: seq<Action<T>>)
    ensures s0.free + GivenBack(s0, acts) == HandedOut(s0, acts) + Run(s0, acts).free
  {
    if acts == [] {
      assert s0.free + [] == [] + s0.free;
    } else {
      var before, a := acts[..|acts| - 1], acts[|acts| - 1];
      RunFrees(s0, before);
      var s, g, h := Run(s0, before), GivenBack(s0, before), HandedOut(s0, before);
      if Legal(s, a) {
        ActionFrees(s, a);
        Regroup(s0.free, g, GivenBy(s, a), h, s.free, HandedBy(s, a), Do(s, a).free);
      } else {
        assert g + [] == g && h + [] == h;
      }
    }
  }

  lemma Regroup(x: seq<nat>, g: seq<nat>, g': seq<nat>, h: seq<nat>, f: seq<nat>, h': seq<nat>, f': seq<nat>)
    requires x + g == h + f && f + g' == h' + f'
    ensures x + (g + g') == (h + h') + f'
  {
    assert x + (g + g') == (x + g) + g';
    assert (h + f) + g' == h + (f + g');
  }

  /**
   * Over every run, all slots in order and then those given back, in order, are those handed out to pushers, in
   * order, and then the free ones.
   */
  lemma SlotsInTurn<T>(limit: nat, users: nat, msgSize: int, blank: Slot<T>, acts: seq<Action<T>>)
    ensures var s0 := Fresh(limit, users, msgSize, blank);
      seq(limit, i => i) + GivenBack(s0, acts) == HandedOut(s0, acts) + Run(s0, acts).free
  {
    RunFrees(Fresh(limit, users, msgSize, blank), acts);
  }

  /** A call returns -1 if it is a pull whose time ran out or a push that found no free slot, and 0 otherwise. */
  lemma CallReports<T>(limit: nat, users: nat, msgSize: int, blank: Slot<T>, acts: seq<Action<T>>, a: Action<T>)
    requires Legal(Run(Fresh(limit, users, msgSize, blank), acts), a)
    requires Do(Run(Fresh(limit, users, msgSize, blank), acts), a).users[a.t].Idle?
    ensures var s := Run(Fresh(limit, users, msgSize, blank), acts);
      Do(s, a).users[a.t].ret == if a.TimeOut? || s.users[a.t].PushFull? then -1 else 0
  {
    FreshHolds(limit, users, msgSize, blank);
    RunKeeps(Fresh(limit, users, msgSize, blank), acts);
    assert Intact(Run(Fresh(limit, users, msgSize, blank), acts), a.t);
  }
}
