/**
 * The blocking queue of src/qc_rt/qc_utils.c as steps of its threads. A getter holds threads_mutex across
 * one untested wait on the condition; the condition wakes only by a signal.
 */
module BlockQueues {
  import opened Common

  /** Where a thread stands; the comments name the locks it holds there. */
  datatype Pc<T> =
    | Idle
    | PutEnter(x: T)              // wants cond_lock
    | PutStore(x: T)              // cond_lock
    | PutSignal                   // cond_lock, an item stored
    | PutLeave(full: bool)        // cond_lock
    | GetEnter                    // wants threads_mutex
    | GetLock                     // threads_mutex, wants cond_lock
    | GetTest                     // threads_mutex, cond_lock
    | GetWait                     // threads_mutex, asleep on the condition
    | GetWoken                    // threads_mutex, wants cond_lock back
    | GetPass                     // threads_mutex, cond_lock
    | GetTake                     // cond_lock
    | GetLeave(got: Option<T>)    // cond_lock

  datatype State<T> = State(
    free: seq<nat>, used: seq<nat>, slots: seq<Option<T>>,
    mutex: Option<nat>, lock: Option<nat>, threads: seq<Pc<T>>,
    accepted: seq<T>, delivered: seq<T>, misses: nat)

  datatype Action<T> = Put(t: nat, x: T) | Get(t: nat) | Step(t: nat)

  predicate HoldsMutex(p: Pc) {
    p.GetLock? || p.GetTest? || p.GetWait? || p.GetWoken? || p.GetPass?
  }

  predicate HoldsLock(p: Pc) {
    p.PutStore? || p.PutSignal? || p.PutLeave? || p.GetTest? || p.GetPass? || p.GetTake? || p.GetLeave?
  }

  function Fresh<T>(limit: nat, threads: nat): State<T> {
    State(seq(limit, i => i), [], seq(limit, _ => None), None, None, seq(threads, _ => Idle), [], [], 0)
  }

  function At<T>(s: State<T>, t: nat, p: Pc<T>): State<T>
    requires t < |s.threads|
  {
    s.(threads := s.threads[t := p])
  }

  /** The queued values, oldest first. */
  function Contents<T>(s: State<T>): seq<Option<T>> {
    seq(|s.used|, i requires 0 <= i < |s.used| => Slot(s.slots, s.used[i]))
  }

  function Slot<T>(slots: seq<Option<T>>, i: nat): Option<T> {
    if i < |slots| then slots[i] else None
  }

  /** get_head on the free list, the write, add_tail on the used list. */
  function Store<T>(s: State<T>, t: nat, x: T): State<T>
    requires t < |s.threads|
  {
    if s.free == [] then At(s, t, PutLeave(true))
    else
      var i := s.free[0];
      At(s.(free := s.free[1..], used := s.used + [i],
            slots := if i < |s.slots| then s.slots[i := Some(x)] else s.slots,
            accepted := s.accepted + [x]), t, PutSignal)
  }

  /** get_head on the used list, the read, add_tail on the free list; an empty list is a miss. */
  function Take<T>(s: State<T>, t: nat): State<T>
    requires t < |s.threads|
  {
    if s.used == [] then At(s.(misses := s.misses + 1), t, GetLeave(None))
    else
      var got := Slot(s.slots, s.used[0]);
      At(s.(free := s.free + [s.used[0]], used := s.used[1..],
            delivered := if got.Some? then s.delivered + [got.value] else s.delivered), t, GetLeave(got))
  }

  predicate Asleep<T>(s: State<T>, w: nat) {
    w < |s.threads| && s.threads[w].GetWait?
  }

  /** A signal wakes some sleeper if there is one. */
  ghost function Signal<T>(s: State<T>): State<T> {
    if w: nat :| Asleep(s, w) then At(s, w, GetWoken) else s
  }

  predicate CanStep<T>(s: State<T>, t: nat) {
    && t < |s.threads|
    && match s.threads[t]
       case Idle => false
       case PutEnter(_) => s.lock.None?
       case GetEnter => s.mutex.None?
       case GetLock => s.lock.None?
       case GetWait => false
       case GetWoken => s.lock.None?
       case _ => true
  }

  ghost function StepThread<T>(s: State<T>, t: nat): State<T>
    requires CanStep(s, t)
  {
    match s.threads[t]
    case PutEnter(x) => At(s.(lock := Some(t)), t, PutStore(x))
    case PutStore(x) => Store(s, t, x)
    case PutSignal => At(Signal(s), t, PutLeave(false))
    case PutLeave(_) => At(s.(lock := None), t, Idle)
    case GetEnter => At(s.(mutex := Some(t)), t, GetLock)
    case GetLock => At(s.(lock := Some(t)), t, GetTest)
    case GetTest => if s.used == [] then At(s.(lock := None), t, GetWait) else At(s, t, GetPass)
    case GetWoken => At(s.(lock := Some(t)), t, GetPass)
    case GetPass => At(s.(mutex := None), t, GetTake)
    case GetTake => Take(s, t)
    case GetLeave(_) => At(s.(lock := None), t, Idle)
    case _ => s
  }

  predicate Legal<T>(s: State<T>, a: Action<T>) {
    match a
    case Put(t, _) => t < |s.threads| && s.threads[t].Idle?
    case Get(t) => t < |s.threads| && s.threads[t].Idle?
    case Step(t) => CanStep(s, t)
  }

  ghost function Do<T>(s: State<T>, a: Action<T>): State<T>
    requires Legal(s, a)
  {
    match a
    case Put(t, x) => At(s, t, PutEnter(x))
    case Get(t) => At(s, t, GetEnter)
    case Step(t) => StepThread(s, t)
  }

  /** Where a run ends; actions that are not legal when their turn comes are skipped. */
  ghost function Run<T>(s: State<T>, acts: seq<Action<T>>): State<T> {
    if acts == [] then s
    else
      var s' := Run(s, acts[..|acts| - 1]);
      var a := acts[|acts| - 1];
      if Legal(s', a) then Do(s', a) else s'
  }

  // ---- What every step keeps ----

  /** Each lock is held by exactly the thread the state names. */
  ghost predicate Locks<T>(s: State<T>) {
    && (s.mutex.Some? ==> s.mutex.value < |s.threads|) && (s.lock.Some? ==> s.lock.value < |s.threads|)
    && forall t {:trigger Owns(s, t)} | 0 <= t < |s.threads| :: Owns(s, t)
  }

  predicate Owns<T>(s: State<T>, t: nat)
    requires t < |s.threads|
  {
    && (HoldsMutex(s.threads[t]) <==> s.mutex == Some(t))
    && (HoldsLock(s.threads[t]) <==> s.lock == Some(t))
  }

  /** Every slot is on exactly one of the two lists. */
  ghost predicate Split(free: seq<nat>, used: seq<nat>, limit: nat) {
    && |free| + |used| == limit && Distinct<nat>(free) && Distinct<nat>(used)
    && (forall i | 0 <= i < |free| :: free[i] < limit && free[i] !in used)
    && (forall i | 0 <= i < |used| :: used[i] < limit)
  }

  /** Everything accepted was delivered in that order, or waits in the used slots in that order. */
  ghost predicate Fifo<T>(s: State<T>) {
    && |s.accepted| == |s.delivered| + |s.used| && s.delivered <= s.accepted
    && forall i | 0 <= i < |s.used| :: Slot(s.slots, s.used[i]) == Some(s.accepted[|s.delivered| + i])
  }

  /** What a thread's position says about the used list and the other threads. */
  ghost predicate Fits<T>(s: State<T>, t: nat)
    requires t < |s.threads|
  {
    match s.threads[t]
    case PutSignal => s.used != []
    case GetWoken => s.used != []
    case GetPass => s.used != []
    case GetTake => s.used != [] && NobodyTested(s)
    case GetLeave(got) => got.Some? && NobodyTested(s)
    case GetWait => s.used == [] || SignalComing(s)
    case _ => true
  }

  ghost predicate NobodyTested<T>(s: State<T>) {
    forall t | 0 <= t < |s.threads| && HoldsMutex(s.threads[t]) :: s.threads[t].GetLock?
  }

  predicate SignalComing<T>(s: State<T>) {
    exists t | 0 <= t < |s.threads| :: s.threads[t].PutSignal?
  }

  ghost predicate Fit<T>(s: State<T>) {
    forall t {:trigger Fits(s, t)} | 0 <= t < |s.threads| :: Fits(s, t)
  }

  ghost predicate Stored<T>(s: State<T>) {
    Split(s.free, s.used, |s.slots|) && Fifo(s) && s.misses == 0
  }

  ghost predicate Inv<T>(s: State<T>) {
    Locks(s) && Fit(s) && Stored(s)
  }

  predicate Taking<T>(s: State<T>, t: nat) {
    t < |s.threads| && (s.threads[t].GetTake? || s.threads[t].GetLeave?)
  }

  lemma NobodyTaking<T>(s: State<T>)
    requires Locks(s)
    requires s.lock.Some? ==> !Taking(s, s.lock.value)
    ensures forall u :: !Taking(s, u)
  {
    forall u: nat ensures !Taking(s, u) {
      if u < |s.threads| { assert Owns(s, u); }
    }
  }

  /** A lock after t moved on: as it was, or taken from nobody, or given up. */
  predicate Handed(was: Option<nat>, now: Option<nat>, t: nat) {
    now == was || ((was == None || was == Some(t)) && (now == None || now == Some(t)))
  }

  /** Thread t moves to p and takes or gives up locks, the slots staying as they are. */
  lemma MoveKeeps<T>(s: State<T>, t: nat, p: Pc<T>, mutex: Option<nat>, lock: Option<nat>)
    requires Inv(s) && t < |s.threads|
    requires Handed(s.mutex, mutex, t) && (HoldsMutex(p) <==> mutex == Some(t))
    requires Handed(s.lock, lock, t) && (HoldsLock(p) <==> lock == Some(t))
    requires HoldsMutex(p) && !p.GetLock? ==> forall u :: !Taking(s, u)
    requires s.threads[t].PutSignal? ==> forall u :: !Asleep(s, u)
    requires var s' := At(s.(mutex := mutex, lock := lock), t, p); Fits(s', t)
    ensures Inv(At(s.(mutex := mutex, lock := lock), t, p))
  {
    var s' := At(s.(mutex := mutex, lock := lock), t, p);
    forall u | 0 <= u < |s.threads| ensures Owns(s', u) && Fits(s', u) {
      assert Owns(s, t) && Owns(s, u) && Fits(s, u);
      if u != t {
        assert s'.threads[u] == s.threads[u];
        if s.threads[u].GetWait? && SignalComing(s) {
          var v :| 0 <= v < |s.threads| && s.threads[v].PutSignal?;
          assert Asleep(s, u);
          assert s'.threads[v].PutSignal?;
        }
        if Taking(s, u) {
          assert NobodyTested(s');
        }
      }
    }
  }

  /** The mutex lets at most one thread sleep, so a signal has no choice, and it leaves nobody asleep. */
  lemma SignalKeeps<T>(s: State<T>, t: nat)
    requires Inv(s) && t < |s.threads| && s.threads[t].PutSignal?
    ensures Inv(Signal(s)) && Signal(s).threads[t].PutSignal?
    ensures forall w :: !Asleep(Signal(s), w)
    ensures forall w | Asleep(s, w) :: Signal(s) == At(s, w, GetWoken)
  {
    if w: nat :| Asleep(s, w) {
      OneSleeper(s);
      assert Owns(s, t) && Owns(s, w) && Fits(s, t);
      NobodyTaking(s);
      MoveKeeps(s, w, GetWoken, s.mutex, s.lock);
      assert Signal(s) == At(s, w, GetWoken);
      forall v: nat ensures !Asleep(Signal(s), v) {
        if v < |s.threads| && v != w { assert Asleep(s, v) ==> v == w; }
      }
    }
  }

  lemma OneSleeper<T>(s: State<T>)
    requires Locks(s)
    ensures forall v, w | Asleep(s, v) && Asleep(s, w) :: v == w
  {
    forall v, w | Asleep(s, v) && Asleep(s, w) ensures v == w {
      assert Owns(s, v) && Owns(s, w);
    }
  }

  lemma PassKeeps<T>(s: State<T>, t: nat)
    requires Inv(s) && t < |s.threads| && s.threads[t].GetPass?
    ensures Inv(At(s.(mutex := None), t, GetTake))
  {
    assert Owns(s, t) && Fits(s, t);
    var s' := At(s.(mutex := None), t, GetTake);
    forall u | 0 <= u < |s.threads| ensures !HoldsMutex(s'.threads[u]) {
      assert Owns(s, u);
    }
    MoveKeeps(s, t, GetTake, None, s.lock);
  }

  lemma StoreStores<T>(s: State<T>, t: nat, x: T)
    requires Stored(s) && t < |s.threads|
    ensures Stored(Store(s, t, x))
    ensures s.free == [] <==> |s.used| == |s.slots|
  {
    if s.free != [] {
      var s' := Store(s, t, x);
      forall i | 0 <= i < |s'.used| ensures Slot(s'.slots, s'.used[i]) == Some(s'.accepted[|s'.delivered| + i]) {
        if i < |s.used| { assert s.used[i] in s.used; }
      }
    }
  }

  lemma TakeStores<T>(s: State<T>, t: nat)
    requires Stored(s) && t < |s.threads| && s.used != []
    ensures Stored(Take(s, t)) && Take(s, t).threads[t] == GetLeave(Some(s.accepted[|s.delivered|]))
  {
    var s' := Take(s, t);
    assert Slot(s.slots, s.used[0]) == Some(s.accepted[|s.delivered| + 0]);
    forall i | 0 <= i < |s'.used| ensures Slot(s'.slots, s'.used[i]) == Some(s'.accepted[|s'.delivered| + i]) {
      assert s'.used[i] == s.used[i + 1];
    }
  }

  /** A put changes what the others rely on only for the better. */
  lemma StoreFits<T>(s: State<T>, t: nat, x: T)
    requires Locks(s) && Fit(s) && t < |s.threads| && s.threads[t] == PutStore(x)
    ensures Locks(Store(s, t, x)) && Fit(Store(s, t, x))
  {
    var s' := Store(s, t, x);
    assert Owns(s, t);
    NobodyTaking(s);
    assert s.free != [] ==> s'.threads[t].PutSignal?;
    forall u | 0 <= u < |s.threads| ensures Owns(s', u) && Fits(s', u) {
      assert Owns(s, u) && Fits(s, u) && !Taking(s, u);
      if u != t {
        assert s'.threads[u] == s.threads[u];
        if s.threads[u].GetWait? && SignalComing(s) {
          var v :| 0 <= v < |s.threads| && s.threads[v].PutSignal?;
          assert Owns(s, v);
        }
      }
    }
  }

  /** A getter that takes has passed the test alone: nobody else counts on the item. */
  lemma TakeFits<T>(s: State<T>, t: nat)
    requires Inv(s) && t < |s.threads| && s.threads[t].GetTake?
    ensures Locks(Take(s, t)) && Fit(Take(s, t))
  {
    var s' := Take(s, t);
    assert Owns(s, t) && Fits(s, t);
    TakeStores(s, t);
    forall u | 0 <= u < |s.threads| ensures Owns(s', u) && Fits(s', u) {
      assert Owns(s, u) && Fits(s, u);
      assert u != t ==> s'.threads[u] == s.threads[u];
      if HoldsMutex(s'.threads[u]) { assert s.threads[u].GetLock?; }
    }
    assert NobodyTested(s');
    assert Fits(s', t);
  }

  lemma StepKeeps<T>(s: State<T>, t: nat)
    requires Inv(s) && CanStep(s, t)
    ensures Inv(StepThread(s, t))
  {
    assert Owns(s, t) && Fits(s, t);
    match s.threads[t]
    case PutEnter(x) => MoveKeeps(s, t, PutStore(x), s.mutex, Some(t));
    case PutStore(x) =>
      StoreStores(s, t, x);
      StoreFits(s, t, x);
    case PutSignal =>
      SignalKeeps(s, t);
      assert Owns(Signal(s), t);
      MoveKeeps(Signal(s), t, PutLeave(false), Signal(s).mutex, Signal(s).lock);
    case PutLeave(_) => MoveKeeps(s, t, Idle, s.mutex, None);
    case GetEnter => MoveKeeps(s, t, GetLock, Some(t), s.lock);
    case GetLock =>
      NobodyTaking(s);
      MoveKeeps(s, t, GetTest, s.mutex, Some(t));
    case GetTest =>
      NobodyTaking(s);
      if s.used == [] {
        MoveKeeps(s, t, GetWait, s.mutex, None);
      } else {
        MoveKeeps(s, t, GetPass, s.mutex, s.lock);
      }
    case GetWoken =>
      NobodyTaking(s);
      MoveKeeps(s, t, GetPass, s.mutex, Some(t));
    case GetPass => PassKeeps(s, t);
    case GetTake =>
      TakeStores(s, t);
      TakeFits(s, t);
    case GetLeave(_) => MoveKeeps(s, t, Idle, s.mutex, None);
    case _ =>
  }

  lemma DoKeeps<T>(s: State<T>, a: Action<T>)
    requires Inv(s) && Legal(s, a)
    ensures Inv(Do(s, a))
  {
    match a
    case Put(t, x) =>
      assert Owns(s, t);
      MoveKeeps(s, t, PutEnter(x), s.mutex, s.lock);
    case Get(t) =>
      assert Owns(s, t);
      MoveKeeps(s, t, GetEnter, s.mutex, s.lock);
    case Step(t) => StepKeeps(s, t);
  }

  lemma {:induction false} RunKeeps<T>(limit: nat, threads: nat, acts: seq<Action<T>>)
    ensures Inv(Run(Fresh(limit, threads), acts))
  {
    if acts == [] {
      var s := Fresh<T>(limit, threads);
      assert forall t | 0 <= t < threads :: Owns(s, t) && Fits(s, t);
    } else {
      RunKeeps(limit, threads, acts[..|acts| - 1]);
      var s' := Run(Fresh(limit, threads), acts[..|acts| - 1]);
      var a := acts[|acts| - 1];
      if Legal(s', a) {
        DoKeeps(s', a);
      }
    }
  }

  // ---- What follows in every reachable state ----

  /** A bounded queue, first in first out: what was delivered and what is stored is what was accepted. */
  lemma BoundedFifo<T>(limit: nat, threads: nat, acts: seq<Action<T>>)
    ensures var s := Run(Fresh(limit, threads), acts);
      && |Contents(s)| <= limit && s.delivered <= s.accepted
      && Contents(s) == seq(|s.accepted| - |s.delivered|,
                            i requires 0 <= i < |s.accepted| - |s.delivered| => Some(s.accepted[|s.delivered| + i]))
  {
    RunKeeps(limit, threads, acts);
    SlotsStay(limit, threads, acts);
  }

  lemma {:induction false} SlotsStay<T>(limit: nat, threads: nat, acts: seq<Action<T>>)
    ensures |Run(Fresh(limit, threads), acts).slots| == limit
    ensures |Run(Fresh(limit, threads), acts).threads| == threads
  {
    if acts == [] {
    } else {
      SlotsStay(limit, threads, acts[..|acts| - 1]);
      var s', a := Run(Fresh(limit, threads), acts[..|acts| - 1]), acts[|acts| - 1];
      if Legal(s', a) { SizesStay(s', a); }
    }
  }

  lemma SizesStay<T>(s: State<T>, a: Action<T>)
    requires Legal(s, a)
    ensures |Do(s, a).slots| == |s.slots| && |Do(s, a).threads| == |s.threads|
  {
  }

  /** A getter that was woken, or that found the list nonempty, takes the oldest undelivered item. */
  lemma GetterFinds<T>(limit: nat, threads: nat, acts: seq<Action<T>>, t: nat)
    ensures var s := Run(Fresh(limit, threads), acts);
      && s.misses == 0
      && (t < |s.threads| && s.threads[t].GetLeave? ==> s.threads[t].got.Some?)
      && (t < |s.threads| && s.threads[t].GetTake? ==>
            && |s.delivered| < |s.accepted|
            && StepThread(s, t).threads[t] == GetLeave(Some(s.accepted[|s.delivered|]))
            && StepThread(s, t).delivered == s.accepted[..|s.delivered| + 1])
  {
    RunKeeps(limit, threads, acts);
    var s := Run(Fresh(limit, threads), acts);
    if t < |s.threads| {
      assert Fits(s, t);
      if s.threads[t].GetTake? {
        TakeStores(s, t);
      }
    }
  }

  /** A put is refused exactly when all limit slots are taken; otherwise its item goes to the back. */
  lemma PutRefusedWhenFull<T>(limit: nat, threads: nat, acts: seq<Action<T>>, t: nat, x: T)
    requires t < |Run(Fresh(limit, threads), acts).threads|
    requires Run(Fresh(limit, threads), acts).threads[t] == PutStore(x)
    ensures var s := Run(Fresh(limit, threads), acts); var s' := StepThread(s, t);
      if |Contents(s)| == limit then s' == At(s, t, PutLeave(true))
      else s'.threads[t] == PutSignal && Contents(s') == Contents(s) + [Some(x)]
  {
    RunKeeps(limit, threads, acts);
    SlotsStay(limit, threads, acts);
    var s := Run(Fresh(limit, threads), acts);
    StoreStores(s, t, x);
    if |s.used| < limit {
      var s' := StepThread(s, t);
      forall i | 0 <= i < |s'.used| ensures Contents(s')[i] == (Contents(s) + [Some(x)])[i] {
        if i < |s.used| { assert s.used[i] in s.used; }
      }
      assert Contents(s') == Contents(s) + [Some(x)];
    }
  }

  lemma SleeperMeansEmpty<T>(s: State<T>, t: nat)
    requires Inv(s) && s.lock == None && Asleep(s, t)
    ensures s.used == []
  {
    assert Fits(s, t);
    forall v | 0 <= v < |s.threads| ensures !s.threads[v].PutSignal? {
      assert Owns(s, v);
    }
  }

  /** With cond_lock free nobody sleeps beside a stored item. */
  lemma NobodySleepsBesideAnItem<T>(limit: nat, threads: nat, acts: seq<Action<T>>, t: nat)
    ensures var s := Run(Fresh(limit, threads), acts);
      s.lock == None && Asleep(s, t) ==> Contents(s) == []
  {
    RunKeeps(limit, threads, acts);
    var s := Run(Fresh(limit, threads), acts);
    if s.lock == None && Asleep(s, t) {
      SleeperMeansEmpty(s, t);
    }
  }

  /** Why the wait must not return unsignalled: such a getter finds the list empty and reports a miss. */
  lemma SpuriousWakeMisses<T>(limit: nat, threads: nat, acts: seq<Action<T>>, t: nat)
    requires var s := Run(Fresh(limit, threads), acts); s.lock == None && Asleep(s, t)
    ensures var woken := At(Run(Fresh(limit, threads), acts), t, GetWoken);
      && CanStep(woken, t) && CanStep(StepThread(woken, t), t)
      && var s' := StepThread(StepThread(woken, t), t);
      && s'.threads[t] == GetTake && StepThread(s', t).threads[t] == GetLeave(None)
      && StepThread(s', t).misses == 1
  {
    RunKeeps(limit, threads, acts);
    SleeperMeansEmpty(Run(Fresh(limit, threads), acts), t);
  }

  lemma LockHolderSteps<T>(s: State<T>)
    requires Locks(s)
    ensures s.lock.Some? ==> CanStep(s, s.lock.value)
  {
    if s.lock.Some? { assert Owns(s, s.lock.value); }
  }

  /** Nothing can move only when nobody is inside but getters, one asleep on an empty queue. */
  lemma StuckOnlyWhenEmpty<T>(limit: nat, threads: nat, acts: seq<Action<T>>)
    requires forall t :: !CanStep(Run(Fresh(limit, threads), acts), t)
    ensures var s := Run(Fresh(limit, threads), acts);
      forall t | 0 <= t < |s.threads| && !s.threads[t].Idle? ::
        && (s.threads[t].GetEnter? || s.threads[t].GetWait?)
        && Contents(s) == [] && s.mutex.Some? && Asleep(s, s.mutex.value)
  {
    RunKeeps(limit, threads, acts);
    var s := Run(Fresh(limit, threads), acts);
    LockHolderSteps(s);
    forall t | 0 <= t < |s.threads| && !s.threads[t].Idle?
      ensures (s.threads[t].GetEnter? || s.threads[t].GetWait?) && s.mutex.Some? && Asleep(s, s.mutex.value)
    {
      assert Owns(s, t) && !CanStep(s, t);
      if s.mutex.Some? {
        assert Owns(s, s.mutex.value) && !CanStep(s, s.mutex.value);
      }
    }
    if s.mutex.Some? && Asleep(s, s.mutex.value) {
      SleeperMeansEmpty(s, s.mutex.value);
    }
  }
}
