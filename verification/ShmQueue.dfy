/**
 * The shared-memory queue of src/qc_shq/qc_shq_que.c as steps of its users. A user is one hand-over in
 * progress (a push from begin to end, or a pull from begin to end); sem_lst guards the two slot lists and
 * sem_que counts what may be pulled.
 */
module ShmQueues {
  import opened Common

  /** What a slot of shared memory holds: the stored length, and the bytes after it. */
  datatype Slot<T> = Slot(len: int, data: T)

  /** Where a user stands; "in" marks the places inside sem_lst. */
  datatype Pc<T> =
    | Idle(ret: int)
    | PullWait(timed: bool)                        // wants sem_que
    | PullLst                                      // past sem_que, wants sem_lst
    | PullTake                                     // in
    | PullMiss                                     // in, the used list was empty
    | PullPost(idx: nat, item: Slot<T>)            // in
    | PullRead(idx: nat, item: Slot<T>)            // about to read the length
    | Pulling(idx: nat, item: Slot<T>, len: int)   // the caller reads the slot
    | PullEndLst(idx: nat, item: Slot<T>)          // wants sem_lst
    | PullEndAdd(idx: nat, item: Slot<T>)          // in
    | PullEndPost                                  // in
    | PushLst                                      // wants sem_lst
    | PushTake                                     // in
    | PushFull                                     // in, the free list was empty
    | PushPost(idx: nat)                           // in
    | PushInit(idx: nat)                           // about to preset the length
    | Pushing(idx: nat)                            // the caller writes the slot
    | PushEndLst(idx: nat, len: int)               // wants sem_lst
    | PushEndAdd(idx: nat, len: int)               // in
    | PushEndQue                                   // in, added and not yet posted
    | PushEndPost                                  // in

  /** published and consumed record the slots as they entered and left the used list. */
  datatype State<T> = State(
    free: seq<nat>, used: seq<nat>, slots: seq<Slot<T>>, que: nat, lst: nat, users: seq<Pc<T>>,
    msgSize: int, published: seq<Slot<T>>, consumed: seq<Slot<T>>)

  datatype Action<T> =
    | Push(t: nat)
    | Pull(t: nat, timed: bool)
    | Step(t: nat)
    | TimeOut(t: nat)
    | Write(t: nat, data: T)
    | PushEnd(t: nat, len: int)
    | PullEnd(t: nat)

  function Inside(p: Pc): nat {
    if p.PullTake? || p.PullMiss? || p.PullPost? || p.PullEndAdd? || p.PullEndPost? || p.PushTake? || p.PushFull?
       || p.PushPost? || p.PushEndAdd? || p.PushEndQue? || p.PushEndPost? then 1 else 0
  }

  /** Pullers that got past sem_que and have not taken a slot yet. */
  function Past(p: Pc): nat {
    if p.PullLst? || p.PullTake? then 1 else 0
  }

  /** Pushers whose slot is on the used list while sem_que does not count it yet. */
  function Owed(p: Pc): nat {
    if p.PushEndQue? then 1 else 0
  }

  /** The slot a user has in its hands. */
  function Held(p: Pc): Option<nat> {
    match p
    case PullPost(i, _) => Some(i)
    case PullRead(i, _) => Some(i)
    case Pulling(i, _, _) => Some(i)
    case PullEndLst(i, _) => Some(i)
    case PullEndAdd(i, _) => Some(i)
    case PushPost(i) => Some(i)
    case PushInit(i) => Some(i)
    case Pushing(i) => Some(i)
    case PushEndLst(i, _) => Some(i)
    case PushEndAdd(i, _) => Some(i)
    case _ => None
  }

  function Holding(p: Pc): nat {
    if Held(p).Some? then 1 else 0
  }

  function Fresh<T>(limit: nat, users: nat, msgSize: int, blank: Slot<T>): State<T> {
    State(seq(limit, i => i), [], seq(limit, _ => blank), 0, 1, seq(users, _ => Idle(0)), msgSize, [], [])
  }

  function At<T>(s: State<T>, t: nat, p: Pc<T>): State<T>
    requires t < |s.users|
  {
    s.(users := s.users[t := p])
  }

  function SlotAt<T>(s: State<T>, i: nat, x: Slot<T>): State<T> {
    if i < |s.slots| then s.(slots := s.slots[i := x]) else s
  }

  ghost predicate Read<T>(s: State<T>, i: nat, x: Slot<T>) {
    i < |s.slots| && s.slots[i] == x
  }

  /** shm_queue_pull_begin inside sem_lst: the head of the used list, or -1. */
  function TakeUsed<T>(s: State<T>, t: nat): State<T>
    requires t < |s.users|
  {
    if s.used == [] || s.used[0] >= |s.slots| then At(s, t, PullMiss)
    else
      var i := s.used[0];
      At(s.(used := s.used[1..], consumed := s.consumed + [s.slots[i]]), t, PullPost(i, s.slots[i]))
  }

  /** shm_queue_push_begin inside sem_lst: the head of the free list, or a full queue. */
  function TakeFree<T>(s: State<T>, t: nat): State<T>
    requires t < |s.users|
  {
    if s.free == [] then Walk(s, t, PushFull, s.que, s.lst)
    else At(s.(free := s.free[1..]), t, PushPost(s.free[0]))
  }

  /** shm_queue_push_end inside sem_lst, up to the posts: the slot becomes used and gets its length. */
  function AddUsed<T>(s: State<T>, t: nat, i: nat, len: int): State<T>
    requires t < |s.users|
  {
    if i < |s.slots| then
      var x := Slot(len, s.slots[i].data);
      At(SlotAt(s, i, x).(used := s.used + [i], published := s.published + [x]), t, PushEndQue)
    else s
  }

  /** The preset of the length in shm_queue_push_begin, after sem_lst was left. */
  function Preset<T>(s: State<T>, t: nat, i: nat): State<T>
    requires t < |s.users|
  {
    if i < |s.slots| then At(SlotAt(s, i, s.slots[i].(len := s.msgSize)), t, Pushing(i)) else s
  }

  predicate CanStep<T>(s: State<T>, t: nat) {
    && t < |s.users|
    && match s.users[t]
       case Idle(_) => false
       case Pulling(_, _, _) => false
       case Pushing(_) => false
       case PullWait(_) => s.que > 0
       case PullLst => s.lst > 0
       case PullEndLst(_, _) => s.lst > 0
       case PushLst => s.lst > 0
       case PushEndLst(_, _) => s.lst > 0
       case _ => true
  }

  /** The semaphore operations: user t moves to p and leaves the two counts at que and lst. */
  function Walk<T>(s: State<T>, t: nat, p: Pc<T>, que: nat, lst: nat): State<T>
    requires t < |s.users|
  {
    s.(que := que, lst := lst, users := s.users[t := p])
  }

  function Enter<T>(s: State<T>, t: nat, p: Pc<T>): State<T>
    requires t < |s.users| && s.lst > 0
  {
    Walk(s, t, p, s.que, s.lst - 1)
  }

  function Leave<T>(s: State<T>, t: nat, p: Pc<T>): State<T>
    requires t < |s.users|
  {
    Walk(s, t, p, s.que, s.lst + 1)
  }

  function StepUser<T>(s: State<T>, t: nat): State<T>
    requires CanStep(s, t)
  {
    match s.users[t]
    case PullWait(_) => Walk(s, t, PullLst, s.que - 1, s.lst)
    case PullLst => Enter(s, t, PullTake)
    case PullTake => TakeUsed(s, t)
    case PullMiss => Leave(s, t, Idle(-1))
    case PullPost(i, x) => Leave(s, t, PullRead(i, x))
    case PullRead(i, x) => Walk(s, t, Pulling(i, x, if i < |s.slots| then s.slots[i].len else 0), s.que, s.lst)
    case PullEndLst(i, x) => Enter(s, t, PullEndAdd(i, x))
    case PullEndAdd(i, _) => At(s.(free := s.free + [i]), t, PullEndPost)
    case PullEndPost => Leave(s, t, Idle(0))
    case PushLst => Enter(s, t, PushTake)
    case PushTake => TakeFree(s, t)
    case PushFull => Leave(s, t, Idle(-1))
    case PushPost(i) => Leave(s, t, PushInit(i))
    case PushInit(i) => Preset(s, t, i)
    case PushEndLst(i, len) => Enter(s, t, PushEndAdd(i, len))
    case PushEndAdd(i, len) => AddUsed(s, t, i, len)
    case PushEndQue => Walk(s, t, PushEndPost, s.que + 1, s.lst)
    case PushEndPost => Leave(s, t, Idle(0))
    case _ => s
  }

  predicate Legal<T>(s: State<T>, a: Action<T>) {
    match a
    case Push(t) => t < |s.users| && s.users[t].Idle?
    case Pull(t, _) => t < |s.users| && s.users[t].Idle?
    case Step(t) => CanStep(s, t)
    case TimeOut(t) => t < |s.users| && s.users[t].PullWait? && s.users[t].timed
    case Write(t, _) => t < |s.users| && s.users[t].Pushing?
    case PushEnd(t, _) => t < |s.users| && s.users[t].Pushing?
    case PullEnd(t) => t < |s.users| && s.users[t].Pulling?
  }

  function Do<T>(s: State<T>, a: Action<T>): State<T>
    requires Legal(s, a)
  {
    match a
    case Push(t) => Walk(s, t, PushLst, s.que, s.lst)
    case Pull(t, timed) => Walk(s, t, PullWait(timed), s.que, s.lst)
    case Step(t) => StepUser(s, t)
    case TimeOut(t) => Walk(s, t, Idle(-1), s.que, s.lst)
    case Write(t, d) =>
      var i := s.users[t].idx;
      if i < |s.slots| then SlotAt(s, i, s.slots[i].(data := d)) else s
    case PushEnd(t, len) => Walk(s, t, PushEndLst(s.users[t].idx, len), s.que, s.lst)
    case PullEnd(t) => Walk(s, t, PullEndLst(s.users[t].idx, s.users[t].item), s.que, s.lst)
  }

  /** Where a run ends; actions that are not legal when their turn comes are skipped. */
  function Run<T>(s: State<T>, acts: seq<Action<T>>): State<T> {
    if acts == [] then s
    else
      var s' := Run(s, acts[..|acts| - 1]);
      var a := acts[|acts| - 1];
      if Legal(s', a) then Do(s', a) else s'
  }

  // ---- What every step keeps ----

  /** sem_lst admits one user at a time; sem_que counts the used slots nobody has a claim on. */
  predicate Semaphores<T>(s: State<T>) {
    && s.lst + Total(Inside, s.users) == 1
    && |s.used| == s.que + Total(Past, s.users) + Total(Owed, s.users)
  }

  /** Free, used and held slots are all different, and together they are all slots. */
  ghost predicate Split<T>(s: State<T>) {
    && Distinct<nat>(s.free) && Distinct<nat>(s.used)
    && (forall i | 0 <= i < |s.free| :: s.free[i] < |s.slots| && s.free[i] !in s.used)
    && (forall i | 0 <= i < |s.used| :: s.used[i] < |s.slots|)
    && |s.free| + |s.used| + Total(Holding, s.users) == |s.slots|
  }

  predicate HoldsAlone<T>(s: State<T>, t: nat)
    requires t < |s.users|
  {
    Held(s.users[t]).Some? ==>
      var i := Held(s.users[t]).value;
      && i < |s.slots| && i !in s.free && i !in s.used
      && forall u | 0 <= u < |s.users| && u != t :: Held(s.users[u]) != Some(i)
  }

  ghost predicate Alone<T>(s: State<T>) {
    forall t {:trigger HoldsAlone(s, t)} | 0 <= t < |s.users| :: HoldsAlone(s, t)
  }

  /** The used slots hold what was published and not consumed, in order. */
  ghost predicate Fifo<T>(s: State<T>) {
    && |s.published| == |s.consumed| + |s.used| && s.consumed <= s.published
    && forall i | 0 <= i < |s.used| :: Read(s, s.used[i], s.published[|s.consumed| + i])
  }

  /** A puller's slot still holds what it held when the puller took it. */
  ghost predicate Intact<T>(s: State<T>, t: nat)
    requires t < |s.users|
  {
    match s.users[t]
    case PullPost(i, x) => Read(s, i, x)
    case PullRead(i, x) => Read(s, i, x)
    case Pulling(i, x, len) => Read(s, i, x) && len == x.len
    case PullEndLst(i, x) => Read(s, i, x)
    case PullEndAdd(i, x) => Read(s, i, x)
    case PullMiss => false
    case _ => true
  }

  ghost predicate AllIntact<T>(s: State<T>) {
    forall t {:trigger Intact(s, t)} | 0 <= t < |s.users| :: Intact(s, t)
  }

  ghost predicate Inv<T>(s: State<T>) {
    Semaphores(s) && Split(s) && Alone(s) && Fifo(s) && AllIntact(s)
  }

  lemma Counts<T>(s: State<T>, t: nat, p: Pc<T>)
    requires t < |s.users|
    ensures var us := s.users[t := p];
      && Total(Inside, us) + Inside(s.users[t]) == Total(Inside, s.users) + Inside(p)
      && Total(Past, us) + Past(s.users[t]) == Total(Past, s.users) + Past(p)
      && Total(Owed, us) + Owed(s.users[t]) == Total(Owed, s.users) + Owed(p)
      && Total(Holding, us) + Holding(s.users[t]) == Total(Holding, s.users) + Holding(p)
  {
    TotalUpdate(Inside, s.users, t, p);
    TotalUpdate(Past, s.users, t, p);
    TotalUpdate(Owed, s.users, t, p);
    TotalUpdate(Holding, s.users, t, p);
  }

  lemma FifoStays<T>(s: State<T>, s': State<T>)
    requires Fifo(s) && s'.published == s.published && s'.consumed == s.consumed && s'.used == s.used
    requires forall k | 0 <= k < |s.used| && s.used[k] < |s.slots| ::
               s.used[k] < |s'.slots| && s'.slots[s.used[k]] == s.slots[s.used[k]]
    ensures Fifo(s')
  {
    forall k | 0 <= k < |s'.used| ensures Read(s', s'.used[k], s'.published[|s'.consumed| + k]) {
      assert Read(s, s.used[k], s.published[|s.consumed| + k]);
    }
  }

  /** A step that leaves the slots, the lists and everybody's slot in hand alone. */
  lemma WalkKeeps<T>(s: State<T>, s': State<T>, t: nat, p: Pc<T>)
    requires Inv(s) && t < |s.users| && s' == Walk(s, t, p, s'.que, s'.lst)
    requires Held(p) == Held(s.users[t]) && Intact(At(s, t, p), t)
    requires s'.lst + Inside(p) == s.lst + Inside(s.users[t])
    requires s'.que + Past(p) + Owed(p) == s.que + Past(s.users[t]) + Owed(s.users[t])
    ensures Inv(s')
  {
    Counts(s, t, p);
    assert HoldsAlone(s, t);
    forall u | 0 <= u < |s.users| ensures HoldsAlone(s', u) && Intact(s', u) {
      assert HoldsAlone(s, u) && Intact(s, u);
    }
  }

  /** The semaphores together: whoever gets inside to pull finds a used slot. */
  lemma PullerFinds<T>(s: State<T>, t: nat)
    requires Inv(s) && t < |s.users| && Past(s.users[t]) == 1
    ensures s.used != []
  {
    TotalBounds(Past, s.users, t);
  }

  lemma NobodyHolds<T>(s: State<T>, i: nat)
    requires Alone(s) && (i in s.free || i in s.used)
    ensures forall u | 0 <= u < |s.users| :: Held(s.users[u]) != Some(i)
  {
    forall u | 0 <= u < |s.users| ensures Held(s.users[u]) != Some(i) {
      assert HoldsAlone(s, u);
    }
  }

  lemma TakeUsedFifo<T>(s: State<T>, t: nat)
    requires Fifo(s) && t < |s.users| && s.used != [] && s.used[0] < |s.slots|
    ensures Fifo(TakeUsed(s, t))
  {
    var s' := TakeUsed(s, t);
    assert Read(s, s.used[0], s.published[|s.consumed| + 0]);
    forall k | 0 <= k < |s'.used| ensures Read(s', s'.used[k], s'.published[|s'.consumed| + k]) {
      assert Read(s, s.used[k + 1], s.published[|s.consumed| + (k + 1)]);
    }
  }

  lemma TakeUsedKeeps<T>(s: State<T>, t: nat)
    requires Inv(s) && t < |s.users| && s.users[t].PullTake?
    ensures s.used != [] && s.used[0] < |s.slots|
    ensures Inv(TakeUsed(s, t)) && TakeUsed(s, t).users[t] == PullPost(s.used[0], s.published[|s.consumed|])
  {
    PullerFinds(s, t);
    var i := s.used[0];
    var p := PullPost(i, s.slots[i]);
    var s' := TakeUsed(s, t);
    Counts(s, t, p);
    assert Read(s, s.used[0], s.published[|s.consumed| + 0]);
    TakeUsedFifo(s, t);
    NobodyHolds(s, i);
    forall u | 0 <= u < |s.users| ensures HoldsAlone(s', u) && Intact(s', u) {
      assert HoldsAlone(s, u) && Intact(s, u);
    }
  }

  lemma TakeFreeKeeps<T>(s: State<T>, t: nat)
    requires Inv(s) && t < |s.users| && s.users[t].PushTake?
    ensures Inv(TakeFree(s, t))
  {
    if s.free == [] {
      WalkKeeps(s, TakeFree(s, t), t, PushFull);
    } else {
      TakeSlotKeeps(s, t);
    }
  }

  lemma TakeSlotKeeps<T>(s: State<T>, t: nat)
    requires Inv(s) && t < |s.users| && s.users[t].PushTake? && s.free != []
    ensures Inv(TakeFree(s, t))
  {
    var s' := TakeFree(s, t);
    Counts(s, t, PushPost(s.free[0]));
    NobodyHolds(s, s.free[0]);
    forall u | 0 <= u < |s.users| ensures HoldsAlone(s', u) && Intact(s', u) {
      assert HoldsAlone(s, u) && Intact(s, u);
    }
    FifoStays(s, s');
  }

  lemma GiveBackKeeps<T>(s: State<T>, t: nat)
    requires Inv(s) && t < |s.users| && s.users[t].PullEndAdd?
    ensures Inv(At(s.(free := s.free + [s.users[t].idx]), t, PullEndPost))
  {
    var i := s.users[t].idx;
    var s' := At(s.(free := s.free + [i]), t, PullEndPost);
    Counts(s, t, PullEndPost);
    assert HoldsAlone(s, t);
    forall u | 0 <= u < |s.users| ensures HoldsAlone(s', u) && Intact(s', u) {
      assert HoldsAlone(s, u) && Intact(s, u);
    }
    FifoStays(s, s');
  }

  lemma AddUsedFifo<T>(s: State<T>, t: nat, i: nat, len: int)
    requires Fifo(s) && t < |s.users| && i < |s.slots| && i !in s.used
    ensures Fifo(AddUsed(s, t, i, len))
  {
    var s' := AddUsed(s, t, i, len);
    forall k | 0 <= k < |s'.used| ensures Read(s', s'.used[k], s'.published[|s'.consumed| + k]) {
      if k < |s.used| {
        assert Read(s, s.used[k], s.published[|s.consumed| + k]);
        assert s.used[k] in s.used;
      }
    }
  }

  lemma AddUsedSplit<T>(s: State<T>, t: nat, i: nat, len: int)
    requires Split(s) && t < |s.users| && s.users[t] == PushEndAdd(i, len)
    requires i < |s.slots| && i !in s.used && i !in s.free
    ensures Split(AddUsed(s, t, i, len))
  {
    Counts(s, t, PushEndQue);
    var s' := AddUsed(s, t, i, len);
    forall k | 0 <= k < |s'.free| ensures s'.free[k] !in s'.used {
      assert s.free[k] !in s.used && s.free[k] in s.free;
    }
  }

  lemma AddUsedKeeps<T>(s: State<T>, t: nat, i: nat, len: int)
    requires Inv(s) && t < |s.users| && s.users[t] == PushEndAdd(i, len)
    ensures i < |s.slots| && Inv(AddUsed(s, t, i, len))
  {
    assert HoldsAlone(s, t);
    var s' := AddUsed(s, t, i, len);
    Counts(s, t, PushEndQue);
    AddUsedSplit(s, t, i, len);
    AddUsedFifo(s, t, i, len);
    forall u | 0 <= u < |s.users| ensures HoldsAlone(s', u) && Intact(s', u) {
      assert HoldsAlone(s, u) && Intact(s, u);
    }
  }

  /** A pusher writes its own slot, which nobody else reads. */
  lemma OwnSlotKeeps<T>(s: State<T>, t: nat, p: Pc<T>, x: Slot<T>)
    requires Inv(s) && t < |s.users| && (s.users[t].PushInit? || s.users[t].Pushing?)
    requires p == Pushing(s.users[t].idx)
    ensures s.users[t].idx < |s.slots| && Inv(At(SlotAt(s, s.users[t].idx, x), t, p))
  {
    assert HoldsAlone(s, t);
    var i := s.users[t].idx;
    var s' := At(SlotAt(s, i, x), t, p);
    Counts(s, t, p);
    forall u | 0 <= u < |s.users| ensures HoldsAlone(s', u) && Intact(s', u) {
      assert HoldsAlone(s, u) && Intact(s, u);
    }
    assert forall k | 0 <= k < |s.used| :: s.used[k] in s.used;
    FifoStays(s, s');
  }

  predicate IsPull(p: Pc) {
    p.PullWait? || p.PullLst? || p.PullTake? || p.PullMiss? || p.PullPost? || p.PullRead? || p.Pulling?
    || p.PullEndLst? || p.PullEndAdd? || p.PullEndPost?
  }

  lemma PullStepKeeps<T>(s: State<T>, t: nat)
    requires Inv(s) && CanStep(s, t) && IsPull(s.users[t])
    ensures Inv(StepUser(s, t))
  {
    var s' := StepUser(s, t);
    assert Intact(s, t);
    match s.users[t]
    case PullWait(_) => WalkKeeps(s, s', t, PullLst);
    case PullLst => WalkKeeps(s, s', t, PullTake);
    case PullTake => TakeUsedKeeps(s, t);
    case PullPost(i, x) => WalkKeeps(s, s', t, PullRead(i, x));
    case PullRead(i, x) => WalkKeeps(s, s', t, Pulling(i, x, x.len));
    case PullEndLst(i, x) => WalkKeeps(s, s', t, PullEndAdd(i, x));
    case PullEndAdd(i, x) => GiveBackKeeps(s, t);
    case PullEndPost => WalkKeeps(s, s', t, Idle(0));
  }

  lemma PushBeginKeeps<T>(s: State<T>, t: nat)
    requires Inv(s) && CanStep(s, t)
    requires var p := s.users[t]; p.PushLst? || p.PushTake? || p.PushFull? || p.PushPost? || p.PushInit?
    ensures Inv(StepUser(s, t))
  {
    var s' := StepUser(s, t);
    match s.users[t]
    case PushLst => WalkKeeps(s, s', t, PushTake);
    case PushTake => TakeFreeKeeps(s, t);
    case PushFull => WalkKeeps(s, s', t, Idle(-1));
    case PushPost(i) => WalkKeeps(s, s', t, PushInit(i));
    case PushInit(i) => PresetKeeps(s, t, i);
  }

  predicate IsPushEnd(p: Pc) {
    p.PushEndLst? || p.PushEndQue? || p.PushEndPost?
  }

  lemma PushEndKeeps<T>(s: State<T>, t: nat)
    requires Inv(s) && CanStep(s, t) && IsPushEnd(s.users[t])
    ensures Inv(StepUser(s, t))
  {
    var s' := StepUser(s, t);
    match s.users[t]
    case PushEndLst(i, len) => WalkKeeps(s, s', t, PushEndAdd(i, len));
    case PushEndQue => WalkKeeps(s, s', t, PushEndPost);
    case PushEndPost => WalkKeeps(s, s', t, Idle(0));
  }

  lemma StepKeeps<T>(s: State<T>, t: nat)
    requires Inv(s) && CanStep(s, t)
    ensures Inv(StepUser(s, t))
  {
    if IsPull(s.users[t]) {
      PullStepKeeps(s, t);
    } else if s.users[t].PushEndAdd? {
      AddUsedKeeps(s, t, s.users[t].idx, s.users[t].len);
    } else if IsPushEnd(s.users[t]) {
      PushEndKeeps(s, t);
    } else {
      PushBeginKeeps(s, t);
    }
  }

  lemma PresetKeeps<T>(s: State<T>, t: nat, i: nat)
    requires Inv(s) && t < |s.users| && s.users[t] == PushInit(i)
    ensures Inv(Preset(s, t, i))
  {
    assert HoldsAlone(s, t);
    OwnSlotKeeps(s, t, Pushing(i), s.slots[i].(len := s.msgSize));
  }

  lemma WriteKeeps<T>(s: State<T>, t: nat, d: T)
    requires Inv(s) && Legal(s, Write(t, d))
    ensures Inv(Do(s, Write(t, d)))
  {
    assert HoldsAlone(s, t);
    OwnSlotKeeps(s, t, s.users[t], s.slots[s.users[t].idx].(data := d));
    assert At(Do(s, Write(t, d)), t, s.users[t]) == Do(s, Write(t, d));
  }

  /** A call starts, or the caller ends it. */
  lemma CallKeeps<T>(s: State<T>, a: Action<T>)
    requires Inv(s) && Legal(s, a) && (a.Push? || a.Pull? || a.PushEnd? || a.PullEnd?)
    ensures Inv(Do(s, a))
  {
    var s' := Do(s, a);
    match a
    case Push(t) => WalkKeeps(s, s', t, PushLst);
    case Pull(t, timed) => WalkKeeps(s, s', t, PullWait(timed));
    case PushEnd(t, len) => WalkKeeps(s, s', t, PushEndLst(s.users[t].idx, len));
    case PullEnd(t) =>
      assert Intact(s, t);
      WalkKeeps(s, s', t, PullEndLst(s.users[t].idx, s.users[t].item));
  }

  lemma DoKeeps<T>(s: State<T>, a: Action<T>)
    requires Inv(s) && Legal(s, a)
    ensures Inv(Do(s, a))
  {
    match a
    case Step(t) => StepKeeps(s, t);
    case TimeOut(t) => WalkKeeps(s, Do(s, a), t, Idle(-1));
    case Write(t, d) => WriteKeeps(s, t, d);
    case _ => CallKeeps(s, a);
  }

  lemma FreshHolds<T>(limit: nat, users: nat, msgSize: int, blank: Slot<T>)
    ensures Inv(Fresh(limit, users, msgSize, blank))
  {
    var s := Fresh(limit, users, msgSize, blank);
    TotalZero(Inside, s.users);
    TotalZero(Past, s.users);
    TotalZero(Owed, s.users);
    TotalZero(Holding, s.users);
    assert forall t | 0 <= t < users :: HoldsAlone(s, t) && Intact(s, t);
  }

  lemma {:induction false} RunKeeps<T>(s0: State<T>, acts: seq<Action<T>>)
    requires Inv(s0)
    ensures Inv(Run(s0, acts))
  {
    if acts == [] {
    } else {
      RunKeeps(s0, acts[..|acts| - 1]);
      var s', a := Run(s0, acts[..|acts| - 1]), acts[|acts| - 1];
      if Legal(s', a) { DoKeeps(s', a); }
    }
  }

  // ---- What follows in every reachable state ----

  /** The states reached from a fresh queue of limit slots. */
  ghost predicate Reached<T(!new)>(s: State<T>, limit: nat) {
    exists users: nat, msgSize: int, blank: Slot<T>, acts: seq<Action<T>> ::
      s == Run(Fresh(limit, users, msgSize, blank), acts)
  }

  lemma ReachedKeeps<T(!new)>(s: State<T>, limit: nat)
    requires Reached(s, limit)
    ensures Inv(s) && |s.slots| == limit
  {
    var users: nat, msgSize: int, blank: Slot<T>, acts: seq<Action<T>> :|
      s == Run(Fresh(limit, users, msgSize, blank), acts);
    FreshHolds(limit, users, msgSize, blank);
    RunKeeps(Fresh(limit, users, msgSize, blank), acts);
    SlotsStay(Fresh(limit, users, msgSize, blank), acts);
  }

  lemma {:induction false} SlotsStay<T>(s0: State<T>, acts: seq<Action<T>>)
    ensures |Run(s0, acts).slots| == |s0.slots|
  {
    if acts == [] {
    } else {
      SlotsStay(s0, acts[..|acts| - 1]);
      var s', a := Run(s0, acts[..|acts| - 1]), acts[|acts| - 1];
      if Legal(s', a) { DoSlotsStay(s', a); }
    }
  }

  lemma DoSlotsStay<T>(s: State<T>, a: Action<T>)
    requires Legal(s, a)
    ensures |Do(s, a).slots| == |s.slots|
  {
  }

  /** The slots in the hands of the users, in user order. */
  function HeldSlots<T>(us: seq<Pc<T>>): (r: seq<nat>)
    ensures |r| == Total(Holding, us)
    ensures forall i | i in r :: exists t | 0 <= t < |us| :: Held(us[t]) == Some(i)
  {
    if us == [] then []
    else
      var p := us[|us| - 1];
      assert forall t | 0 <= t < |us| - 1 :: us[..|us| - 1][t] == us[t];
      HeldSlots(us[..|us| - 1]) + (if Held(p).Some? then [Held(p).value] else [])
  }

  lemma {:induction false} HeldDistinct<T>(us: seq<Pc<T>>)
    requires forall t, u | 0 <= t < u < |us| && Held(us[t]).Some? :: Held(us[u]) != Held(us[t])
    ensures Distinct<nat>(HeldSlots(us))
  {
    if us == [] {
    } else {
      var n := |us| - 1;
      HeldDistinct(us[..n]);
      if Held(us[n]).Some? {
        assert forall t | 0 <= t < n :: us[..n][t] == us[t] && Held(us[t]) != Held(us[n]);
        assert Held(us[n]).value !in HeldSlots(us[..n]);
      }
    }
  }

  function Range(n: nat): (r: set<nat>)
    ensures |r| == n && forall i: nat {:trigger i in r} :: i in r <==> i < n
  {
    if n == 0 then {} else Range(n - 1) + {n - 1}
  }

  function Elements(s: seq<nat>): (r: set<nat>)
    ensures forall x {:trigger x in r} :: x in r <==> x in s
  {
    if s == [] then {} else Elements(s[..|s| - 1]) + {s[|s| - 1]}
  }

  lemma {:induction false} ElementsCount(s: seq<nat>)
    requires Distinct<nat>(s)
    ensures |Elements(s)| == |s|
  {
    if s == [] {
    } else {
      ElementsCount(s[..|s| - 1]);
      assert s[|s| - 1] !in s[..|s| - 1];
    }
  }

  lemma Pigeonhole(s: seq<nat>, n: nat)
    requires Distinct<nat>(s) && |s| == n && forall i | 0 <= i < n :: s[i] < n
    ensures forall i: nat | i < n :: i in s
  {
    ElementsCount(s);
    forall i: nat | i < n ensures i in s {
      if i !in Elements(s) {
        assert Elements(s) <= Range(n) - {i};
        SubsetIsNoLarger(Elements(s), Range(n) - {i});
      }
    }
  }

  lemma {:induction false} SubsetIsNoLarger(a: set<nat>, b: set<nat>)
    requires a <= b
    ensures |a| <= |b|
    decreases a
  {
    if a == {} {
    } else {
      var x :| x in a;
      SubsetIsNoLarger(a - {x}, b - {x});
    }
  }

  /** Every slot is free, used, or in the hands of exactly one user, and never two of these. */
  lemma EverySlotInOnePlace<T(!new)>(s: State<T>, limit: nat, i: nat)
    requires Reached(s, limit) && i < limit
    ensures i in s.free || i in s.used || exists t | 0 <= t < |s.users| :: Held(s.users[t]) == Some(i)
    ensures !(i in s.free && i in s.used)
    ensures forall t | 0 <= t < |s.users| && Held(s.users[t]) == Some(i) ::
              && i !in s.free && i !in s.used
              && forall u | 0 <= u < |s.users| && u != t :: Held(s.users[u]) != Some(i)
  {
    ReachedKeeps(s, limit);
    forall t, u | 0 <= t < u < |s.users| && Held(s.users[t]).Some? ensures Held(s.users[u]) != Held(s.users[t]) {
      assert HoldsAlone(s, t);
    }
    HeldDistinct(s.users);
    var held := HeldSlots(s.users);
    HeldApart(s, held);
    Pigeonhole(s.free + s.used + held, limit);
    assert i in s.free + s.used + held;
    forall t | 0 <= t < |s.users| && Held(s.users[t]) == Some(i)
      ensures i !in s.free && i !in s.used && forall u | 0 <= u < |s.users| && u != t :: Held(s.users[u]) != Some(i)
    {
      assert HoldsAlone(s, t);
    }
  }

  lemma HeldApart<T>(s: State<T>, held: seq<nat>)
    requires Split(s) && Alone(s) && Distinct<nat>(held)
    requires forall i | i in held :: exists t | 0 <= t < |s.users| :: Held(s.users[t]) == Some(i)
    ensures var all := s.free + s.used + held;
      Distinct<nat>(all) && forall k | 0 <= k < |all| :: all[k] < |s.slots|
  {
    forall i | i in held ensures i < |s.slots| && i !in s.free && i !in s.used {
      var t :| 0 <= t < |s.users| && Held(s.users[t]) == Some(i);
      assert HoldsAlone(s, t);
    }
    forall k | 0 <= k < |held| ensures held[k] < |s.slots| && held[k] !in s.free && held[k] !in s.used {
      assert held[k] in held;
    }
  }

  /** With sem_lst free, sem_que and the pullers already past it make up the used slots exactly. */
  lemma SemaphoresAgree<T(!new)>(s: State<T>, limit: nat)
    requires Reached(s, limit)
    ensures s.lst <= 1
    ensures s.lst == 1 ==> |s.used| == s.que + Total(Past, s.users)
    ensures s.lst == 1 ==> forall t | 0 <= t < |s.users| :: Inside(s.users[t]) == 0
    ensures forall t, u | 0 <= t < u < |s.users| :: Inside(s.users[t]) + Inside(s.users[u]) <= 1
  {
    ReachedKeeps(s, limit);
    if s.lst == 1 {
      forall t | 0 <= t < |s.users| ensures Inside(s.users[t]) == 0 {
        TotalBounds(Inside, s.users, t);
      }
      TotalZero(Owed, s.users);
    }
    forall t, u | 0 <= t < u < |s.users| ensures Inside(s.users[t]) + Inside(s.users[u]) <= 1 {
      TotalOfPair(Inside, s.users, t, u);
    }
  }

  /** A puller inside always finds the oldest unconsumed slot, so the -1 after an empty list never happens. */
  lemma PullAlwaysFinds<T(!new)>(s: State<T>, limit: nat, t: nat)
    requires Reached(s, limit) && t < |s.users|
    ensures !s.users[t].PullMiss?
    ensures s.users[t].PullTake? ==>
              && s.used != [] && |s.consumed| < |s.published|
              && StepUser(s, t).users[t] == PullPost(s.used[0], s.published[|s.consumed|])
              && StepUser(s, t).consumed == s.published[..|s.consumed| + 1]
  {
    ReachedKeeps(s, limit);
    assert Intact(s, t);
    if s.users[t].PullTake? {
      TakeUsedKeeps(s, t);
    }
  }

  /** Slots come out in the order they were published, and stay as published until they are given back. */
  lemma FirstInFirstOut<T(!new)>(s: State<T>, limit: nat, t: nat)
    requires Reached(s, limit) && t < |s.users|
    ensures s.consumed <= s.published && |s.published| - |s.consumed| == |s.used| <= limit
    ensures forall k | 0 <= k < |s.used| :: Read(s, s.used[k], s.published[|s.consumed| + k])
    ensures s.users[t].Pulling? ==>
              Read(s, s.users[t].idx, s.users[t].item) && s.users[t].len == s.users[t].item.len
  {
    ReachedKeeps(s, limit);
    assert Intact(s, t);
  }

  /** A push is refused exactly when every slot is used or in somebody's hands. */
  lemma PushRefusedWhenTaken<T(!new)>(s: State<T>, limit: nat, t: nat)
    requires Reached(s, limit) && t < |s.users| && s.users[t].PushTake?
    ensures StepUser(s, t).users[t].PushFull? <==> |s.used| + Total(Holding, s.users) == limit
    ensures !StepUser(s, t).users[t].PushFull? ==> StepUser(s, t).users[t] == PushPost(s.free[0])
  {
    ReachedKeeps(s, limit);
  }

  /** Nothing can move, and no caller has a slot in hand, only when all that is inside waits on an empty queue. */
  lemma StuckOnlyWhenEmpty<T(!new)>(s: State<T>, limit: nat, t: nat)
    requires Reached(s, limit) && t < |s.users|
    requires forall u | 0 <= u < |s.users| :: !CanStep(s, u) && !s.users[u].Pulling? && !s.users[u].Pushing?
    ensures s.users[t].Idle? || (s.users[t].PullWait? && s.used == [])
  {
    ReachedKeeps(s, limit);
    forall u | 0 <= u < |s.users| ensures Inside(s.users[u]) == 0 {
      assert !CanStep(s, u);
    }
    TotalZero(Inside, s.users);
    forall u | 0 <= u < |s.users| ensures Past(s.users[u]) == 0 && Owed(s.users[u]) == 0 {
      assert !CanStep(s, u);
    }
    TotalZero(Past, s.users);
    TotalZero(Owed, s.users);
    assert !CanStep(s, t);
  }
}
