/**
 * Two concrete runs of the hand-over protocol in which a timer expires just after its waiter was popped:
 * one leaves a message behind, the other stores a message that its put reports as timed out.
 */
module LateTimeouts {
  import opened Common
  import opened Scheduler
  import opened MsgChains
  import opened QueueProtocol
  import opened QueueTheorems

  const M0 := Message(0, 1)
  const M1 := Message(1, 1)
  const EMPTY: Chain<Message> := Fresh(1)
  const NONE: Chain<nat> := Fresh(1)

  /** A chain of one level that holds one element. */
  function Held<T>(counter: nat, x: T): Chain<T> {
    Chain([Bucket([x], counter)], 1, 0)
  }

  /** The same after a pop. */
  function Emptied<T>(): Chain<T> {
    Chain([Bucket([], 1)], 0, 0)
  }

  /** The chains and putter lists of the two runs, as the operations on them leave them. */
  lemma Filled()
    ensures Push(EMPTY, 0, M0) == Held(0, M0) && Push(NONE, 0, 0) == Held(0, 0) && Push(Emptied(), 0, M1) == Held(1, M1)
  {
    var none: seq<Message>, nobody: seq<nat> := [], [];
    assert none + [M0] == [M0] && nobody + [0] == [0] && none + [M1] == [M1];
    assert Push(EMPTY, 0, M0).buckets == [Bucket(none + [M0], 0)];
    assert Push<nat>(NONE, 0, 0).buckets == [Bucket(nobody + [0], 0)];
    assert Push(Emptied(), 0, M1).buckets == [Bucket(none + [M1], 1)];
  }

  lemma PopOnly<T>(x: T)
    ensures Top(Held(0, x).buckets) == 0 && Pop(Held(0, x)) == Popped(x, 0, Emptied())
  {
    var c := Held(0, x);
    assert [x][1..] == [];
    assert c.buckets[0 := Take(c.buckets[0], 1)] == [Bucket([x][1..], 1)];
  }

  /** The waiter of thread 0, reading or writing. */
  function Reader(refCount: nat, linked: bool, timedOut: bool, wait: Wait, condlock: Option<nat>,
                  popper: Option<nat>): Node
  {
    Node(Getter, 0, refCount, refCount == 0, linked, timedOut, wait, condlock, popper, false)
  }

  function Writer(refCount: nat, linked: bool, timedOut: bool, wait: Wait, condlock: Option<nat>, popper: Option<nat>,
                  taken: bool): Node
  {
    Node(Putter(M1), 0, refCount, refCount == 0, linked, timedOut, wait, condlock, popper, taken)
  }

  /** A queue of limit 1 with one priority level and two threads. */
  function Scene(chain: Chain<Message>, temp: seq<Message>, getters: seq<nat>, putters: Chain<nat>, nodes: seq<Node>,
                 quelock: Option<nat>, a: Pc, b: Pc, issued: seq<Message>, putOk: set<Message>,
                 putFailed: set<Message>, delivered: multiset<Message>): State
  {
    State(1, chain, temp, getters, putters, nodes, quelock, [a, b], issued, putOk, putFailed, delivered, multiset{},
          false, false, false)
  }

  ghost predicate Leads(actions: seq<Action>, to: State) {
    Legal(Start(1, 1, 2), actions) && ApplyAll(Start(1, 1, 2), actions) == to
  }

  lemma {:induction false} Extends(from: State, actions: seq<Action>, mid: State, a: Action)
    requires Legal(from, actions) && ApplyAll(from, actions) == mid && Enabled(mid, a)
    ensures Legal(from, actions + [a]) && ApplyAll(from, actions + [a]) == Apply(mid, a)
    decreases |actions|
  {
    if actions == [] {
      assert [a][1..] == [];
    } else {
      Extends(Apply(from, actions[0]), actions[1..], mid, a);
      assert (actions + [a])[1..] == actions[1..] + [a];
    }
  }

  /** One more action of the run, and where it leads. */
  lemma Then(actions: seq<Action>, mid: State, a: Action, s: State) returns (more: seq<Action>, now: State)
    requires Leads(actions, mid) && Enabled(mid, a) && Apply(mid, a) == s
    ensures Leads(more, s) && now == s
  {
    Extends(Start(1, 1, 2), actions, mid, a);
    more, now := actions + [a], s;
  }

  const OPENING := Scene(EMPTY, [], [], NONE, [], None, Idle, Idle, [], {}, {}, multiset{})

  // ---- A message left behind ----

  const READER_QUEUED := Scene(EMPTY, [], [0], NONE, [Reader(1, true, false, NotYet, Some(0), None)],
      Some(0), Registered(0), Idle, [], {}, {}, multiset{})

  /** A reader finds the queue empty and registers. */
  lemma ReaderArrives(acts: seq<Action>) returns (more: seq<Action>)
    requires Leads(acts, OPENING)
    ensures Leads(more, READER_QUEUED)
  {
    var s := OPENING;
    more, s := Then(acts, s, StartGet(0), s.(threads := [GetLock, Idle]));
    more, s := Then(more, s, Run(0), s.(quelock := Some(0), threads := [GetLocked, Idle]));
    more, s := Then(more, s, Run(0),
                     s.(getters := [0], nodes := [Reader(1, true, false, NotYet, Some(0), None)],
                        threads := [Registered(0), Idle]));
  }

  const READER_ASLEEP := Scene(EMPTY, [], [0], NONE, [Reader(1, true, false, Waiting, None, None)],
      None, Blocked(0), Idle, [], {}, {}, multiset{})

  /** The reader sleeps. */
  lemma ReaderSleeps(acts: seq<Action>) returns (more: seq<Action>)
    requires Leads(acts, READER_QUEUED)
    ensures Leads(more, READER_ASLEEP)
  {
    var s := READER_QUEUED;
    more, s := Then(acts, s, Run(0), s.(quelock := None, threads := [Entering(0), Idle]));
    more, s := Then(more, s, Run(0),
                     s.(nodes := [Reader(1, true, false, Waiting, None, None)],
                        threads := [Blocked(0), Idle]));
  }

  const WRITER_LOOKS := Scene(EMPTY, [], [0], NONE, [Reader(1, true, false, Waiting, None, None)],
      Some(1), Blocked(0), PutLocked(M0), [M0], {}, {}, multiset{})

  /** A writer takes the queue lock. */
  lemma WriterArrives(acts: seq<Action>) returns (more: seq<Action>)
    requires Leads(acts, READER_ASLEEP)
    ensures Leads(more, WRITER_LOOKS)
  {
    var s := READER_ASLEEP;
    more, s := Then(acts, s, StartPut(1, 1), s.(issued := [M0], threads := [Blocked(0), PutLock(M0)]));
    more, s := Then(more, s, Run(1), s.(quelock := Some(1), threads := [Blocked(0), PutLocked(M0)]));
  }

  const READER_POPPED := Scene(EMPTY, [], [], NONE, [Reader(2, false, false, Waiting, Some(1), Some(1))],
      None, Blocked(0), Checking(Putting, M0, 0), [M0], {}, {}, multiset{})

  /** It finds the reader and pops it. */
  lemma WriterPopsReader(acts: seq<Action>) returns (more: seq<Action>)
    requires Leads(acts, WRITER_LOOKS)
    ensures Leads(more, READER_POPPED)
  {
    var s := WRITER_LOOKS;
    more, s := Then(acts, s, Run(1),
                     s.(getters := [], nodes := [Reader(2, false, false, Waiting, None, Some(1))],
                        threads := [Blocked(0), Popping(Putting, M0, 0)]));
    more, s := Then(more, s, Run(1),
                     s.(nodes := [Reader(2, false, false, Waiting, Some(1), Some(1))],
                        threads := [Blocked(0), BothLocked(M0, 0)]));
    more, s := Then(more, s, Run(1), s.(quelock := None, threads := [Blocked(0), Checking(Putting, M0, 0)]));
  }

  const HANDED_OVER := Scene(EMPTY, [M0], [], NONE, [Reader(2, false, false, Expired, Some(1), Some(1))],
      None, Blocked(0), Signalling(Putting, M0, 0), [M0], {}, {}, multiset{})

  /** The reader's timer expires, but the writer cannot know and hands its message over. */
  lemma WriterHandsOver(acts: seq<Action>) returns (more: seq<Action>)
    requires Leads(acts, READER_POPPED)
    ensures Leads(more, HANDED_OVER)
  {
    var s := READER_POPPED;
    more, s := Then(acts, s, Expire(0), s.(nodes := [Reader(2, false, false, Expired, Some(1), Some(1))]));
    more, s := Then(more, s, Run(1), s.(temp := [M0], threads := [Blocked(0), Signalling(Putting, M0, 0)]));
  }

  const WRITER_DONE := Scene(EMPTY, [M0], [], NONE, [Reader(1, false, false, Expired, None, Some(1))],
      None, Blocked(0), Idle, [M0], {M0}, {}, multiset{})

  /** The writer signals in vain and returns 0. */
  lemma WriterReturns(acts: seq<Action>) returns (more: seq<Action>)
    requires Leads(acts, HANDED_OVER)
    ensures Leads(more, WRITER_DONE)
  {
    var s := HANDED_OVER;
    more, s := Then(acts, s, Run(1), s.(threads := [Blocked(0), Unlocking(Putting, M0, 0)]));
    more, s := Then(more, s, Run(1),
                     s.(nodes := [Reader(2, false, false, Expired, None, Some(1))],
                        threads := [Blocked(0), Dropping(Putting, M0, 0, false)]));
    assert {} + {M0} == {M0};
    more, s := Then(more, s, Run(1),
                     s.(nodes := [Reader(1, false, false, Expired, None, Some(1))], putOk := {M0},
                        threads := [Blocked(0), Idle]));
  }

  const READER_AWAKE := Scene(EMPTY, [M0], [], NONE, [Reader(1, false, true, Expired, Some(0), Some(1))],
      None, Leaving(0, None), Idle, [M0], {M0}, {}, multiset{})

  /** The reader notices that its time is up and fetches nothing. */
  lemma ReaderWakesLate(acts: seq<Action>) returns (more: seq<Action>)
    requires Leads(acts, WRITER_DONE)
    ensures Leads(more, READER_AWAKE)
  {
    var s := WRITER_DONE;
    more, s := Then(acts, s, Run(0),
                     s.(nodes := [Reader(1, false, false, Expired, Some(0), Some(1))],
                        threads := [Woken(0), Idle]));
    more, s := Then(more, s, Run(0),
                     s.(nodes := [Reader(1, false, true, Expired, Some(0), Some(1))],
                        threads := [Leaving(0, None), Idle]));
  }

  const LEFT_BEHIND := Scene(EMPTY, [M0], [], NONE, [Reader(0, false, true, Expired, None, Some(1))],
      None, Idle, Idle, [M0], {M0}, {}, multiset{})

  /** It reports a timeout. */
  lemma ReaderReturns(acts: seq<Action>) returns (more: seq<Action>)
    requires Leads(acts, READER_AWAKE)
    ensures Leads(more, LEFT_BEHIND)
  {
    var s := READER_AWAKE;
    more, s := Then(acts, s, Run(0),
                     s.(nodes := [Reader(1, false, true, Expired, None, Some(1))],
                        threads := [Left(0, None), Idle]));
    more, s := Then(more, s, Run(0), s.(threads := [Gone(0, None), Idle]));
    more, s := Then(more, s, Run(0),
                     s.(nodes := [Reader(0, false, true, Expired, None, Some(1))],
                        threads := [Idle, Idle]));
  }

  /**
   * A message whose put returned 0 stays in the hand-over list with nobody waiting; the next get tests the
   * message count only and goes to sleep.
   */
  lemma MessageLeftBehind() returns (actions: seq<Action>, s: State)
    ensures Reached(1, 1, 2, actions, s) && s.threads == [Idle, Idle]
    ensures M0 in s.putOk && s.temp == [M0] && s.chain.count == 0 && s.getters == []
    ensures GetDecide(LockQueue(s, 0, GetLocked), 0).threads[0] == Registered(1)
  {
    assert Leads([], OPENING);
    actions := ReaderArrives([]);
    actions := ReaderSleeps(actions);
    actions := WriterArrives(actions);
    actions := WriterPopsReader(actions);
    actions := WriterHandsOver(actions);
    actions := WriterReturns(actions);
    actions := ReaderWakesLate(actions);
    actions := ReaderReturns(actions);
    s := LEFT_BEHIND;
  }

  // ---- A refused message stored ----

  const FULL := Scene(Held(0, M0), [], [], NONE, [], None, Idle, Idle, [M0], {M0}, {}, multiset{})

  /** A put fills the queue. */
  lemma FirstPut(acts: seq<Action>) returns (more: seq<Action>)
    requires Leads(acts, OPENING)
    ensures Leads(more, FULL)
  {
    Filled();
    var s := OPENING;
    more, s := Then(acts, s, StartPut(0, 1), s.(issued := [M0], threads := [PutLock(M0), Idle]));
    more, s := Then(more, s, Run(0), s.(quelock := Some(0), threads := [PutLocked(M0), Idle]));
    more, s := Then(more, s, Run(0), s.(chain := Held(0, M0), threads := [PutStored(M0), Idle]));
    assert {} + {M0} == {M0};
    more, s := Then(more, s, Run(0), s.(quelock := None, putOk := {M0}, threads := [Idle, Idle]));
  }

  const WRITER_QUEUED :=
    Scene(Held(0, M0), [], [], Held(0, 0), [Writer(1, true, false, NotYet, Some(0), None, false)],
          Some(0), Registered(0), Idle, [M0, M1], {M0}, {}, multiset{})

  /** A second put finds it full and queues a writer. */
  lemma SecondPutBlocks(acts: seq<Action>) returns (more: seq<Action>)
    requires Leads(acts, FULL)
    ensures Leads(more, WRITER_QUEUED)
  {
    Filled();
    var s := FULL;
    more, s := Then(acts, s, StartPut(0, 1), s.(issued := [M0, M1], threads := [PutLock(M1), Idle]));
    more, s := Then(more, s, Run(0), s.(quelock := Some(0), threads := [PutLocked(M1), Idle]));
    more, s := Then(more, s, Run(0),
                     s.(putters := Held(0, 0), nodes := [Writer(1, true, false, NotYet, Some(0), None, false)],
                        threads := [Registered(0), Idle]));
  }

  const WRITER_ASLEEP := Scene(Held(0, M0), [], [], Held(0, 0), [Writer(1, true, false, Waiting, None, None, false)],
      None, Blocked(0), Idle, [M0, M1], {M0}, {}, multiset{})

  /** The writer sleeps. */
  lemma SecondPutSleeps(acts: seq<Action>) returns (more: seq<Action>)
    requires Leads(acts, WRITER_QUEUED)
    ensures Leads(more, WRITER_ASLEEP)
  {
    var s := WRITER_QUEUED;
    more, s := Then(acts, s, Run(0), s.(quelock := None, threads := [Entering(0), Idle]));
    more, s := Then(more, s, Run(0),
                     s.(nodes := [Writer(1, true, false, Waiting, None, None, false)],
                        threads := [Blocked(0), Idle]));
  }

  const FIRST_TAKEN := Scene(Emptied(), [], [], Held(0, 0), [Writer(1, true, false, Waiting, None, None, false)],
      Some(1), Blocked(0), GetPopped(M0), [M0, M1], {M0}, {}, multiset{})

  /** A get takes the first message. */
  lemma GetTakesFirst(acts: seq<Action>) returns (more: seq<Action>)
    requires Leads(acts, WRITER_ASLEEP)
    ensures Leads(more, FIRST_TAKEN)
  {
    PopOnly(M0);
    var s := WRITER_ASLEEP;
    more, s := Then(acts, s, StartGet(1), s.(threads := [Blocked(0), GetLock]));
    more, s := Then(more, s, Run(1), s.(quelock := Some(1), threads := [Blocked(0), GetLocked]));
    more, s := Then(more, s, Run(1), s.(chain := Emptied(), threads := [Blocked(0), GetPopped(M0)]));
  }

  const WRITER_POPPED :=
    Scene(Emptied(), [], [], Emptied(), [Writer(2, false, false, Waiting, Some(1), Some(1), false)],
          Some(1), Blocked(0), Checking(Getting, M0, 0), [M0, M1], {M0}, {}, multiset{})

  /** It pops the writer and locks it. */
  lemma GetPopsWriter(acts: seq<Action>) returns (more: seq<Action>)
    requires Leads(acts, FIRST_TAKEN)
    ensures Leads(more, WRITER_POPPED)
  {
    PopOnly<nat>(0);
    var s := FIRST_TAKEN;
    more, s := Then(acts, s, Run(1),
                     s.(putters := Emptied(), nodes := [Writer(2, false, false, Waiting, None, Some(1), false)],
                        threads := [Blocked(0), Popping(Getting, M0, 0)]));
    more, s := Then(more, s, Run(1),
                     s.(nodes := [Writer(2, false, false, Waiting, Some(1), Some(1), false)],
                        threads := [Blocked(0), Checking(Getting, M0, 0)]));
  }

  const WRITER_STORED :=
    Scene(Held(1, M1), [], [], Emptied(), [Writer(2, false, false, Expired, Some(1), Some(1), true)],
          Some(1), Blocked(0), Signalling(Getting, M0, 0), [M0, M1], {M0}, {}, multiset{})

  /** The writer's timer expires, but the reader cannot know and stores the writer's message. */
  lemma GetTakesWriterIn(acts: seq<Action>) returns (more: seq<Action>)
    requires Leads(acts, WRITER_POPPED)
    ensures Leads(more, WRITER_STORED)
  {
    Filled();
    var s := WRITER_POPPED;
    more, s := Then(acts, s, Expire(0), s.(nodes := [Writer(2, false, false, Expired, Some(1), Some(1), false)]));
    more, s := Then(more, s, Run(1),
                     s.(chain := Held(1, M1), nodes := [Writer(2, false, false, Expired, Some(1), Some(1), true)],
                        threads := [Blocked(0), Signalling(Getting, M0, 0)]));
  }

  const WRITER_UNLOCKED :=
    Scene(Held(1, M1), [], [], Emptied(), [Writer(2, false, false, Expired, None, Some(1), true)],
          Some(1), Blocked(0), Dropping(Getting, M0, 0, false), [M0, M1], {M0}, {}, multiset{})

  /** The reader signals in vain and unlocks the writer. */
  lemma GetUnlocksWriter(acts: seq<Action>) returns (more: seq<Action>)
    requires Leads(acts, WRITER_STORED)
    ensures Leads(more, WRITER_UNLOCKED)
  {
    var s := WRITER_STORED;
    more, s := Then(acts, s, Run(1), s.(threads := [Blocked(0), Unlocking(Getting, M0, 0)]));
    more, s := Then(more, s, Run(1),
                     s.(nodes := [Writer(2, false, false, Expired, None, Some(1), true)],
                        threads := [Blocked(0), Dropping(Getting, M0, 0, false)]));
  }

  const READER_DONE := Scene(Held(1, M1), [], [], Emptied(), [Writer(1, false, false, Expired, None, Some(1), true)],
      None, Blocked(0), Idle, [M0, M1], {M0}, {}, multiset{M0})

  /** It returns the first message. */
  lemma GetReturnsFirst(acts: seq<Action>) returns (more: seq<Action>)
    requires Leads(acts, WRITER_UNLOCKED)
    ensures Leads(more, READER_DONE)
  {
    var s := WRITER_UNLOCKED;
    more, s := Then(acts, s, Run(1),
                     s.(nodes := [Writer(1, false, false, Expired, None, Some(1), true)],
                        threads := [Blocked(0), GetFinish(M0)]));
    assert multiset{} + multiset{M0} == multiset{M0};
    more, s := Then(more, s, Run(1), s.(quelock := None, delivered := multiset{M0}, threads := [Blocked(0), Idle]));
  }

  const WRITER_AWAKE :=
    Scene(Held(1, M1), [], [], Emptied(), [Writer(1, false, true, Expired, Some(0), Some(1), true)],
          None, Leaving(0, None), Idle, [M0, M1], {M0}, {}, multiset{M0})

  /** The writer notices that its time is up. */
  lemma WriterWakesLate(acts: seq<Action>) returns (more: seq<Action>)
    requires Leads(acts, READER_DONE)
    ensures Leads(more, WRITER_AWAKE)
  {
    var s := READER_DONE;
    more, s := Then(acts, s, Run(0),
                     s.(nodes := [Writer(1, false, false, Expired, Some(0), Some(1), true)],
                        threads := [Woken(0), Idle]));
    more, s := Then(more, s, Run(0),
                     s.(nodes := [Writer(1, false, true, Expired, Some(0), Some(1), true)],
                        threads := [Leaving(0, None), Idle]));
  }

  const REFUSED_BUT_STORED :=
    Scene(Held(1, M1), [], [], Emptied(), [Writer(0, false, true, Expired, None, Some(1), true)],
          None, Idle, Idle, [M0, M1], {M0}, {M1}, multiset{M0})

  /** It finds that it was popped already and reports a timeout. */
  lemma WriterReportsTimeout(acts: seq<Action>) returns (more: seq<Action>)
    requires Leads(acts, WRITER_AWAKE)
    ensures Leads(more, REFUSED_BUT_STORED)
  {
    var s := WRITER_AWAKE;
    more, s := Then(acts, s, Run(0),
                     s.(nodes := [Writer(1, false, true, Expired, None, Some(1), true)],
                        threads := [Left(0, None), Idle]));
    more, s := Then(more, s, Run(0), s.(threads := [Gone(0, None), Idle]));
    assert {} + {M1} == {M1};
    more, s := Then(more, s, Run(0),
                     s.(nodes := [Writer(0, false, true, Expired, None, Some(1), true)], putFailed := {M1},
                        threads := [Idle, Idle]));
  }

  /** A put that reports a timeout may have stored its message; the next get will return it. */
  lemma RefusedMessageStored() returns (actions: seq<Action>, s: State)
    ensures Reached(1, 1, 2, actions, s) && s.threads == [Idle, Idle]
    ensures M1 in s.putFailed && M1 !in s.putOk && s.chain == Held(1, M1)
  {
    assert Leads([], OPENING);
    actions := FirstPut([]);
    actions := SecondPutBlocks(actions);
    actions := SecondPutSleeps(actions);
    actions := GetTakesFirst(actions);
    actions := GetPopsWriter(actions);
    actions := GetTakesWriterIn(actions);
    actions := GetUnlocksWriter(actions);
    actions := GetReturnsFirst(actions);
    actions := WriterWakesLate(actions);
    actions := WriterReportsTimeout(actions);
    s := REFUSED_BUT_STORED;
  }
}
