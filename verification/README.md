# Queue-C: a verified model

Queue-C is a bounded, prioritised, blocking message queue with an in-process threaded version and a
cross-process version in shared memory. This project models its algorithms and protocols in Dafny and proves
what they guarantee.

* **The weighted-priority scheduler** (`Scheduler`, `Walk`, `Odometer`, `MsgChain`, `MsgHistory`,
  `PuttersChain`, `PutterHistory`). Bucket i may be served i+1 times before it hands over to a lower one. The
  `goto` loop is kept as a loop over the bucket array and proved equal to a specification `Pop`. While all
  buckets are filled the pop counters are the digits of a mixed-radix odometer, which gives the exact service
  shares. The assertion inside the walk is not dead code: with three levels, ten messages of priority 3 and three
  of priority 2 make the twelfth pop trip it. `IsStuck` is the exact condition. What a pop does to
  every counter is stated case by case, without the functions that specify the walk.
* **The put/get hand-over** (`QueueProtocol` and the other `Queue*` files). A state machine: any number of
  threads, one step per lock operation or signal, waits that expire or are signalled and later reacquire their
  lock, reference counts, the temporary hand-over list. The invariant is proved for every run. `QueueProgress` adds
  freedom from deadlock, `QueueHandOver` and `QueueStoredOrder` the order in which messages come out, `QueueArrival` the
  order in which waiters are served, `QueueResults` what calls report. `QueueTimeouts` and `QueueLateWriters` say exactly
  what a timeout costs that comes after the waiter was popped. A message whose put returned 0 may stay in the
  hand-over list, where a later get does not look for it (it tests the message count only): one for every signal
  that found its getter's timer expired. A put may report a timeout although its message was stored: exactly if its
  timer ran out while a get had the writer popped but not signalled, so that the get could not see it.
  `LateTimeouts` shows a run of each kind.
* **Linked structures** (`StaticList`, `SlotQueue`, `EntryList`, `StableSort`). The list inside an array, the heap
  list, and the in-place insertion sort, which is proved to be *the* stable sort. On top: the non-blocking queue
  and the number pool.
* **The blocking queue** (`BlockQueue`, `BlockHistory`) with its single untested wait, as a state machine.
* **The shared-memory queue** (`ShmQueue`, `ShmHistory`, `ShmLayout`): the two-phase slot protocol under two semaphores, and
  the layout that is computed twice and must agree. Both computations narrow msgsize to an int; the exact condition
  under which the parts of the segment still lie one behind the other is proved, with inputs that fail it.
* **Two stores** (`PsistFile` and `Psist`, `HashTable`): the slot file byte by byte with its body-then-head write
  order, the pool of slot numbers that makes an interrupted append harmless, and the chained hash table whose keys
  ignore case. A body longer than a slot runs on into the next one, and a store opened on a file with records hands
  their numbers out again; the exact conditions are stated.

## How it is modelled

Objects that the source updates in place are classes; their methods carry the loops of the source and are proved
against functions on values. Protocols are state machines whose runs are sequences of actions; "reachable" always
means by any such sequence. Waits return only "signalled" or "timed out". A failed assertion of the source is the
result `None`, `Stuck` or `aborted`; anything undefined would set `fault`, which is proved never to happen. Integer
width is written out where values can wrap: the two layout computations and the string hash. A list inside a bucket
of the scheduler is a sequence, justified by the operations of `EntryList`; the hand-over list of `MsgChain` is a
linked one.

A message is an identity with a priority. In the shared-memory queue a user is one push or one pull from begin to
end, so a process with several slots in hand is several users.

## Model

| member | source | states |
|---|---|---|
| `Scheduler.TopOfNonempty` | src/qc_mq/qc_msgchain.c:163-176 | a chain holds a message exactly when the search below the cursor ends at a nonempty bucket, and the cursor is never below it |
| `Scheduler.FreshExactly` | src/qc_mq/qc_msgchain.c:84-103 | a new chain has empty buckets with counter 0, count 0 and cursor 0 |
| `Scheduler.PushKeeps` | src/qc_mq/qc_msgchain.c:139-155 | a push keeps count, cursor and counters consistent and stores exactly one element more |
| `Scheduler.PushExactly` | src/qc_mq/qc_msgchain.c:145-152 | it appends to the bucket it names, counts one more, raises the cursor if that bucket is above it, and changes no pop counter and no other bucket |
| `Scheduler.PopKeeps` | src/qc_mq/qc_msgchain.c:158-217 | a pop that does not abort keeps the chain consistent and takes out the head of the bucket it serves, nothing else |
| `Scheduler.PopServesHighest` | src/qc_mq/qc_msgchain.c:185-205 | a pop whose highest nonempty bucket has service left serves it and counts one more; one that finds it exhausted and holding everything serves it and counts nothing; no other counter changes |
| `Scheduler.PopServesBelow` | src/qc_mq/qc_msgchain.c:185-214 | a pop that finds the highest nonempty bucket exhausted serves the next nonempty one with service left; every bucket passed whose counter had reached its limit, empty or not, starts from 0; the others stay |
| `Scheduler.PopWrapsOrSticks` | src/qc_mq/qc_msgchain.c:185-214 | a pop that finds nothing to serve trips the assertion exactly if the counter of bucket 0 is 0; else the walk goes around once, every counter at its limit starts from 0 and the highest nonempty bucket is served as the first of its share |
| `Scheduler.EvictKeeps` | src/qc_mq/qc_msgchain.c:231-245 | an eviction takes the oldest element of the lowest nonempty bucket, leaves every pop counter and the cursor alone, and keeps the chain consistent |
| `Scheduler.RemoveKeeps` | src/qc_mq/qc_putters.c:297-313 | a removal from the middle of a bucket takes out exactly that element and keeps count, cursor and counters consistent |
| `Scheduler.RemoveExactly` | src/qc_mq/qc_putters.c:297-313 | it changes no pop counter, not the cursor, and no other bucket |
| `Scheduler.WithoutIsCut` | src/qc_mq/qc_putters.c:307 | the others of the bucket keep their order |
| `Scheduler.TwoLevelsNeverStuck` | src/qc_mq/qc_msgchain.c:178-217 | with at most two levels a pop of a nonempty chain always returns an element |
| `Walk.Locate` | src/qc_mq/qc_msgchain.c:163-176 | the first loop ends at the highest nonempty bucket and never runs below bucket 0 |
| `Walk.Round` | src/qc_mq/qc_msgchain.c:180-215 | one round of the goto loop serves what Pop says, leaves the array only where Pop is stuck, or moves on: one bucket down, or to the top and that only once, having set the counter of the bucket it leaves to 0 if it was at its limit and changed nothing else |
| `Walk.PopWalk` | src/qc_mq/qc_msgchain.c:158-217 | the whole in-place walk terminates and equals Pop: it trips the lower-bound assertion exactly in the stuck states, and the cycle assertion never |
| `Odometer.PopAdvances` | src/qc_mq/qc_msgchain.c:178-217 | with all buckets nonempty a pop is one increment of the mixed-radix counter, full value wrapping to 1, and serves the bucket whose digit grew |
| `Odometer.HighInjective` | src/qc_mq/qc_msgchain.c:183-190 | the value of the counter determines all pop counters |
| `Odometer.ExactShares` | src/qc_mq/qc_msgchain.c:178-217 | among any (B+1)!-1 pops that find all B buckets nonempty, bucket i is served exactly (i+1)*(i+1)! times, whatever is pushed in between |
| `Odometer.LapRestoresCounters` | src/qc_mq/qc_msgchain.c:178-217 | after such a lap all counters are back where they were, unless they all started at zero |
| `MsgChains.MsgChain.Create` | src/qc_mq/qc_msgchain.c:69-112 | null exactly for a limit or level count that is not positive, else an empty chain |
| `MsgChains.MsgChain.PushMsg` | src/qc_mq/qc_msgchain.c:139-155 | appends to the bucket of the priority, counts, raises the cursor |
| `MsgChains.MsgChain.PopMsg` | src/qc_mq/qc_msgchain.c:158-217 | stops at the assertion exactly when the highest nonempty bucket is exhausted without holding everything, all lower nonempty ones are exhausted, and bucket 0 has counter 0 |
| `MsgChains.MsgChain.ForcePush` | src/qc_mq/qc_msgchain.c:220-248 | never -1: with room a push, else the oldest message of the lowest nonempty priority makes way; no pop counter changes |
| `MsgChains.MsgChain.GetTemp` | src/qc_mq/qc_msgchain.c:262-270 | unlinks the message handed over first and returns it, or finds the linked list empty |
| `MsgHistory.Conservation` | src/qc_mq/qc_msgchain.c:139-248 | over any mix of pushes, pops and forced pushes: stored = pushed - popped - evicted, never over the limit, removals at each priority are a prefix of its pushes |
| `MsgHistory.EvictsLowestPriority` | src/qc_mq/qc_msgchain.c:231-245 | after every run a forced push on a full chain evicts one message, and no stored message has a lower priority |
| `MsgHistory.AbortReachable` | src/qc_mq/qc_msgchain.c:185-197 | for every level count B of 3 or more, 3B+4 plain pushes and 3B+2 pops lead to a nonempty chain whose next pop trips the assertion |
| `PuttersChains.PuttersChain.PushPutter` | src/qc_mq/qc_putters.c:187-208 | appends the putter, links it, counts it, raises the cursor |
| `PuttersChains.PuttersChain.PopPutter` | src/qc_mq/qc_putters.c:211-294 | null on an empty chain; else the putter the scheduler chooses, unlinked and with one reference more; stops at the assertion exactly in the stuck states |
| `PuttersChains.PuttersChain.RemovePutter` | src/qc_mq/qc_putters.c:297-313 | -1 and no change for a putter already popped; else takes it out of its bucket; no pop counter changes, nor the cursor |
| `PutterHistory.ArrivalOrder` | src/qc_mq/qc_putters.c:187-313 | over any mix of arrivals, pops and removals: the count is the total of the buckets, the cursor is at or above the highest nonempty one, counters are in range, and each bucket holds the surviving putters of its priority in order of arrival |
| `QueueRuns.ApplyKeeps` | src/qc_mq/qc_queue.c:125-305 | every action (a call starting, a thread's next step, a timer expiring) keeps the invariant of the protocol |
| `QueueTheorems.NeverFaults` | src/qc_mq/qc_queue.c:125-305 | in every reachable state: no freed waiter touched, no empty hand-over list read, no push over the limit, no removal of an unlinked entry |
| `QueueTheorems.ExactlyOnePlace` | src/qc_mq/qc_queue.c:125-284 | every message put so far is in exactly one place; one whose put returned 0 is in a bucket, the hand-over list, one getter's hands, delivered or evicted; none is delivered twice |
| `QueueTheorems.NotInTwoHands` | src/qc_mq/qc_queue.c:208-284 | no message is in the hands of two getters |
| `QueueTheorems.SignalledAreCovered` | src/qc_mq/qc_queue.c:217-241 | the hand-over list holds at least as many messages as there are signalled getters that have not resumed |
| `QueueTheorems.SignalledGetsMessage` | src/qc_mq/qc_queue.c:233-241 | in every reachable state a getter that resumes after a signal takes the first message of the hand-over list, which is not empty: the assertion never fails |
| `QueueHandOver.HandOverInOrder` | src/qc_mq/qc_msgchain.c:252-270 | over every run the hand-over list is first in, first out: what puts handed over, in order, is what getters fetched, in order, followed by what the list holds |
| `QueueStoredOrder.StoredInOrder` | src/qc_mq/qc_queue.c:162-304 | over every run and at each priority, what puts, forced puts and takings-in of blocked writers stored is what gets and evictions took out, in that order, followed by what the bucket holds |
| `QueueTheorems.NobodyWaitsInVain` | src/qc_mq/qc_queue.c:136-200 | without forced puts and with the queue lock free: registered getters mean nothing stored, registered putters a full chain, never both |
| `QueueTheorems.SleepersAreReachable` | src/qc_mq/qc_queue.c:139-193 | a waiter that sleeps is in its list, or the thread that popped it is about to signal it |
| `QueueTheorems.CountedReferences` | src/qc_mq/qc_getters.c:75-95 | a waiter's reference count is the number of threads using it, and it is freed exactly when none is left |
| `QueueTheorems.FreedForever` | src/qc_mq/qc_getters.c:154-187 | a waiter freed in a reachable state is left unchanged by every continuation of the run, so it is freed once, whichever of signal, timeout, pop and remove wins |
| `QueueTheorems.NoWaiterLeft` | src/qc_mq/qc_getters.c:75-95 | whenever no call is inside, every waiter ever created has been freed |
| `QueueArrival.NumberedInOrder` | src/qc_mq/qc_getters.c:134-151 | waiters are numbered in the order in which they register, for good: number, kind and owner stay, and later ones get higher numbers |
| `QueueArrival.WaitersInTurn` | src/qc_mq/qc_getters.c:134-187 | in every reachable state the getter list is in order of registration, and so are the writers of each priority |
| `QueueArrival.PutServesFirst` | src/qc_mq/qc_queue.c:138-143 | a put pops a getter exactly if one is in the list, and then the one that registered before all others |
| `QueueArrival.GetServesFirst` | src/qc_mq/qc_queue.c:259-263 | a get that took its message pops, of the bucket the scheduler serves, the writer that registered first; it pops none exactly if none is in the list, or the pop trips the assertion |
| `QueueResults.IssuedAsAsked` | src/qc_mq/qc_queue.c:125-134 | the messages of a run are the puts that were called, in order, with the priorities they asked for |
| `QueueResults.OneResultEach` | src/qc_mq/qc_queue.c:136-205 | each message put so far has its put under way in exactly one thread, or that put returned 0, or it returned -1 |
| `QueueResults.BlockedCallReports` | src/qc_mq/qc_queue.c:179-253 | a blocked call whose timer expired returns -1 or no message, one that was signalled 0 or the message it fetched |
| `QueueProgress.StuckOnlyOnWaiters` | src/qc_mq/qc_queue.c:125-284 | no deadlock: if nothing can move, the queue lock is free and every call inside sleeps in its list; without forced puts the getters among them face an empty chain, the putters a full one |
| `QueueTimeouts.AcceptedIffTaken` | src/qc_mq/qc_queue.c:162-195 | the message of a blocked put is in the queue (or came out of it) exactly when a get took it in, whether or not the put then reports a timeout; QueueLateWriters says when that is |
| `QueueLateWriters.LateIffHit` | src/qc_mq/qc_queue.c:259-273 | over every run the writers that are stored although their timer ran out are exactly those hit by a late event, each once: a get that finds no timeout noted after the timer ran out, or a timer that runs out between the storing and the signal |
| `QueueLateWriters.RefusedPutOutsideIffNotHit` | src/qc_mq/qc_queue.c:177-191 | a put that reported a timeout left its message outside the queue if and only if no late event hit its writer; otherwise the message is in the queue, or came out of it, once |
| `QueueTimeouts.SurplusIsLostSignals` | src/qc_mq/qc_queue.c:142-160 | over every run the hand-over list holds one message per getter that will fetch and one per hand-over whose signal found its getter no longer waiting, and no more |
| `QueueTimeouts.LeftBehind` | src/qc_mq/qc_queue.c:215-250 | with all threads idle the messages left in the hand-over list are exactly the lost signals of the run |
| `LateTimeouts.MessageLeftBehind` | src/qc_mq/qc_queue.c:142-250 | a concrete run: a message whose put returned 0 stays in the hand-over list, and the next get goes to sleep |
| `LateTimeouts.RefusedMessageStored` | src/qc_mq/qc_queue.c:162-277 | a concrete run: a put reports a timeout although its message is stored |
| `StaticLists.StaticList.Init` | src/qc_rt/qc_list.c:55-101 | -1 and no change for a limit that is not positive, else all cells in order, with links, head, tail and count consistent throughout |
| `StaticLists.StaticList.Clear` | src/qc_rt/qc_list.c:104-114 | empties the list, with links, head, tail and count consistent throughout |
| `StaticLists.StaticList.GetHead` | src/qc_rt/qc_list.c:135-164 | takes the first cell, or the invalid index, with links, head, tail and count consistent throughout |
| `StaticLists.StaticList.GetTail` | src/qc_rt/qc_list.c:167-196 | takes the last cell, or the invalid index, with links, head, tail and count consistent throughout |
| `StaticLists.StaticList.GetAt` | src/qc_rt/qc_list.c:199-241 | takes a member out of the middle; -1 out of range, with links, head, tail and count consistent throughout |
| `StaticLists.StaticList.AddHead` | src/qc_rt/qc_list.c:244-273 | puts a cell in front; -1 out of range, with links, head, tail and count consistent throughout |
| `StaticLists.StaticList.AddTail` | src/qc_rt/qc_list.c:276-305 | puts a cell that is no member at the end, with links, head, tail and count consistent; -1 out of range; a member instead cuts the list off behind it and leaves the fields standing for no list |
| `StaticLists.StaticList.AddAt` | src/qc_rt/qc_list.c:308-347 | puts a cell behind a member; -1 out of range, invalid on an empty list, with links, head, tail and count consistent throughout |
| `StaticLists.AgainCutsOff` | src/qc_rt/qc_list.c:276-305 | adding a member at the end once more ends the walk from the head at that member, or sends it in a circle if it was the last |
| `StaticLists.NoLongerList` | src/qc_rt/qc_list.c:276-305 | cells whose walk ends early or circles are the links of no list with more cells |
| `StaticLists.CutLinks` | src/qc_rt/qc_list.c:199-241 | rewriting the two neighbours takes one cell out of the linked sequence |
| `StaticLists.InsertLinks` | src/qc_rt/qc_list.c:308-347 | rewriting the two neighbours puts one cell into the linked sequence |
| `SlotQueues.NBlockQue.Put` | src/qc_rt/qc_utils.c:301-340 | full exactly at limit values, else appends and returns the first free slot, which it took; free and used slots stay a partition |
| `SlotQueues.NBlockQue.Get` | src/qc_rt/qc_utils.c:344-386 | invalid exactly when empty, else the oldest value and its slot, which becomes the last free one |
| `SlotQueues.NumPool.Get` | src/qc_rt/qc_utils.c:68-73 | a number not handed out, or invalid when none is left |
| `SlotQueues.NumPool.Put` | src/qc_rt/qc_utils.c:76-85 | every number not in the pool goes back, but 0 is reported as a failure; the pool stays a list if and only if the number was not in it |
| `EntryLists.EntryList.InsertHead` | src/qc_rt/qc_list.c:482-512 | a new node in front, next and prev mutually inverse, head, tail and count right |
| `EntryLists.EntryList.InsertTail` | src/qc_rt/qc_list.c:515-582 | a new node at the end, also handed out, next and prev mutually inverse, head, tail and count right |
| `EntryLists.EntryList.PopHead` | src/qc_rt/qc_list.c:585-620 | takes the first node; a cursor on it moves on, next and prev mutually inverse, head, tail and count right |
| `EntryLists.EntryList.PopTail` | src/qc_rt/qc_list.c:623-657 | takes the last node; a cursor on it ends, next and prev mutually inverse, head, tail and count right |
| `EntryLists.EntryList.EnumEntry` | src/qc_rt/qc_list.c:667-679 | the node under the cursor, which moves on, next and prev mutually inverse, head, tail and count right |
| `EntryLists.EntryList.RemoveEntry` | src/qc_rt/qc_list.c:688-725 | takes any node out; a cursor on it moves on, next and prev mutually inverse, head, tail and count right |
| `EntryLists.EntryList.MoveDown` | src/qc_rt/qc_list.c:770-797 | the relinking of one move: the node leaves its place and stands in front of the one it is less than |
| `EntryLists.EntryList.InsertSort` | src/qc_rt/qc_list.c:747-817 | terminates for every comparison and relinks the very nodes into the order of the stable insertion sort; for a comparison that is a total preorder no node compares greater than a later one, the nodes are a permutation, and those that compare 0 keep their order |
| `StableSort.SortIsStable` | src/qc_rt/qc_list.c:747-817 | for any total preorder the result is sorted, a permutation, and keeps the order of equals |
| `StableSort.StableSortIsUnique` | src/qc_rt/qc_list.c:747-817 | no other sequence is a stable sort of the list |
| `BlockQueues.BoundedFifo` | src/qc_rt/qc_utils.c:491-564 | under every interleaving: at most limit values, what was delivered followed by what is stored is what was accepted, in order |
| `BlockQueues.GetterFinds` | src/qc_rt/qc_utils.c:528-564 | a getter that passed the untested wait always takes the oldest undelivered value |
| `BlockQueues.PutRefusedWhenFull` | src/qc_rt/qc_utils.c:491-524 | a put is refused exactly when all slots are used |
| `BlockQueues.NobodySleepsBesideAnItem` | src/qc_rt/qc_utils.c:536-539 | with cond_lock free no getter sleeps while a value is stored |
| `BlockQueues.SignalKeeps` | src/qc_rt/qc_utils.c:520-521 | threads_mutex lets at most one getter sleep, so a signal has no choice and leaves nobody asleep |
| `BlockQueues.StuckOnlyWhenEmpty` | src/qc_rt/qc_utils.c:491-564 | if no thread can move, all that is inside are getters and the queue is empty |
| `BlockQueues.SpuriousWakeMisses` | src/qc_rt/qc_utils.c:536-549 | why the wait must not return unsignalled: such a getter reports a missing value |
| `BlockHistory.CallersAgree` | src/qc_rt/qc_utils.c:491-564 | over every run: stored and delivered are the values that callers put, in the order in which their puts found room; a put reports a full queue exactly if it found none; a get returns the value whose turn it was |
| `ShmQueues.EverySlotInOnePlace` | src/qc_shq/qc_shq_que.c:169-286 | every slot is free, used, or in the hands of exactly one pusher or puller |
| `ShmQueues.SemaphoresAgree` | src/qc_shq/qc_shq_que.c:169-286 | sem_lst admits one user at a time; with it free, sem_que plus the pullers past it is the number of used slots |
| `ShmQueues.PullAlwaysFinds` | src/qc_shq/qc_shq_que.c:200-210 | a puller past sem_que always takes the oldest published slot; the error branch for an empty list is dead |
| `ShmQueues.FirstInFirstOut` | src/qc_shq/qc_shq_que.c:202-216 | slots come out in the order of publication, and length and data stay as published until the puller gives the slot back |
| `ShmHistory.PullersSeeWhatWasPushed` | src/qc_shq/qc_shq_que.c:202-281 | over every run what is published has the length that push_end was given and the data its caller wrote last, in the order of adding; pullers take in that order, and each sees the length and data of the push whose turn it got |
| `ShmHistory.PushersSeeMessageSize` | src/qc_shq/qc_shq_que.c:254-259 | a pusher finds its slot with the full message size as its length |
| `ShmHistory.SlotsInTurn` | src/qc_shq/qc_shq_que.c:227-249 | free slots are handed out in order, first all of them and then as they were given back |
| `ShmHistory.CallReports` | src/qc_shq/qc_shq_que.c:188-284 | a call returns -1 exactly if it is a pull that timed out or a push that found no free slot |
| `ShmQueues.PushRefusedWhenTaken` | src/qc_shq/qc_shq_que.c:240-252 | push_begin fails exactly when every slot is used or in somebody's hands |
| `ShmQueues.StuckOnlyWhenEmpty` | src/qc_shq/qc_shq_que.c:169-286 | if nothing can move and no caller holds a slot, all that is inside waits on an empty queue |
| `ShmLayouts.CalcShmSize` | src/qc_shq/qc_shq_mem.c:44-72 | the size added up ahead is the end of the last queue, also when size_t wraps |
| `ShmLayouts.ShmQueueInit` | src/qc_shq/qc_shq_que.c:38-88 | refused exactly for a size that is not positive; else the header fields and the offset behind the queue |
| `ShmLayouts.InitAll` | src/qc_shq/qc_shq_mem.c:85-122 | the offset reached after all queues, and every header as its position determines it |
| `ShmLayouts.Create` | src/qc_shq/qc_shq_mem.c:125-167 | succeeds exactly when every queue size is positive: the final comparison of the two sizes never fails |
| `ShmLayouts.RoomyExactly` | src/qc_shq/qc_shq_conf.c:51-62 | a slot keeps room after its size is narrowed to int unless the low 32 bits of msgsize lie between 2^31 and 2^32 - 8, which the assertions of qc_shm_config_addque admit |
| `ShmLayouts.PartsInOrder` | src/qc_shq/qc_shq_que.c:41-77 | for queue sizes above 0 the headers, cell arrays, margins and message regions follow one another if and only if every queue has room in its slots |
| `ShmLayouts.NarrowedRegionIsNegative` | src/qc_shq/qc_shq_mem.c:62-68 | for msgsize 4294967196 they do not: the message region of an accepted queue ends before it begins |
| `ShmLayouts.SizeInBytes` | src/qc_shq/qc_shq_mem.c:48-69 | the size in bytes, queue by queue: 364 of header, 8 for each cell of two lists, 8 + (int)msgsize for each slot, two margins of 512; 8 for the segment |
| `ShmLayouts.HeaderSays` | src/qc_shq/qc_shq_que.c:44-73 | the header of a queue holds its number, its sizes, its name if that fits, and where its cells and its slots begin, in bytes |
| `ShmLayouts.PartsTile` | src/qc_shq/qc_shq_que.c:41-83 | with room in every slot (8 + (int)msgsize > 0, the condition of PartsInOrder) and a size below 2^63 the parts lie one behind the other from 0 to the size, and the header offsets name them |
| `ShmLayouts.SlotInside` | src/qc_shq/qc_shq_que.c:72-77 | with room in every slot and a size below 2^63 every message slot lies between the margins of its queue |
| `ShmLayouts.RegionEndsAtMargin` | src/qc_shq/qc_shq_que.c:72-77 | with room in every slot and a size below 2^63 the slots fill the message region: its end is where the lower margin begins |
| `ShmLayouts.LengthsInside` | src/qc_shq/qc_shq_que.c:213-216 | the int in front of each message stays in the message region exactly when a slot has at least its 4 bytes |
| `ShmLayouts.SlotsApart` | src/qc_shq/qc_shq_que.c:213-216 | under the same condition different message slots share no byte; across queues two margins lie between them |
| `ShmLayouts.ChainStep` | src/qc_shq/qc_shq_que.c:80-83 | for any sizes next_offset is -1 in the last queue and the next header in the others; it reads as -1 there too exactly if that header lies at -1 modulo 2^64 |
| `ShmLayouts.AllInChain` | src/qc_shq/qc_shq_que.c:80-83 | with room in every slot and a size below 2^63 that never happens: the chain goes through all queues |
| `ShmLayouts.ChainCutShort` | src/qc_shq/qc_shq_que.c:80-83 | it happens for two accepted queues, the first of msgsize 4294965875: the second cannot be reached |
| `ShmLayouts.ShmQueueFind` | src/qc_shq/qc_shq_que.c:116-158 | the first queue of the chain, in configuration order, whose stored name is the one asked for; none exactly when no stored name in the chain is; in a segment without queues it reads behind the end |
| `ShmLayouts.NameSurvives` | src/qc_shq/qc_shq_que.c:44 | the stored name is the configured one exactly when it leaves room for the zero byte, or the bytes of que_sn happen to continue it |
| `PsistFiles.RoundTripInfo` | src/qc_psist/qc_psist_file.c:86-99 | a message head read back is the one written |
| `PsistFiles.InfoBytes` | src/qc_psist/qc_psist_file.c:86-91 | its twelve bytes are flag, priority and length, each most significant byte first |
| `PsistFiles.PsistFile.constructor` | src/qc_psist/qc_psist_file.c:137-162 | a new file holds identity 0, version 1 and the two sizes in sixteen bytes, then zeros, and has every slot out of use |
| `PsistFiles.PsistFile.Append` | src/qc_psist/qc_psist_file.c:214-246 | body then head are written at the place the id gives, whatever the length of the body; -1 and no change for an empty one; a record that fits goes into its slot and changes no other |
| `PsistFiles.AppendBytes` | src/qc_psist/qc_psist_file.c:219-237 | byte by byte: slot id begins at 16 + id * (12 + msgbuff_size), with the head and then the payload; nothing else changes |
| `PsistFiles.RemoveBytes` | src/qc_psist/qc_psist_file.c:249-271 | a removal writes twelve zero bytes there and nothing else |
| `PsistFiles.OnlyItsSlot` | src/qc_psist/qc_psist_file.c:219-237 | an append leaves every byte outside its slot alone exactly when the body fits the slot, or its excess repeats the bytes behind it |
| `PsistFiles.PsistFile.Remove` | src/qc_psist/qc_psist_file.c:249-275 | empties the slot and changes no other |
| `PsistFiles.AppendRecords` | src/qc_psist/qc_psist_file.c:219-237 | at byte level: body and head written, exactly one record differs |
| `PsistFiles.InterruptedAppend` | src/qc_psist/qc_psist_file.c:222-228 | stopping after any part of the body changes at most the slot itself, and keeps the file sound |
| `PsistFiles.InterruptionIsUnnoticed` | src/qc_psist/qc_psist_file.c:222-241 | a stop between the writes leaves the live records as before exactly when the slot was out of use or the bytes repeat the old body |
| `PsistFiles.UnnoticedInUnused` | src/qc_psist/qc_psist_file.c:222-241 | no stop of an append to a slot can be noticed, whatever the body, exactly when the slot is out of use |
| `Psists.Psist.constructor` | src/qc_psist/qc_psist.c:46-74 | every number starts in the pool; pool and file agree exactly when the file, new or kept, holds no record |
| `Psists.Psist.Append` | src/qc_psist/qc_psist.c:85-99 | the record goes to the first free number; refused exactly for an empty pool or an empty body, which costs a number; while pool and file agree the slot was out of use, and they go on agreeing |
| `Psists.Psist.Remove` | src/qc_psist/qc_psist.c:102-114 | empties the slot; a number not in the pool goes back to its end, and pool and file go on agreeing; a number still in the pool, as that of every record a kept file brought along, breaks it: only the numbers up to it can still be reached, and the count is one too high |
| `Psists.Psist.InterruptionHides` | src/qc_psist/qc_psist.c:90-94 | while pool and file agree an append that stops inside its body changes no record; otherwise that holds exactly if the next number names a slot out of use |
| `PsistFiles.PsistFile.DoFetch` | src/qc_psist/qc_psist_file.c:291-342 | the next live record in slot order, or the end at the last slot |
| `PsistFiles.PsistFile.FetchAll` | src/qc_psist/qc_psist.c:117-148 | a full fetch returns exactly the live records with id below msgcount_limit-1, in id order |
| `PsistFiles.LiveExactly` | src/qc_psist/qc_psist_file.c:299-338 | which slots and records that sequence contains |
| `PsistFiles.LiveInOrder` | src/qc_psist/qc_psist_file.c:299-338 | that it is in slot order, each slot once |
| `PsistFiles.FetchMissesLastSlot` | src/qc_psist/qc_psist_file.c:300-301 | it is all live records exactly when the last slot is out of use |
| `HashTables.HashString` | src/qc_rt/qc_hash.c:300-329 | the loop with its 32-bit wrap-around computes the sum of base-9 numbers of groups of five folded bytes, modulo 2^32 and the bucket count |
| `HashTables.HashByWeight` | src/qc_rt/qc_hash.c:312-326 | that sum byte by byte: each folded byte times 9 to the number of bytes behind it in its group of five |
| `HashTables.BucketByWeight` | src/qc_rt/qc_hash.c:328 | the bucket of a key is that number modulo 2^32, then modulo the bucket count |
| `HashTables.EqualWhenFolded` | src/qc_rt/qc_hash.c:419-428 | two keys compare equal exactly when their folded bytes are equal |
| `HashTables.SameUpToCase` | src/qc_rt/qc_hash.c:419-428 | that is, when they have the same length and differ at most in the case of letters |
| `HashTables.EqualKeysHashAlike` | src/qc_rt/qc_hash.c:300-329 | equal keys share a bucket |
| `HashTables.HashTbl.Insert` | src/qc_rt/qc_hash.c:161-189 | pushes the value on the stack of its key, and of no other; one entry more |
| `HashTables.HashTbl.Find` | src/qc_rt/qc_hash.c:192-213 | the newest value of the key, or none |
| `HashTables.HashTbl.Delete` | src/qc_rt/qc_hash.c:216-262 | pops the newest value of the key and of no other, or reports that there is none |
| `HashTables.HashTbl.EnumBegin` | src/qc_rt/qc_hash.c:265-269 | stands before the first entry |
| `HashTables.HashTbl.EnumNext` | src/qc_rt/qc_hash.c:272-291 | shows the entry it stands before and moves on; past the last it shows none |
| `HashTables.HashTbl.EnumeratesAll` | src/qc_rt/qc_hash.c:265-291 | a full enumeration shows entry_count entries, every one, each once |

## Left out

- Sockets, client, server, wire formats and the language bindings: plumbing around the queue.
- Wrappers for threads, semaphores, files and shared memory: taken as what POSIX says of them. Error returns of a
  timed wait other than the timeout, deadline arithmetic and failed writes are not modelled.
- Spurious wake-ups: both queues wait once without testing again, so the protocols assume that a wait returns
  signalled or timed out. For the blocking queue `BlockQueues.SpuriousWakeMisses` shows what would happen.
- Out-of-memory paths, destroy functions, logging, error texts, demos and the thin forwarding layers.
- Forced puts in the claim that nobody waits in vain: a forced put does not look at waiting getters.
- Priorities outside the range of the chain: the source asserts on them when it stores a message; the runs of
  `QueueProtocol` put messages of valid priority only.
- Which of several signalled getters fetches which message: the protocol fixes no order, and no claim is made.
- qc_list_removefirst, the peek functions of the static list, qc_hashbin and qc_bincompare: easy members.
- The mutex of the non-blocking queue: its operations are modelled one at a time.
- The unit pool: pointer arithmetic on top of the number pool.
- Reopening a persistent file: the checks of its size and head are not modelled; what the store then makes of a
  file with records is (`Psists.Psist.constructor`).
- PsistFiles.PsistFile.Append: for a payload longer than a slot it states the bytes written, not what the records
  behind the slot then read as; the write of the 12-byte head is atomic.
- Psists.Psist.Remove: what later appends and removals make of a pool that a removal has broken.
- ShmLayouts.PartsTile: segments of 2^63 bytes or more, which an off_t cannot address.
- ShmLayouts.SlotInside: such segments, as for PartsTile.
- ShmLayouts.SlotsApart: such segments, as for PartsTile.
- ShmLayouts.AllInChain: such segments, as for PartsTile.
- ShmLayouts.ShmQueueFind: takes it that the segment still holds the headers as they were written.
- HashTables.HashTbl.Insert: entry_count does not wrap at 2^32.
- HashTables.HashTbl.EnumNext: nothing is said of an enumeration that goes on after an entry was deleted under it.
- HashTables.HashString: bytes are folded as in the "C" locale.
- ShmHistory.PullersSeeWhatWasPushed: nothing is said of the data of a push whose caller wrote none.
- ShmQueues.FirstInFirstOut: appending a slot to the used list and writing its length are one step, as both happen
  inside sem_lst; semaphore names and their creation are not modelled.
- EntryLists.EntryList.RemoveEntry: freeing the node is not modelled; it is no longer reachable from the list.
