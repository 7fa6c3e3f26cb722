/**
 * The layout of the shared segment of src/qc_shq/qc_shq_mem.c and src/qc_shq/qc_shq_que.c: its size is
 * computed before it is created, its offsets while it is filled. Sizes are those of byte-packed structs with
 * an 8-byte off_t; size_t and off_t arithmetic wraps at 2^64.
 */
module ShmLayouts {
  import opened Common

  const TWO_TO_THE_64: int := 0x1_0000_0000_0000_0000
  const SEGMENT_HEADER := 4 + 4
  const STATIC_CELL := 4 + 4
  const STATIC_LIST := 4 * 4 + 8
  const OFF_T := 8
  const LENGTH := 4
  const QUENAME_MAXLEN := 32
  const QUE_HEADER := QUENAME_MAXLEN + 3 * 4 + 2 * 128 + 2 * STATIC_LIST + 2 * OFF_T
  const SAFE_MARGIN := 512
  const NO_NEXT := TWO_TO_THE_64 - 1

  /** queuesize is an int, msgsize an off_t that both computations narrow to int. */
  datatype Config = Config(qname: string, queuesize: int, msgsize: int)

  /** What shm_queue_init leaves in the header of a queue, and where it put the cells of its two lists. */
  datatype Que = Que(base: int, quename: string, sn: nat, queSize: int, msgSize: int,
                     usedCells: int, freeCells: int, dataOffset: int, nextOffset: int)

  function Wrap(x: int): (r: int)
    ensures 0 <= r < TWO_TO_THE_64
  {
    if 0 <= x < TWO_TO_THE_64 then x else x % TWO_TO_THE_64
  }

  /** The narrowing of an off_t to int. */
  function Int32(x: int): (r: int)
    ensures -TWO_TO_THE_31 <= r < TWO_TO_THE_31
    ensures 0 <= x < TWO_TO_THE_31 ==> r == x
  {
    var low := x % TWO_TO_THE_32;
    if low < TWO_TO_THE_31 then low else low - TWO_TO_THE_32
  }

  /** The bytes of all message slots of a queue. */
  function DataBytes(c: Config): int {
    c.queuesize * (OFF_T + Int32(c.msgsize))
  }

  function CellBytes(c: Config): int {
    c.queuesize * STATIC_CELL
  }

  /** Everything a queue occupies, header included. */
  function QueBytes(c: Config): int {
    QUE_HEADER + 2 * CellBytes(c) + SAFE_MARGIN + DataBytes(c) + SAFE_MARGIN
  }

  /** Where the header of queue k goes; Base(confs, |confs|) is the size of the segment. */
  function Base(confs: seq<Config>, k: nat): int
    requires k <= |confs|
  {
    if k == 0 then SEGMENT_HEADER else Base(confs, k - 1) + QueBytes(confs[k - 1])
  }

  /** One += on a wrapping counter that stands for the exact value at. */
  method Advance(x: int, n: int, ghost at: int) returns (r: int)
    requires x == Wrap(at)
    ensures r == Wrap(at + n)
  {
    r := Wrap(x + n);
  }

  /** calc_shmsize: all headers first, then queue by queue. */
  method CalcShmSize(confs: seq<Config>) returns (size: int)
    ensures size == Wrap(Base(confs, |confs|))
  {
    ghost var at := SEGMENT_HEADER;
    size := SEGMENT_HEADER;
    size := Advance(size, QUE_HEADER * |confs|, at);
    at := at + QUE_HEADER * |confs|;
    for i := 0 to |confs|
      invariant size == Wrap(at) && at == Base(confs, i) + QUE_HEADER * (|confs| - i)
    {
      var c := confs[i];
      var queSize, msgSize := c.queuesize, Int32(c.msgsize);
      size := Advance(size, queSize * STATIC_CELL * 2, at);
      size := Advance(size, queSize * (OFF_T + msgSize), at + 2 * CellBytes(c));
      size := Advance(size, SAFE_MARGIN * 2, at + 2 * CellBytes(c) + DataBytes(c));
      at := at + 2 * CellBytes(c) + DataBytes(c) + 2 * SAFE_MARGIN;
    }
  }

  /** The string strcmp sees in the header: a name that fills the field runs on into the bytes of que_sn. */
  function StoredName(qname: string, sn: nat): string {
    if |qname| < QUENAME_MAXLEN then qname else qname[..QUENAME_MAXLEN] + UpToZero(sn)
  }

  /** The little-endian bytes of que_sn before the first zero byte. */
  function UpToZero(sn: nat): string {
    if sn % 256 == 0 then [] else [(sn % 256) as char] + UpToZero(sn / 256)
  }

  /** A queue header written at the wrapped value of base. */
  function QueAt(base: int, c: Config, queNum: nat, sn: nat): Que {
    Que(Wrap(base), StoredName(c.qname, sn), sn, c.queuesize, Int32(c.msgsize),
        Wrap(base + QUE_HEADER), Wrap(base + QUE_HEADER + CellBytes(c)),
        Wrap(base + QUE_HEADER + 2 * CellBytes(c) + SAFE_MARGIN),
        if sn + 1 == queNum then NO_NEXT else Wrap(base + QueBytes(c)))
  }

  /** The header of queue k, whose place the sizes of the queues before it determine. */
  function QueOf(confs: seq<Config>, k: nat): Que
    requires k < |confs|
  {
    QueAt(Base(confs, k), confs[k], |confs|, k)
  }

  /** The headers of the first n queues. */
  function Queues(confs: seq<Config>, n: nat): (r: seq<Que>)
    requires n <= |confs|
    ensures |r| == n && forall k | 0 <= k < n :: r[k] == QueOf(confs, k)
  {
    if n == 0 then [] else Queues(confs, n - 1) + [QueOf(confs, n - 1)]
  }

  /** shm_queue_init up to the semaphores; None for a size qc_staticlist_init refuses. */
  method ShmQueueInit(offset: int, c: Config, queNum: nat, sn: nat, ghost base: int)
    returns (que: Option<Que>, end: int)
    requires offset == Wrap(base)
    ensures que.None? <==> c.queuesize <= 0
    ensures que.Some? ==> que.value == QueAt(base, c, queNum, sn) && end == Wrap(base + QueBytes(c))
  {
    ghost var at := base + QUE_HEADER;
    var used := Advance(offset, QUE_HEADER, base);
    var queSize, msgSize := c.queuesize, Int32(c.msgsize);
    if queSize <= 0 {
      return None, used;
    }
    var free := Advance(used, c.queuesize * STATIC_CELL, at);
    end := Advance(free, c.queuesize * STATIC_CELL, at + CellBytes(c));
    at := at + 2 * CellBytes(c);
    var data := Advance(end, SAFE_MARGIN, at);
    end := Advance(data, queSize * (OFF_T + msgSize), at + SAFE_MARGIN);
    end := Advance(end, SAFE_MARGIN, at + SAFE_MARGIN + DataBytes(c));
    var next := if sn + 1 == queNum then NO_NEXT else end;
    que := Some(Que(offset, StoredName(c.qname, sn), sn, queSize, msgSize, used, free, data, next));
  }

  /** One turn of the loop in init_all_shmque. */
  method InitNext(confs: seq<Config>, i: nat, before: seq<Que>, at: int) returns (ok: bool, ques: seq<Que>, offset: int)
    requires i < |confs| && at == Wrap(Base(confs, i)) && before == Queues(confs, i)
    ensures ok <==> confs[i].queuesize > 0
    ensures ok ==> offset == Wrap(Base(confs, i + 1)) && ques == Queues(confs, i + 1)
  {
    var que, end := ShmQueueInit(at, confs[i], |confs|, i, Base(confs, i));
    if que.None? {
      return false, before, end;
    }
    return true, before + [que.value], end;
  }

  /** init_shmhead and init_all_shmque: the headers written, and the final offset. */
  method InitAll(confs: seq<Config>) returns (ret: int, ques: seq<Que>, offset: int)
    ensures ret == if forall i | 0 <= i < |confs| :: confs[i].queuesize > 0 then 0 else -1
    ensures ret == 0 ==> offset == Wrap(Base(confs, |confs|)) && ques == Queues(confs, |confs|)
  {
    ques := [];
    offset := Advance(0, SEGMENT_HEADER, 0);
    for i := 0 to |confs|
      invariant offset == Wrap(Base(confs, i)) && ques == Queues(confs, i)
      invariant forall j | 0 <= j < i :: confs[j].queuesize > 0
    {
      var ok;
      ok, ques, offset := InitNext(confs, i, ques, offset);
      if !ok {
        return -1, ques, offset;
      }
    }
    ret := 0;
  }

  /** qc_shqmem_create: None where it gives up, be it a refused queue or the final comparison of the sizes. */
  method Create(confs: seq<Config>) returns (ques: Option<seq<Que>>)
    ensures ques == if forall i | 0 <= i < |confs| :: confs[i].queuesize > 0 then Some(Queues(confs, |confs|)) else None
  {
    var size := CalcShmSize(confs);
    var ret, written, offset := InitAll(confs);
    if ret != 0 {
      return None;
    }
    if size != offset {
      return None;
    }
    return Some(written);
  }

  // ---- The regions ----

  /** What qc_shm_config_addque asserts of the sizes of a queue. */
  predicate Accepted(c: Config) {
    c.queuesize > 0 && c.msgsize > 0
  }

  /** A slot still has bytes after its size was narrowed to an int. */
  predicate Roomy(c: Config) {
    OFF_T + Int32(c.msgsize) > 0
  }

  /** The sizes for which the narrowing leaves no room: those with these values in their low 32 bits. */
  lemma RoomyExactly(c: Config)
    ensures Roomy(c) <==> !(TWO_TO_THE_31 <= c.msgsize % TWO_TO_THE_32 <= TWO_TO_THE_32 - OFF_T)
  {
  }

  predicate Proper(c: Config) {
    c.queuesize > 0 && Roomy(c)
  }

  /** Queues with room in every slot, in a segment that an off_t can address. */
  ghost predicate Fits(confs: seq<Config>) {
    (forall i | 0 <= i < |confs| :: Proper(confs[i])) && Base(confs, |confs|) < TWO_TO_THE_64 / 2
  }

  /** Where the parts of one queue end: header, used cells, free cells, margin, message slots, margin. */
  function Cuts(base: int, c: Config): seq<int> {
    var lists := base + QUE_HEADER + 2 * CellBytes(c);
    [base + QUE_HEADER, base + QUE_HEADER + CellBytes(c), lists, lists + SAFE_MARGIN,
     lists + SAFE_MARGIN + DataBytes(c), lists + SAFE_MARGIN + DataBytes(c) + SAFE_MARGIN]
  }

  /** Every place in the first n queues where one part ends and the next begins. */
  function Marks(confs: seq<Config>, n: nat): seq<int>
    requires n <= |confs|
  {
    if n == 0 then [0, SEGMENT_HEADER] else Marks(confs, n - 1) + Cuts(Base(confs, n - 1), confs[n - 1])
  }

  ghost predicate Increasing(s: seq<int>) {
    forall i, j | 0 <= i < j < |s| :: s[i] < s[j]
  }

  lemma ProperBytes(c: Config)
    requires Proper(c)
    ensures CellBytes(c) >= STATIC_CELL && DataBytes(c) > 0
  {
  }

  lemma SignOfProduct(n: int, width: int)
    requires n > 0
    ensures n * width > 0 <==> width > 0
  {
    if width < 0 {
      assert n * -width > 0;
    }
  }

  lemma {:induction false} MarksIncrease(confs: seq<Config>, n: nat)
    requires n <= |confs| && forall i | 0 <= i < n :: Proper(confs[i])
    ensures var m := Marks(confs, n);
      |m| == 2 + 6 * n && Increasing(m) && m[0] == 0 && m[|m| - 1] == Base(confs, n)
  {
    if n == 0 {
    } else {
      MarksIncrease(confs, n - 1);
      ProperBytes(confs[n - 1]);
      var m, c := Marks(confs, n - 1), Cuts(Base(confs, n - 1), confs[n - 1]);
      assert Increasing(c) && m[|m| - 1] < c[0];
      forall i, j | 0 <= i < j < |m + c| ensures (m + c)[i] < (m + c)[j] {
        assert i < |m| ==> m[i] <= m[|m| - 1];
        assert j >= |m| ==> c[0] <= c[j - |m|];
      }
    }
  }

  lemma {:induction false} MarksOfQueue(confs: seq<Config>, n: nat, k: nat)
    requires k < n <= |confs|
    ensures var m, c := Marks(confs, n), Cuts(Base(confs, k), confs[k]);
      && |m| == 2 + 6 * n && m[1 + 6 * k] == Base(confs, k)
      && m[2 + 6 * k] == c[0] && m[3 + 6 * k] == c[1] && m[4 + 6 * k] == c[2]
      && m[5 + 6 * k] == c[3] && m[6 + 6 * k] == c[4] && m[7 + 6 * k] == c[5]
  {
    if n == 1 {
    } else if k < n - 1 {
      MarksOfQueue(confs, n - 1, k);
    } else {
      MarksOfQueue(confs, n - 1, k - 1);
    }
  }

  lemma OrderedHasRoom(confs: seq<Config>, k: nat)
    requires k < |confs| && confs[k].queuesize > 0 && Increasing(Marks(confs, |confs|))
    ensures Roomy(confs[k])
  {
    MarksOfQueue(confs, |confs|, k);
    var m, c := Marks(confs, |confs|), confs[k];
    assert m[5 + 6 * k] < m[6 + 6 * k];
    SignOfProduct(c.queuesize, OFF_T + Int32(c.msgsize));
  }

  /** The parts of all queues follow one another if and only if every queue has room in its slots. */
  lemma PartsInOrder(confs: seq<Config>)
    requires forall i | 0 <= i < |confs| :: confs[i].queuesize > 0
    ensures Increasing(Marks(confs, |confs|)) <==> forall i | 0 <= i < |confs| :: Roomy(confs[i])
  {
    if Increasing(Marks(confs, |confs|)) {
      forall i | 0 <= i < |confs| ensures Roomy(confs[i]) {
        OrderedHasRoom(confs, i);
      }
    } else if forall i | 0 <= i < |confs| :: Roomy(confs[i]) {
      MarksIncrease(confs, |confs|);
    }
  }

  /** An accepted queue whose message region ends before it begins; qc_shqmem_create makes the segment all the same. */
  lemma NarrowedRegionIsNegative()
    ensures var c := Config("q", 10, 4294967196);
      && Accepted(c) && Int32(c.msgsize) == -100
      && Cuts(Base([c], 0), c)[4] < Cuts(Base([c], 0), c)[3] && !Increasing(Marks([c], 1))
  {
    var confs := [Config("q", 10, 4294967196)];
    PartsInOrder(confs);
    assert !Roomy(confs[0]);
  }

  lemma WrapSmall(x: int)
    requires 0 <= x < TWO_TO_THE_64
    ensures Wrap(x) == x
  {
  }

  lemma {:induction false} BaseGrows(confs: seq<Config>, k: nat, n: nat)
    requires k <= n <= |confs| && forall i | 0 <= i < n :: Proper(confs[i])
    ensures SEGMENT_HEADER <= Base(confs, k) <= Base(confs, n)
    ensures k < n ==> Base(confs, k) + QueBytes(confs[k]) <= Base(confs, n)
    decreases n
  {
    if n == 0 {
    } else {
      ProperBytes(confs[n - 1]);
      if k < n {
        BaseGrows(confs, k, n - 1);
      } else {
        BaseGrows(confs, k - 1, n - 1);
      }
    }
  }

  /** In a segment that fits no offset wraps. */
  lemma QueExact(confs: seq<Config>, k: nat)
    requires Fits(confs) && k < |confs|
    ensures var q, base, c := QueOf(confs, k), Base(confs, k), confs[k];
      && q.base == base && q.usedCells == base + QUE_HEADER && q.freeCells == base + QUE_HEADER + CellBytes(c)
      && q.dataOffset == base + QUE_HEADER + 2 * CellBytes(c) + SAFE_MARGIN
      && q.nextOffset == if k + 1 == |confs| then NO_NEXT else base + QueBytes(c)
  {
    var base, c := Base(confs, k), confs[k];
    BaseGrows(confs, k, |confs|);
    ProperBytes(c);
    WrapSmall(base);
    WrapSmall(base + QUE_HEADER);
    WrapSmall(base + QUE_HEADER + CellBytes(c));
    WrapSmall(base + QUE_HEADER + 2 * CellBytes(c) + SAFE_MARGIN);
    WrapSmall(base + QueBytes(c));
  }

  /** The header of queue j would lie at the offset that marks the end of the chain. */
  predicate AtTheMark(confs: seq<Config>, j: nat)
    requires j <= |confs|
  {
    Wrap(Base(confs, j)) == NO_NEXT
  }

  /** next_offset is where the next queue begins, and -1 in the last queue, or before one that begins at -1. */
  lemma ChainStep(confs: seq<Config>, k: nat)
    requires k < |confs|
    ensures QueOf(confs, k).nextOffset == if k + 1 == |confs| then NO_NEXT else QueOf(confs, k + 1).base
    ensures QueOf(confs, k).nextOffset == NO_NEXT <==> k + 1 == |confs| || AtTheMark(confs, k + 1)
  {
    assert Base(confs, k + 1) == Base(confs, k) + QueBytes(confs[k]);
  }

  /** Queue k can be reached along the chain of headers. */
  ghost predicate InChain(confs: seq<Config>, k: nat)
    requires k < |confs|
  {
    forall j | 0 < j <= k :: !AtTheMark(confs, j)
  }

  lemma ChainEnds(confs: seq<Config>, k: nat, i: nat)
    requires k < |confs| && i < |confs| && QueOf(confs, k).nextOffset == NO_NEXT && InChain(confs, i)
    ensures i <= k
  {
    ChainStep(confs, k);
  }

  /** In a segment that fits the chain goes through all queues. */
  lemma AllInChain(confs: seq<Config>, k: nat)
    requires Fits(confs) && k < |confs|
    ensures InChain(confs, k)
  {
    forall j | 0 < j <= k ensures !AtTheMark(confs, j) {
      BaseGrows(confs, j, |confs|);
      WrapSmall(Base(confs, j));
    }
  }

  /** Two accepted queues of which the chain holds only the first. */
  lemma ChainCutShort()
    ensures var confs := [Config("a", 1, 4294965875), Config("b", 1, 1)];
      && Accepted(confs[0]) && Accepted(confs[1])
      && QueOf(confs, 0).nextOffset == NO_NEXT && !InChain(confs, 1)
  {
    var confs := [Config("a", 1, 4294965875), Config("b", 1, 1)];
    assert Base(confs, 1) == Base(confs, 0) + QueBytes(confs[0]) == -1;
    assert AtTheMark(confs, 1);
    ChainStep(confs, 0);
  }

  /** In bytes: a header of 8, then for each queue a header, two cell arrays, a margin, its slots and a margin. */
  lemma SizeInBytes(confs: seq<Config>, k: nat)
    requires k < |confs|
    ensures Base(confs, 0) == 8
    ensures var c := confs[k];
      Base(confs, k + 1)
      == Base(confs, k) + 364 + 2 * (c.queuesize * 8) + 512 + c.queuesize * (8 + Int32(c.msgsize)) + 512
  {
  }

  /** What the header of queue k says of it, and where its cells and slots begin. */
  lemma HeaderSays(confs: seq<Config>, k: nat)
    requires Fits(confs) && k < |confs|
    ensures var q, c := QueOf(confs, k), confs[k];
      && q.sn == k && q.queSize == c.queuesize && q.msgSize == Int32(c.msgsize)
      && (|c.qname| < 32 ==> q.quename == c.qname)
      && q.usedCells == Base(confs, k) + 364 && q.freeCells == q.usedCells + c.queuesize * 8
      && q.dataOffset == q.freeCells + c.queuesize * 8 + 512
  {
    QueExact(confs, k);
  }

  /**
   * The parts lie one behind the other from 0 to the size of the segment, so no two share a byte, and the
   * offsets in the headers name where they begin.
   */
  lemma PartsTile(confs: seq<Config>, k: nat)
    requires Fits(confs) && k < |confs|
    ensures var m, q := Marks(confs, |confs|), QueOf(confs, k);
      && |m| == 2 + 6 * |confs| && Increasing(m) && m[0] == 0 && m[|m| - 1] == Base(confs, |confs|)
      && m[1 + 6 * k] == q.base && m[2 + 6 * k] == q.usedCells && m[3 + 6 * k] == q.freeCells
      && m[5 + 6 * k] == q.dataOffset
  {
    MarksIncrease(confs, |confs|);
    MarksOfQueue(confs, |confs|, k);
    QueExact(confs, k);
  }

  /** Where push and pull put message slot i of a queue: its stored length, then msg_size bytes. */
  function SlotOffset(q: Que, i: nat): int {
    q.dataOffset + (OFF_T + q.msgSize) * i
  }

  lemma SlotsInOrder(width: int, i: nat, j: nat)
    requires width >= 0 && i < j
    ensures 0 <= width * i && width * i + width <= width * j
  {
    assert width * i + width == width * (i + 1) && width * (i + 1) <= width * j;
  }

  lemma Commutes(x: int, y: int)
    ensures x * y == y * x
  {
  }

  /** A message slot lies between the margins of its queue. */
  lemma SlotInside(confs: seq<Config>, k: nat, i: nat)
    requires Fits(confs) && k < |confs| && i < confs[k].queuesize
    ensures var q := QueOf(confs, k);
      && Base(confs, k) + QUE_HEADER + 2 * CellBytes(confs[k]) + SAFE_MARGIN <= SlotOffset(q, i)
      && SlotOffset(q, i) + OFF_T + q.msgSize <= Base(confs, k) + QueBytes(confs[k]) - SAFE_MARGIN
  {
    QueExact(confs, k);
    var q := QueOf(confs, k);
    SlotsInOrder(OFF_T + q.msgSize, i, q.queSize);
    Commutes(q.queSize, OFF_T + q.msgSize);
  }

  /** Different message slots share no byte, and those of different queues are two margins apart. */
  lemma SlotsApart(confs: seq<Config>, k: nat, i: nat, l: nat, j: nat)
    requires Fits(confs) && k <= l < |confs| && i < confs[k].queuesize && j < confs[l].queuesize
    requires k < l || i < j
    ensures var a, b := QueOf(confs, k), QueOf(confs, l);
      SlotOffset(a, i) + OFF_T + a.msgSize + (if k < l then 2 * SAFE_MARGIN else 0) <= SlotOffset(b, j)
  {
    if k == l {
      SlotsInOrder(OFF_T + Int32(confs[k].msgsize), i, j);
    } else {
      SlotInside(confs, k, i);
      SlotInside(confs, l, j);
      BaseGrows(confs, k, l);
      ProperBytes(confs[l]);
    }
  }

  /** The end of the message region of a queue. */
  function RegionEnd(q: Que): int {
    q.dataOffset + q.queSize * (OFF_T + q.msgSize)
  }

  lemma RegionEndsAtMargin(confs: seq<Config>, k: nat)
    requires Fits(confs) && k < |confs|
    ensures RegionEnd(QueOf(confs, k)) == Cuts(Base(confs, k), confs[k])[4]
  {
    QueExact(confs, k);
    var q, c := QueOf(confs, k), confs[k];
    EqualProducts(q.queSize, OFF_T + q.msgSize, c.queuesize, OFF_T + Int32(c.msgsize));
  }

  lemma EqualProducts(a: int, b: int, c: int, d: int)
    requires a == c && b == d
    ensures a * b == c * d
  {
  }

  /**
   * The int in front of a message stays in the message region for every slot, if and only if a slot has at
   * least its four bytes.
   */
  lemma LengthsInside(q: Que)
    requires q.queSize > 0 && OFF_T + q.msgSize > 0
    ensures (forall i: nat | i < q.queSize :: SlotOffset(q, i) + LENGTH <= RegionEnd(q)) <==>
            OFF_T + q.msgSize >= LENGTH
  {
    LastDecides(q.dataOffset, OFF_T + q.msgSize, q.queSize);
    if forall i: nat | i < q.queSize :: SlotOffset(q, i) + LENGTH <= RegionEnd(q) {
      var at, width := q.dataOffset, OFF_T + q.msgSize;
      forall i: nat | i < q.queSize ensures at + width * i + LENGTH <= at + q.queSize * width {
        assert SlotOffset(q, i) + LENGTH <= RegionEnd(q);
      }
    }
  }

  /** Of n places width apart all leave LENGTH bytes before the end if and only if the last one does. */
  lemma LastDecides(at: int, width: int, n: int)
    requires n > 0 && width > 0
    ensures (forall i: nat | i < n :: at + width * i + LENGTH <= at + n * width) <==> width >= LENGTH
  {
    var last: nat := n - 1;
    Commutes(n, width);
    assert width * n == width * last + width;
    if width >= LENGTH {
      forall i: nat | i < n ensures at + width * i + LENGTH <= at + n * width {
        SlotsInOrder(width, i, n);
      }
    } else {
      assert at + width * last + LENGTH > at + n * width;
    }
  }

  // ---- The chain of headers ----

  /** The segment holds the headers that InitAll wrote, and no others. */
  ghost predicate Holds(mem: map<int, Que>, confs: seq<Config>) {
    && mem.Keys == (set k | 0 <= k < |confs| :: QueOf(confs, k).base)
    && forall k {:trigger QueOf(confs, k)} | 0 <= k < |confs| :: mem[QueOf(confs, k).base] == QueOf(confs, k)
  }

  lemma FirstHeader(mem: map<int, Que>, confs: seq<Config>)
    requires Holds(mem, confs)
    ensures SEGMENT_HEADER in mem <==> confs != []
    ensures confs != [] ==> mem[SEGMENT_HEADER] == QueOf(confs, 0)
  {
    if confs != [] {
      assert QueOf(confs, 0).base in mem.Keys;
    }
  }

  lemma NextHeader(mem: map<int, Que>, confs: seq<Config>, k: nat)
    requires Holds(mem, confs) && k < |confs| && QueOf(confs, k).nextOffset != NO_NEXT && InChain(confs, k)
    ensures k + 1 < |confs| && InChain(confs, k + 1)
    ensures QueOf(confs, k).nextOffset in mem && mem[QueOf(confs, k).nextOffset] == QueOf(confs, k + 1)
  {
    ChainStep(confs, k);
    assert QueOf(confs, k + 1).base in mem.Keys;
  }

  /** What a search for a queue ends with. BeyondEnd: the first header would lie behind the segment. */
  datatype Lookup = Found(que: Que) | NotFound | BeyondEnd

  /**
   * shm_queue_find: the first queue of the chain, in configuration order, whose stored name is the one asked
   * for. The first header is read unasked; in a segment without queues there is none.
   */
  method ShmQueueFind(mem: map<int, Que>, name: string, ghost confs: seq<Config>) returns (r: Lookup)
    requires Holds(mem, confs)
    ensures r.BeyondEnd? <==> confs == []
    ensures r.NotFound? <==>
            confs != [] && forall k | 0 <= k < |confs| && InChain(confs, k) :: StoredName(confs[k].qname, k) != name
    ensures r.Found? ==> exists k | 0 <= k < |confs| && InChain(confs, k) ::
              && r.que == QueOf(confs, k) && StoredName(confs[k].qname, k) == name
              && forall j | 0 <= j < k :: StoredName(confs[j].qname, j) != name
  {
    FirstHeader(mem, confs);
    if SEGMENT_HEADER !in mem {
      return BeyondEnd;
    }
    ghost var k := 0;
    var que := mem[SEGMENT_HEADER];
    while true
      invariant 0 <= k < |confs| && que == QueOf(confs, k) && InChain(confs, k)
      invariant forall j | 0 <= j < k :: StoredName(confs[j].qname, j) != name
      decreases |confs| - k
    {
      if que.quename == name {
        return Found(que);
      }
      if que.nextOffset == NO_NEXT {
        forall i | 0 <= i < |confs| && InChain(confs, i) ensures i <= k {
          ChainEnds(confs, k, i);
        }
        return NotFound;
      }
      NextHeader(mem, confs, k);
      que, k := mem[que.nextOffset], k + 1;
    }
  }

  /** The stored name is the configured one exactly for names that leave room for the final zero byte, or by luck. */
  lemma NameSurvives(qname: string, sn: nat)
    ensures StoredName(qname, sn) == qname <==> |qname| < QUENAME_MAXLEN || qname[QUENAME_MAXLEN..] == UpToZero(sn)
  {
    if |qname| >= QUENAME_MAXLEN {
      assert qname == qname[..QUENAME_MAXLEN] + qname[QUENAME_MAXLEN..];
      var stored := StoredName(qname, sn);
      assert stored[QUENAME_MAXLEN..] == UpToZero(sn);
    }
  }
}
