/**
 * The slot file of src/qc_psist/qc_psist_file.c, byte by byte: a 16-byte head, then msgcount_limit slots of
 * a 12-byte message head and msgbuff_size bytes of body. Heads are stored most significant byte first.
 */
module PsistFiles {
  import opened Common

  const FILE_HEAD := 4 * 4
  const MSG_HEAD := 3 * 4

  // ---- Numbers and message heads on disk ----

  predicate IsInt32(x: int) {
    -TWO_TO_THE_31 <= x < TWO_TO_THE_31
  }

  /** htonl of a 32-bit int, as the file keeps it. */
  function Encode32(x: int): (r: seq<Byte>)
    ensures |r| == 4
  {
    var u := x % TWO_TO_THE_32;
    [u / 0x100_0000, u / 0x1_0000 % 256, u / 0x100 % 256, u % 256]
  }

  function Decode32(b: seq<Byte>): (x: int)
    requires |b| == 4
    ensures IsInt32(x)
  {
    var b0: int, b1: int, b2: int, b3: int := b[0], b[1], b[2], b[3];
    var u := ((b0 * 256 + b1) * 256 + b2) * 256 + b3;
    if u < TWO_TO_THE_31 then u else u - TWO_TO_THE_32
  }

  lemma RoundTrip32(x: int)
    requires IsInt32(x)
    ensures Decode32(Encode32(x)) == x
  {
    var u := x % TWO_TO_THE_32;
    assert u / 0x1_0000 == u / 0x100 / 256;
    assert u / 0x100_0000 == u / 0x1_0000 / 256;
  }

  datatype MsgInfo = MsgInfo(flag: int, priority: int, bufflen: int)

  function EncodeInfo(h: MsgInfo): (r: seq<Byte>)
    ensures |r| == MSG_HEAD
  {
    Encode32(h.flag) + Encode32(h.priority) + Encode32(h.bufflen)
  }

  function DecodeInfo(b: seq<Byte>): (h: MsgInfo)
    requires |b| == MSG_HEAD
  {
    MsgInfo(Decode32(b[..4]), Decode32(b[4..8]), Decode32(b[8..]))
  }

  lemma RoundTripInfo(h: MsgInfo)
    requires IsInt32(h.flag) && IsInt32(h.priority) && IsInt32(h.bufflen)
    ensures DecodeInfo(EncodeInfo(h)) == h
  {
    var b := EncodeInfo(h);
    assert b[..4] == Encode32(h.flag) && b[4..8] == Encode32(h.priority) && b[8..] == Encode32(h.bufflen);
    RoundTrip32(h.flag);
    RoundTrip32(h.priority);
    RoundTrip32(h.bufflen);
  }

  /** The number four bytes stand for, most significant byte first. */
  function BigEndian(b: seq<Byte>): nat
    requires |b| == 4
  {
    var b0: int, b1: int, b2: int := b[0], b[1], b[2];
    b0 * 0x100_0000 + b1 * 0x1_0000 + b2 * 0x100 + b[3]
  }

  lemma EncodeIsBigEndian(x: int)
    ensures BigEndian(Encode32(x)) == x % 0x1_0000_0000
  {
    var u := x % TWO_TO_THE_32;
    assert u / 0x1_0000 == u / 0x100 / 256;
    assert u / 0x100_0000 == u / 0x1_0000 / 256;
  }

  /** The twelve bytes of a message head: flag, priority and length, each most significant byte first. */
  lemma InfoBytes(h: MsgInfo)
    ensures var b := EncodeInfo(h);
      && |b| == 12 && BigEndian(b[..4]) == h.flag % 0x1_0000_0000
      && BigEndian(b[4..8]) == h.priority % 0x1_0000_0000 && BigEndian(b[8..12]) == h.bufflen % 0x1_0000_0000
  {
    var b := EncodeInfo(h);
    assert b[..4] == Encode32(h.flag) && b[4..8] == Encode32(h.priority) && b[8..12] == Encode32(h.bufflen);
    EncodeIsBigEndian(h.flag);
    EncodeIsBigEndian(h.priority);
    EncodeIsBigEndian(h.bufflen);
  }

  // ---- Slots ----

  datatype Record = Record(priority: int, payload: seq<Byte>)

  function Width(buffSize: nat): nat {
    MSG_HEAD + buffSize
  }

  function SlotStart(buffSize: nat, id: nat): nat {
    FILE_HEAD + id * Width(buffSize)
  }

  lemma SlotsInOrder(buffSize: nat, a: nat, b: nat)
    requires a < b
    ensures SlotStart(buffSize, a) + Width(buffSize) <= SlotStart(buffSize, b)
    ensures SlotStart(buffSize, a + 1) == SlotStart(buffSize, a) + Width(buffSize)
  {
    assert (a + 1) * Width(buffSize) <= b * Width(buffSize);
  }

  /** The bytes of a slot. */
  function Slot(bytes: seq<Byte>, buffSize: nat, id: nat): (s: seq<Byte>) {
    var at := SlotStart(buffSize, id);
    if at + Width(buffSize) <= |bytes| then bytes[at..at + Width(buffSize)] else []
  }

  /** The record a slot holds; flag 0 means that it is not in use. */
  function RecordIn(slot: seq<Byte>): Option<Record> {
    if |slot| < MSG_HEAD || DecodeInfo(slot[..MSG_HEAD]).flag == 0 then None
    else
      var h := DecodeInfo(slot[..MSG_HEAD]);
      var end := MSG_HEAD + h.bufflen;
      Some(Record(h.priority, if MSG_HEAD <= end <= |slot| then slot[MSG_HEAD..end] else []))
  }

  /** A slot out of use, or one whose stored length fits it. */
  predicate Sound(slot: seq<Byte>) {
    && |slot| >= MSG_HEAD
    && var h := DecodeInfo(slot[..MSG_HEAD]);
       h.flag == 0 || (h.flag == 1 && 0 < h.bufflen <= |slot| - MSG_HEAD)
  }

  /** What the file holds, slot by slot. */
  function Records(bytes: seq<Byte>, buffSize: nat, limit: nat): (r: seq<Option<Record>>)
    ensures |r| == limit
  {
    seq(limit, id requires 0 <= id < limit => RecordIn(Slot(bytes, buffSize, id)))
  }

  ghost predicate AllSound(bytes: seq<Byte>, buffSize: nat, limit: nat) {
    && |bytes| == SlotStart(buffSize, limit)
    && forall id: nat {:trigger Slot(bytes, buffSize, id)} | id < limit :: Sound(Slot(bytes, buffSize, id))
  }

  // ---- Writes ----

  /** bytes with data written over them from at on; a write beyond the end makes them longer. */
  function Over(bytes: seq<Byte>, at: nat, data: seq<Byte>): (r: seq<Byte>)
    requires at <= |bytes|
    ensures |r| == if at + |data| <= |bytes| then |bytes| else at + |data|
  {
    bytes[..at] + data + if at + |data| <= |bytes| then bytes[at + |data|..] else []
  }

  lemma OverAt(bytes: seq<Byte>, at: nat, data: seq<Byte>, i: nat)
    requires at <= |bytes| && i < |Over(bytes, at, data)|
    ensures at <= i < at + |data| ==> Over(bytes, at, data)[i] == data[i - at]
    ensures !(at <= i < at + |data|) ==> i < |bytes| && Over(bytes, at, data)[i] == bytes[i]
  {
  }

  lemma OverPart(bytes: seq<Byte>, lo: nat, hi: nat, skip: nat, data: seq<Byte>)
    requires lo <= hi <= |bytes| && skip + |data| <= hi - lo
    ensures Over(bytes, lo + skip, data)[lo..hi] == Over(bytes[lo..hi], skip, data)
  {
    var x, y := Over(bytes, lo + skip, data)[lo..hi], Over(bytes[lo..hi], skip, data);
    forall i: nat | i < hi - lo ensures x[i] == y[i] {
      OverAt(bytes, lo + skip, data, lo + i);
      OverAt(bytes[lo..hi], skip, data, i);
    }
  }

  /** A write inside one slot is a write to that slot, and leaves the others alone. */
  lemma WriteInSlot(bytes: seq<Byte>, buffSize: nat, limit: nat, id: nat, skip: nat, data: seq<Byte>)
    requires |bytes| == SlotStart(buffSize, limit) && id < limit && skip + |data| <= Width(buffSize)
    ensures SlotStart(buffSize, id) + skip + |data| <= |bytes|
    ensures |Slot(bytes, buffSize, id)| == Width(buffSize)
    ensures var b := Over(bytes, SlotStart(buffSize, id) + skip, data);
      && Slot(b, buffSize, id) == Over(Slot(bytes, buffSize, id), skip, data)
      && forall o: nat {:trigger Slot(b, buffSize, o)} | o < limit && o != id ::
           Slot(b, buffSize, o) == Slot(bytes, buffSize, o)
  {
    SlotsInOrder(buffSize, id, limit);
    OverPart(bytes, SlotStart(buffSize, id), SlotStart(buffSize, id) + Width(buffSize), skip, data);
    var b := Over(bytes, SlotStart(buffSize, id) + skip, data);
    forall o: nat | o < limit && o != id ensures Slot(b, buffSize, o) == Slot(bytes, buffSize, o) {
      OtherSlotStays(bytes, buffSize, limit, id, skip, data, o);
    }
  }

  lemma OtherSlotStays(bytes: seq<Byte>, buffSize: nat, limit: nat, id: nat, skip: nat, data: seq<Byte>, o: nat)
    requires |bytes| == SlotStart(buffSize, limit) && id < limit && skip + |data| <= Width(buffSize)
    requires SlotStart(buffSize, id) + skip + |data| <= |bytes|
    requires o < limit && o != id
    ensures Slot(Over(bytes, SlotStart(buffSize, id) + skip, data), buffSize, o) == Slot(bytes, buffSize, o)
  {
    SlotsInOrder(buffSize, o, limit);
    if o < id {
      SlotsInOrder(buffSize, o, id);
    } else {
      SlotsInOrder(buffSize, id, o);
    }
  }

  /** The head an append writes, and the one a removal writes. */
  function HeadOf(r: Record): (h: MsgInfo) {
    MsgInfo(1, r.priority, |r.payload|)
  }

  const UNUSED := MsgInfo(0, 0, 0)

  /** What fits a slot and a 32-bit head. */
  predicate Fits(r: Record, buffSize: nat) {
    IsInt32(r.priority) && 0 < |r.payload| <= buffSize && IsInt32(buffSize)
  }

  /** The file after the first body bytes of an append, the head not yet written. */
  function BodyWritten(bytes: seq<Byte>, buffSize: nat, limit: nat, id: nat, body: seq<Byte>): (r: seq<Byte>)
    requires |bytes| == SlotStart(buffSize, limit) && id < limit && |body| <= buffSize
    ensures |r| == |bytes|
  {
    SlotsInOrder(buffSize, id, limit);
    Over(bytes, SlotStart(buffSize, id) + MSG_HEAD, body)
  }

  function HeadWritten(bytes: seq<Byte>, buffSize: nat, limit: nat, id: nat, h: MsgInfo): (r: seq<Byte>)
    requires |bytes| == SlotStart(buffSize, limit) && id < limit
    ensures |r| == |bytes|
  {
    SlotsInOrder(buffSize, id, limit);
    Over(bytes, SlotStart(buffSize, id), EncodeInfo(h))
  }

  /** The file after both writes of an append, whatever the length of the body. */
  function Written(bytes: seq<Byte>, buffSize: nat, limit: nat, id: nat, r: Record): (b: seq<Byte>)
    requires |bytes| == SlotStart(buffSize, limit) && id < limit
  {
    SlotsInOrder(buffSize, id, limit);
    Over(Over(bytes, SlotStart(buffSize, id) + MSG_HEAD, r.payload), SlotStart(buffSize, id), EncodeInfo(HeadOf(r)))
  }

  /**
   * Where the bytes of an append that fits its slot go: slot id begins at 16 + id * (12 + buffSize), with the
   * head of flag 1, the priority and the length; the payload follows it; nothing else changes.
   */
  lemma AppendBytes(bytes: seq<Byte>, buffSize: nat, limit: nat, id: nat, r: Record)
    requires |bytes| == SlotStart(buffSize, limit) && id < limit && |r.payload| <= buffSize
    ensures var b, at := Written(bytes, buffSize, limit, id, r), 16 + id * (12 + buffSize);
      && at + 12 + |r.payload| <= |b| == |bytes| == 16 + limit * (12 + buffSize)
      && b[at..at + 12] == EncodeInfo(MsgInfo(1, r.priority, |r.payload|))
      && b[at + 12..at + 12 + |r.payload|] == r.payload
      && b[..at] == bytes[..at] && b[at + 12 + |r.payload|..] == bytes[at + 12 + |r.payload|..]
  {
    SlotsInOrder(buffSize, id, limit);
  }

  /** A removal writes twelve zero bytes where slot id begins, and nothing else. */
  lemma RemoveBytes(bytes: seq<Byte>, buffSize: nat, limit: nat, id: nat)
    requires |bytes| == SlotStart(buffSize, limit) && id < limit
    ensures var b, at := HeadWritten(bytes, buffSize, limit, id, UNUSED), 16 + id * (12 + buffSize);
      && at + 12 <= |b| == |bytes| && b[at..at + 12] == [0, 0, 0, 0, 0, 0, 0, 0, 0, 0, 0, 0]
      && b[..at] == bytes[..at] && b[at + 12..] == bytes[at + 12..]
  {
    SlotsInOrder(buffSize, id, limit);
  }

  /** The bytes outside slot id, and their number, are the same in both files. */
  ghost predicate SameOutside(bytes: seq<Byte>, b: seq<Byte>, buffSize: nat, id: nat) {
    && |b| == |bytes|
    && forall i {:trigger b[i]} | 0 <= i < |b| && !(SlotStart(buffSize, id) <= i < SlotStart(buffSize, id + 1)) ::
         b[i] == bytes[i]
  }

  /**
   * An append leaves everything outside its slot alone if and only if the body fits, or its excess repeats
   * the bytes behind the slot.
   */
  lemma OnlyItsSlot(bytes: seq<Byte>, buffSize: nat, limit: nat, id: nat, r: Record)
    requires |bytes| == SlotStart(buffSize, limit) && id < limit
    ensures var next, excess := SlotStart(buffSize, id + 1), |r.payload| - buffSize;
      SameOutside(bytes, Written(bytes, buffSize, limit, id, r), buffSize, id) <==>
      excess <= 0 || (next + excess <= |bytes| && bytes[next..next + excess] == r.payload[buffSize..])
  {
    var next, excess := SlotStart(buffSize, id + 1), |r.payload| - buffSize;
    var b := Written(bytes, buffSize, limit, id, r);
    SlotsInOrder(buffSize, id, limit);
    if SameOutside(bytes, b, buffSize, id) && excess > 0 {
      forall j: nat | j < excess ensures bytes[next..next + excess][j] == r.payload[buffSize..][j] {
        WrittenAt(bytes, buffSize, limit, id, r, next + j);
      }
    } else if excess <= 0 || (next + excess <= |bytes| && bytes[next..next + excess] == r.payload[buffSize..]) {
      forall i: nat | i < |b| && !(SlotStart(buffSize, id) <= i < next) ensures b[i] == bytes[i] {
        WrittenAt(bytes, buffSize, limit, id, r, i);
        if next <= i < next + excess { assert bytes[next..next + excess][i - next] == r.payload[buffSize..][i - next]; }
      }
    }
  }

  /** Byte i of the file after an append, outside the slot of the append. */
  lemma WrittenAt(bytes: seq<Byte>, buffSize: nat, limit: nat, id: nat, r: Record, i: nat)
    requires |bytes| == SlotStart(buffSize, limit) && id < limit
    requires i < |Written(bytes, buffSize, limit, id, r)|
    requires !(SlotStart(buffSize, id) <= i < SlotStart(buffSize, id + 1))
    ensures var next, excess := SlotStart(buffSize, id + 1), |r.payload| - buffSize;
      && |Written(bytes, buffSize, limit, id, r)| == (if next + excess <= |bytes| then |bytes| else next + excess)
      && (if next <= i < next + excess then Written(bytes, buffSize, limit, id, r)[i] == r.payload[buffSize + i - next]
          else i < |bytes| && Written(bytes, buffSize, limit, id, r)[i] == bytes[i])
  {
    SlotsInOrder(buffSize, id, limit);
    SlotsInOrder(buffSize, id, id + 1);
    OverAt(bytes, SlotStart(buffSize, id) + MSG_HEAD, r.payload, i);
    var half := Over(bytes, SlotStart(buffSize, id) + MSG_HEAD, r.payload);
    OverAt(half, SlotStart(buffSize, id), EncodeInfo(HeadOf(r)), i);
  }

  /** A slot after a complete append holds exactly that record. */
  lemma WholeSlot(slot: seq<Byte>, r: Record, buffSize: nat)
    requires |slot| == Width(buffSize) && Fits(r, buffSize)
    ensures var s := Over(Over(slot, MSG_HEAD, r.payload), 0, EncodeInfo(HeadOf(r)));
      RecordIn(s) == Some(r) && Sound(s)
  {
    var s := Over(Over(slot, MSG_HEAD, r.payload), 0, EncodeInfo(HeadOf(r)));
    assert s[..MSG_HEAD] == EncodeInfo(HeadOf(r));
    RoundTripInfo(HeadOf(r));
    assert s[MSG_HEAD..MSG_HEAD + |r.payload|] == r.payload;
  }

  /** An append puts the record into its slot and changes no other record. */
  lemma AppendRecords(bytes: seq<Byte>, buffSize: nat, limit: nat, id: nat, r: Record)
    requires AllSound(bytes, buffSize, limit) && id < limit && Fits(r, buffSize)
    ensures var b := Written(bytes, buffSize, limit, id, r);
      && AllSound(b, buffSize, limit)
      && Records(b, buffSize, limit) == Records(bytes, buffSize, limit)[id := Some(r)]
  {
    var half := BodyWritten(bytes, buffSize, limit, id, r.payload);
    WriteInSlot(bytes, buffSize, limit, id, MSG_HEAD, r.payload);
    WriteInSlot(half, buffSize, limit, id, 0, EncodeInfo(HeadOf(r)));
    WholeSlot(Slot(bytes, buffSize, id), r, buffSize);
  }

  /** A removal empties its slot and changes no other record. */
  lemma RemoveRecords(bytes: seq<Byte>, buffSize: nat, limit: nat, id: nat)
    requires AllSound(bytes, buffSize, limit) && id < limit
    ensures var b := HeadWritten(bytes, buffSize, limit, id, UNUSED);
      && AllSound(b, buffSize, limit)
      && Records(b, buffSize, limit) == Records(bytes, buffSize, limit)[id := None]
  {
    WriteInSlot(bytes, buffSize, limit, id, 0, EncodeInfo(UNUSED));
    EmptySlot(Slot(bytes, buffSize, id), buffSize);
  }

  lemma EmptySlot(slot: seq<Byte>, buffSize: nat)
    requires |slot| == Width(buffSize)
    ensures var s := Over(slot, 0, EncodeInfo(UNUSED)); RecordIn(s) == None && Sound(s)
  {
    var s := Over(slot, 0, EncodeInfo(UNUSED));
    assert s[..MSG_HEAD] == EncodeInfo(UNUSED);
    RoundTripInfo(UNUSED);
  }

  /** What the slot of an interrupted append holds when only body bytes reached the file. */
  function Torn(was: Option<Record>, body: seq<Byte>): Option<Record> {
    match was
    case None => None
    case Some(r) =>
      var n := if |body| <= |r.payload| then |body| else |r.payload|;
      Some(Record(r.priority, body[..n] + r.payload[n..]))
  }

  lemma TornPart(slot: seq<Byte>, at: nat, end: nat, body: seq<Byte>)
    requires at <= end <= |slot| && at + |body| <= |slot|
    ensures var p := slot[at..end];
      var n := if |body| <= |p| then |body| else |p|;
      Over(slot, at, body)[at..end] == body[..n] + p[n..]
  {
    var s, p := Over(slot, at, body), slot[at..end];
    var n := if |body| <= |p| then |body| else |p|;
    forall i: nat | i < |p| ensures s[at..end][i] == (body[..n] + p[n..])[i] {
      OverAt(slot, at, body, at + i);
    }
  }

  lemma TornSlot(slot: seq<Byte>, body: seq<Byte>, buffSize: nat)
    requires |slot| == Width(buffSize) && Sound(slot) && |body| <= buffSize
    ensures var s := Over(slot, MSG_HEAD, body); RecordIn(s) == Torn(RecordIn(slot), body) && Sound(s)
  {
    var s := Over(slot, MSG_HEAD, body);
    assert s[..MSG_HEAD] == slot[..MSG_HEAD];
    var h := DecodeInfo(slot[..MSG_HEAD]);
    if h.flag != 0 {
      TornPart(slot, MSG_HEAD, MSG_HEAD + h.bufflen, body);
    }
  }

  /** Stopping after some body bytes: only the slot itself can look different. */
  lemma InterruptedAppend(bytes: seq<Byte>, buffSize: nat, limit: nat, id: nat, body: seq<Byte>)
    requires AllSound(bytes, buffSize, limit) && id < limit && |body| <= buffSize
    ensures var b, was := BodyWritten(bytes, buffSize, limit, id, body), Records(bytes, buffSize, limit);
      && AllSound(b, buffSize, limit)
      && Records(b, buffSize, limit) == was[id := Torn(was[id], body)]
  {
    WriteInSlot(bytes, buffSize, limit, id, MSG_HEAD, body);
    TornSlot(Slot(bytes, buffSize, id), body, buffSize);
  }

  /**
   * Crash safety of an append, exactly: a stop between its writes is unnoticed if and only if the slot was
   * out of use or the body bytes written so far repeat those that were there.
   */
  lemma InterruptionIsUnnoticed(bytes: seq<Byte>, buffSize: nat, limit: nat, id: nat, body: seq<Byte>)
    requires AllSound(bytes, buffSize, limit) && id < limit && |body| <= buffSize
    ensures var b, was := BodyWritten(bytes, buffSize, limit, id, body), Records(bytes, buffSize, limit);
      Records(b, buffSize, limit) == was <==>
      was[id].None? || body <= was[id].value.payload || was[id].value.payload <= body
  {
    InterruptedAppend(bytes, buffSize, limit, id, body);
    var was := Records(bytes, buffSize, limit);
    var now := was[id := Torn(was[id], body)];
    assert now[id] == Torn(was[id], body);
    TornIsSame(was[id], body);
    assert was[id := was[id]] == was;
  }

  ghost predicate Unnoticed(bytes: seq<Byte>, buffSize: nat, limit: nat, id: nat, body: seq<Byte>)
    requires |bytes| == SlotStart(buffSize, limit) && id < limit && |body| <= buffSize
  {
    Records(BodyWritten(bytes, buffSize, limit, id, body), buffSize, limit) == Records(bytes, buffSize, limit)
  }

  /** No append into a slot can be noticed before its head is written, if and only if the slot is out of use. */
  lemma UnnoticedInUnused(bytes: seq<Byte>, buffSize: nat, limit: nat, id: nat)
    requires AllSound(bytes, buffSize, limit) && id < limit
    ensures Records(bytes, buffSize, limit)[id].None? <==>
            forall body | |body| <= buffSize :: Unnoticed(bytes, buffSize, limit, id, body)
  {
    var o := Records(bytes, buffSize, limit)[id];
    if o.None? {
      forall body: seq<Byte> | |body| <= buffSize ensures Unnoticed(bytes, buffSize, limit, id, body) {
        InterruptionIsUnnoticed(bytes, buffSize, limit, id, body);
      }
    } else {
      HeadAt(bytes, buffSize, limit, id);
      var other: Byte := if o.value.payload[0] == 0 then 1 else 0;
      InterruptionIsUnnoticed(bytes, buffSize, limit, id, [other]);
      assert !Unnoticed(bytes, buffSize, limit, id, [other]);
    }
  }

  lemma TornIsSame(o: Option<Record>, body: seq<Byte>)
    ensures Torn(o, body) == o <==> o.None? || body <= o.value.payload || o.value.payload <= body
  {
    if o.Some? {
      var p := o.value.payload;
      var n := if |body| <= |p| then |body| else |p|;
      var t := body[..n] + p[n..];
      assert t[..n] == body[..n];
      assert p == p[..n] + p[n..];
      assert t == p <==> body[..n] == p[..n];
    }
  }

  // ---- Fetching ----

  /** The records of slots k .. end - 1 that are in use, with their slot numbers, in order. */
  function LiveFrom(rs: seq<Option<Record>>, k: nat, end: nat): (r: seq<(nat, Record)>)
    requires k <= end <= |rs|
    decreases end - k
  {
    if k == end then []
    else (if rs[k].Some? then [(k, rs[k].value)] else []) + LiveFrom(rs, k + 1, end)
  }

  /** A full fetch stops one slot short of the limit. */
  function Fetchable(rs: seq<Option<Record>>): seq<(nat, Record)> {
    if rs == [] then [] else LiveFrom(rs, 0, |rs| - 1)
  }

  function AllLive(rs: seq<Option<Record>>): seq<(nat, Record)> {
    LiveFrom(rs, 0, |rs|)
  }

  /** A slot is in LiveFrom exactly when it holds a record, and with that record. */
  lemma {:induction false} LiveExactly(rs: seq<Option<Record>>, k: nat, end: nat, id: nat, r: Record)
    requires k <= end <= |rs|
    ensures (id, r) in LiveFrom(rs, k, end) <==> k <= id < end && rs[id] == Some(r)
    decreases end - k
  {
    if k == end {
    } else {
      LiveExactly(rs, k + 1, end, id, r);
    }
  }

  /** Slot numbers in lo .. hi - 1, each larger than those before it. */
  ghost predicate InOrder(l: seq<(nat, Record)>, lo: nat, hi: nat) {
    && (forall i | 0 <= i < |l| :: lo <= l[i].0 < hi)
    && forall i, j | 0 <= i < j < |l| :: l[i].0 < l[j].0
  }

  lemma {:induction false} LiveInOrder(rs: seq<Option<Record>>, k: nat, end: nat)
    requires k <= end <= |rs|
    ensures InOrder(LiveFrom(rs, k, end), k, end)
    decreases end - k
  {
    if k == end {
    } else {
      LiveInOrder(rs, k + 1, end);
      var rest := LiveFrom(rs, k + 1, end);
      if rs[k].Some? {
        assert InOrder([(k, rs[k].value)] + rest, k, end);
      } else {
        assert InOrder(rest, k, end);
        assert LiveFrom(rs, k, end) == rest;
      }
    }
  }

  lemma {:induction false} LiveSplits(rs: seq<Option<Record>>, k: nat, m: nat, end: nat)
    requires k <= m <= end <= |rs|
    ensures LiveFrom(rs, k, end) == LiveFrom(rs, k, m) + LiveFrom(rs, m, end)
    decreases m - k
  {
    if k == m {
    } else {
      LiveSplits(rs, k + 1, m, end);
    }
  }

  /** A full fetch returns every live record if and only if the last slot is out of use. */
  lemma FetchMissesLastSlot(rs: seq<Option<Record>>)
    requires rs != []
    ensures Fetchable(rs) == AllLive(rs) <==> rs[|rs| - 1].None?
  {
    LiveSplits(rs, 0, |rs| - 1, |rs|);
    assert LiveFrom(rs, |rs|, |rs|) == [];
  }

  /** An open file: its bytes and its position. */
  class File {
    var bytes: seq<Byte>
    var pos: nat

    constructor (bytes: seq<Byte>)
      ensures this.bytes == bytes && pos == 0
    {
      this.bytes, pos := bytes, 0;
    }

    method Seek(offset: nat)
      modifies this`pos
      ensures pos == offset
    {
      pos := offset;
    }

    method Write(data: seq<Byte>) returns (n: nat)
      requires pos <= |bytes|
      modifies this
      ensures n == |data| && pos == old(pos) + n && bytes == Over(old(bytes), old(pos), data)
    {
      n := |data|;
      bytes, pos := Over(bytes, pos, data), pos + n;
    }

    method Read(n: nat) returns (data: seq<Byte>)
      requires pos + n <= |bytes|
      modifies this`pos
      ensures pos == old(pos) + n && data == bytes[old(pos)..pos]
    {
      data := bytes[pos..pos + n];
      pos := pos + n;
    }

    method ReadInfo() returns (info: MsgInfo)
      requires pos + MSG_HEAD <= |bytes|
      modifies this`pos
      ensures pos == old(pos) + MSG_HEAD && info == DecodeInfo(bytes[old(pos)..pos])
    {
      var head := Read(MSG_HEAD);
      info := DecodeInfo(head);
    }
  }

  lemma PartOfSlice(bytes: seq<Byte>, lo: nat, hi: nat, a: nat, b: nat)
    requires lo <= hi <= |bytes| && a <= b <= hi - lo
    ensures bytes[lo..hi][a..b] == bytes[lo + a..lo + b]
  {
    var part := bytes[lo..hi];
    assert forall i | a <= i < b :: part[i] == bytes[lo + i];
    assert part[a..b] == bytes[lo + a..lo + b];
  }

  /** What reading at the start of a slot shows of the record in it. */
  lemma HeadAt(bytes: seq<Byte>, buffSize: nat, limit: nat, m: nat)
    requires AllSound(bytes, buffSize, limit) && m < limit
    ensures var at := SlotStart(buffSize, m);
      && at + Width(buffSize) == SlotStart(buffSize, m + 1) <= |bytes|
      && var info := DecodeInfo(bytes[at..at + MSG_HEAD]);
      && (info.flag == 0 ==> Records(bytes, buffSize, limit)[m] == None)
      && (info.flag != 0 ==>
            && 0 < info.bufflen <= buffSize
            && Records(bytes, buffSize, limit)[m]
            == Some(Record(info.priority, bytes[at + MSG_HEAD..at + MSG_HEAD + info.bufflen])))
  {
    var at := SlotStart(buffSize, m);
    SlotsInOrder(buffSize, m, limit);
    var slot := Slot(bytes, buffSize, m);
    assert Sound(slot);
    PartOfSlice(bytes, at, at + Width(buffSize), 0, MSG_HEAD);
    assert slot[0..MSG_HEAD] == slot[..MSG_HEAD];
    var info := DecodeInfo(slot[..MSG_HEAD]);
    if info.flag != 0 {
      PartOfSlice(bytes, at, at + Width(buffSize), MSG_HEAD, MSG_HEAD + info.bufflen);
    }
  }

  class PsistFile {
    const file: File
    const buffSize: nat
    const limit: nat

    ghost predicate Valid()
      reads this, file
    {
      limit > 0 && IsInt32(buffSize) && AllSound(file.bytes, buffSize, limit)
    }

    ghost function Content(): (r: seq<Option<Record>>)
      reads this, file
      ensures |r| == limit
    {
      Records(file.bytes, buffSize, limit)
    }

    /** qc_psist_file_open for a name that does not exist yet: zero bytes, then the file head. */
    constructor (buffSize: nat, limit: nat)
      requires buffSize > 0 && limit > 0 && IsInt32(buffSize) && IsInt32(limit)
      ensures Valid() && fresh(file) && this.buffSize == buffSize && this.limit == limit
      ensures Content() == seq(limit, _ => None)
      ensures |file.bytes| == 16 + limit * (12 + buffSize) && NewBytes(file.bytes, buffSize, limit)
    {
      var zeros: seq<Byte> := seq(FILE_HEAD + limit * Width(buffSize), _ => 0);
      var f := new File(zeros);
      this.buffSize, this.limit, file := buffSize, limit, f;
      new;
      var head := Encode32(0) + Encode32(1) + Encode32(buffSize) + Encode32(limit);
      var _ := file.Write(head);
      BlankSlots(file.bytes, buffSize, limit);
      FileHead(zeros, head, buffSize, limit);
    }

    /**
     * Body first, head second; a message without a body is refused after its empty write. A body that does
     * not fit is written all the same: see OnlyItsSlot.
     */
    method Append(id: nat, r: Record) returns (ret: int)
      requires Valid() && id < limit && IsInt32(r.priority) && IsInt32(|r.payload|)
      modifies file
      ensures ret == if r.payload == [] then -1 else 0
      ensures file.bytes == if ret == 0 then Written(old(file.bytes), buffSize, limit, id, r) else old(file.bytes)
      ensures |r.payload| <= buffSize ==>
                Valid() && Content() == if ret == 0 then old(Content())[id := Some(r)] else old(Content())
    {
      SlotsInOrder(buffSize, id, limit);
      ghost var was := file.bytes;
      var offsetHead := FILE_HEAD + id * (MSG_HEAD + buffSize);
      var offsetBody := offsetHead + MSG_HEAD;
      file.Seek(offsetBody);
      var sz := file.Write(r.payload);
      if sz <= 0 {
        assert file.bytes == was;
        return -1;
      }
      file.Seek(offsetHead);
      sz := file.Write(EncodeInfo(MsgInfo(1, r.priority, |r.payload|)));
      if sz <= 0 {
        return -1;
      }
      if |r.payload| <= buffSize {
        AppendRecords(was, buffSize, limit, id, r);
      }
      return 0;
    }

    method Remove(id: nat) returns (ret: int)
      requires Valid() && id < limit
      modifies file
      ensures Valid() && ret == 0
      ensures file.bytes == HeadWritten(old(file.bytes), buffSize, limit, id, UNUSED)
      ensures Content() == old(Content())[id := None]
    {
      SlotsInOrder(buffSize, id, limit);
      RemoveRecords(file.bytes, buffSize, limit, id);
      file.Seek(FILE_HEAD + id * (MSG_HEAD + buffSize));
      var _ := file.Write(EncodeInfo(UNUSED));
      return 0;
    }

    method FetchReady() returns (ret: int)
      modifies file`pos
      ensures ret == 0 && file.pos == SlotStart(buffSize, 0)
    {
      file.Seek(FILE_HEAD);
      return 0;
    }

    /** One turn of the loop in DoFetch: reads the slot at the position and moves on to the next. */
    method FetchSlot(offset: nat, ghost m: nat) returns (used: bool, id: nat, r: Record)
      requires Valid() && m < limit && offset == file.pos == SlotStart(buffSize, m)
      modifies file`pos
      ensures id == m && file.pos == offset + Width(buffSize) == SlotStart(buffSize, m + 1)
      ensures Content()[m] == if used then Some(r) else None
    {
      HeadAt(file.bytes, buffSize, limit, m);
      SlotNumber(buffSize, m);
      id := (offset - FILE_HEAD) / Width(buffSize);
      var info := file.ReadInfo();
      var next := offset + Width(buffSize);
      if info.flag == 0 {
        file.Seek(file.pos + buffSize);
        return false, id, Record(0, []);
      }
      var buff := file.Read(info.bufflen);
      file.Seek(next);
      return true, id, Record(info.priority, buff);
    }

    /** The next slot in use from the position on, or 1 at the last slot, which is never looked at. */
    method DoFetch(ghost k: nat) returns (ret: int, id: nat, r: Record)
      requires Valid() && k < limit && file.pos == SlotStart(buffSize, k)
      modifies file`pos
      ensures ret == 1 ==> LiveFrom(Content(), k, limit - 1) == [] && file.pos == SlotStart(buffSize, limit - 1)
      ensures ret == 0 ==>
                && k <= id < limit - 1 && file.pos == SlotStart(buffSize, id + 1)
                && LiveFrom(Content(), k, limit - 1) == [(id, r)] + LiveFrom(Content(), id + 1, limit - 1)
      ensures ret == 0 || ret == 1
    {
      var offset := file.pos;
      ghost var m := k;
      while true
        invariant k <= m < limit && offset == file.pos == SlotStart(buffSize, m)
        invariant LiveFrom(Content(), k, limit - 1) == LiveFrom(Content(), m, limit - 1)
        decreases limit - m
      {
        SameStart(buffSize, m, limit - 1);
        if offset == SlotStart(buffSize, limit - 1) {
          return 1, 0, Record(0, []);
        }
        var used;
        used, id, r := FetchSlot(offset, m);
        if used {
          return 0, id, r;
        }
        offset := offset + Width(buffSize);
        m := m + 1;
      }
    }

    /** The loop of qc_psist_loadqueue: fetch until the end. */
    method FetchAll() returns (got: seq<(nat, Record)>)
      requires Valid()
      modifies file`pos
      ensures got == Fetchable(Content())
    {
      got := [];
      ghost var k := 0;
      var _ := FetchReady();
      while true
        invariant k < limit && file.pos == SlotStart(buffSize, k)
        invariant Fetchable(Content()) == got + LiveFrom(Content(), k, limit - 1)
        decreases limit - k
      {
        var ret, id, r := DoFetch(k);
        if ret == 1 {
          return;
        }
        got, k := got + [(id, r)], id + 1;
      }
    }
  }

  lemma SameStart(buffSize: nat, a: nat, b: nat)
    ensures SlotStart(buffSize, a) == SlotStart(buffSize, b) <==> a == b
  {
    if a < b {
      SlotsInOrder(buffSize, a, b);
    } else if b < a {
      SlotsInOrder(buffSize, b, a);
    }
  }

  lemma SlotNumber(buffSize: nat, m: nat)
    ensures (SlotStart(buffSize, m) - FILE_HEAD) / Width(buffSize) == m
  {
    var w := Width(buffSize);
    var q := m * w / w;
    assert q * w <= m * w < (q + 1) * w;
  }

  lemma BlankSlot(slot: seq<Byte>)
    requires |slot| >= MSG_HEAD && forall i | 0 <= i < |slot| :: slot[i] == 0
    ensures Sound(slot) && RecordIn(slot) == None
  {
    var flag := slot[..MSG_HEAD][..4];
    assert flag[0] == 0 && flag[1] == 0 && flag[2] == 0 && flag[3] == 0;
  }

  /** What a new file holds: identity 0, version 1, the two sizes, all of four bytes, and zeros behind them. */
  ghost predicate NewBytes(b: seq<Byte>, buffSize: nat, limit: nat) {
    && |b| >= 16 && b[..8] == [0, 0, 0, 0, 0, 0, 0, 1]
    && BigEndian(b[8..12]) == buffSize && BigEndian(b[12..16]) == limit
    && forall i | 16 <= i < |b| :: b[i] == 0
  }

  lemma SmallBigEndian(x: nat)
    requires IsInt32(x)
    ensures BigEndian(Encode32(x)) == x
  {
    EncodeIsBigEndian(x);
  }

  lemma SmallNumbers()
    ensures Encode32(0) == [0, 0, 0, 0] && Encode32(1) == [0, 0, 0, 1]
  {
  }

  lemma FileHead(zeros: seq<Byte>, head: seq<Byte>, buffSize: nat, limit: nat)
    requires IsInt32(buffSize) && IsInt32(limit)
    requires head == Encode32(0) + Encode32(1) + Encode32(buffSize) + Encode32(limit)
    requires |zeros| >= 16 && forall i | 0 <= i < |zeros| :: zeros[i] == 0
    ensures NewBytes(Over(zeros, 0, head), buffSize, limit)
  {
    HeadParts(Encode32(0), Encode32(1), Encode32(buffSize), Encode32(limit), zeros[16..]);
    SmallNumbers();
    SmallBigEndian(buffSize);
    SmallBigEndian(limit);
  }

  lemma HeadParts(p: seq<Byte>, q: seq<Byte>, r: seq<Byte>, s: seq<Byte>, rest: seq<Byte>)
    requires |p| == |q| == |r| == |s| == 4
    ensures var b := p + q + r + s + rest;
      && b[..8] == p + q && b[8..12] == r && b[12..16] == s && forall i | 16 <= i < |b| :: b[i] == rest[i - 16]
  {
  }

  /** A file that is zero behind its head has no slot in use. */
  lemma BlankSlots(bytes: seq<Byte>, buffSize: nat, limit: nat)
    requires |bytes| == SlotStart(buffSize, limit)
    requires forall i | FILE_HEAD <= i < |bytes| :: bytes[i] == 0
    ensures AllSound(bytes, buffSize, limit)
    ensures Records(bytes, buffSize, limit) == seq(limit, _ => None)
  {
    forall id: nat | id < limit
      ensures Sound(Slot(bytes, buffSize, id)) && RecordIn(Slot(bytes, buffSize, id)) == None
    {
      SlotsInOrder(buffSize, id, limit);
      BlankSlot(Slot(bytes, buffSize, id));
    }
  }
}
