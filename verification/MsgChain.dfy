/** The message chain of src/qc_mq/qc_msgchain.c: bounded, prioritised storage plus the hand-over list. */
module MsgChains {
  import opened Common
  import opened EntryLists
  import opened Scheduler
  import opened Walk

  /** A message is known by its identity; only its priority (1 is lowest) matters here. */
  datatype Message = Message(id: nat, priority: int)

  function Level(m: Message): nat
    requires m.priority >= 1
  {
    m.priority - 1
  }

  class MsgChain {
    const countLimit: int
    const bucketCount: int
    const buckets: array<Bucket<Message>>
    var msgCount: nat
    var cursorBucketSn: nat
    const tempList: EntryList<Message>

    ghost predicate Valid()
      reads this, buckets
    {
      countLimit > 0 && buckets.Length == bucketCount && msgCount <= countLimit && WellFormed(View())
    }

    ghost function View(): Chain<Message>
      reads this, buckets
    {
      Chain(buckets[..], msgCount, cursorBucketSn)
    }

    /** The messages of the hand-over list, oldest first. */
    ghost function Temp(): seq<Message>
      reads tempList
    {
      Data(tempList.spine)
    }

    constructor (countLimit: int, priorityMaxLevel: int)
      requires countLimit > 0 && priorityMaxLevel > 0
      ensures Valid() && fresh(buckets) && View() == Fresh(priorityMaxLevel)
      ensures fresh(tempList) && tempList.Valid() && Temp() == []
      ensures this.countLimit == countLimit && this.bucketCount == priorityMaxLevel
    {
      this.countLimit, this.bucketCount := countLimit, priorityMaxLevel;
      buckets := new Bucket<Message>[priorityMaxLevel](_ => Bucket([], 0));
      msgCount, cursorBucketSn := 0, 0;
      tempList := new EntryList();
      new;
      FreshWellFormed<Message>(priorityMaxLevel);
      assert buckets[..] == Fresh<Message>(priorityMaxLevel).buckets;
    }

    static method Create(countLimit: int, priorityMaxLevel: int) returns (c: MsgChain?)
      ensures c == null <==> countLimit <= 0 || priorityMaxLevel <= 0
      ensures c != null ==>
                && fresh(c) && fresh(c.buckets) && c.Valid()
                && c.countLimit == countLimit && c.View() == Fresh(priorityMaxLevel)
                && fresh(c.tempList) && c.tempList.Valid() && c.Temp() == []
    {
      if countLimit <= 0 || priorityMaxLevel <= 0 {
        return null;
      }
      c := new MsgChain(countLimit, priorityMaxLevel);
    }

    method PushMsg(message: Message)
      requires Valid() && msgCount < countLimit && 1 <= message.priority <= bucketCount
      modifies this`msgCount, this`cursorBucketSn, buckets
      ensures Valid() && View() == Push(old(View()), Level(message), message)
      ensures SameCounters(old(buckets[..]), buckets[..])
    {
      PushKeeps(View(), Level(message), message);
      var sn := message.priority - 1;
      buckets[sn] := buckets[sn].(items := buckets[sn].items + [message]);
      msgCount := msgCount + 1;
      if sn > cursorBucketSn {
        cursorBucketSn := sn;
      }
    }

    /** None means that the process stopped at the assertion inside the walk. */
    method PopMsg() returns (r: Option<Message>)
      requires Valid() && msgCount > 0
      modifies this`msgCount, this`cursorBucketSn, buckets
      ensures Top(old(buckets[..])) >= 0 && (r == None <==> old(IsStuck(View())))
      ensures r.Some? ==>
                && Valid() && Pop(old(View())).Popped?
                && Pop(old(View())).chain == View() && Pop(old(View())).item == r.value
    {
      PopKeeps(View());
      var cursor;
      r, cursor := PopWalk(buckets, msgCount, cursorBucketSn);
      cursorBucketSn := cursor;
      msgCount := msgCount - 1;
    }

    /** Never fails: a full chain gives up its oldest message of the lowest nonempty priority. */
    method ForcePush(message: Message) returns (ret: int, evicted: Option<Message>)
      requires Valid() && 1 <= message.priority <= bucketCount
      modifies this`msgCount, this`cursorBucketSn, buckets
      ensures Valid() && ret == 0
      ensures old(msgCount) < countLimit ==>
                evicted == None && View() == Push(old(View()), Level(message), message)
      ensures old(msgCount) == countLimit ==>
                && Bottom(old(buckets[..]), 0) < bucketCount
                && evicted == Some(old(buckets[..])[Bottom(old(buckets[..]), 0)].items[0])
                && View() == Push(Evict(old(View())), Level(message), message)
      ensures SameCounters(old(buckets[..]), buckets[..])
    {
      if msgCount < countLimit {
        PushMsg(message);
        return 0, None;
      }
      EvictKeeps(View());
      ghost var c := View();
      for sn := 0 to bucketCount
        invariant View() == c && sn <= Bottom(buckets[..], 0)
      {
        if |buckets[sn].items| > 0 {
          evicted := Some(buckets[sn].items[0]);
          buckets[sn] := Take(buckets[sn], buckets[sn].popCounter);
          msgCount := msgCount - 1;
          assert View() == Evict(c);
          ghost var before := buckets[..];
          PushMsg(message);
          assert SameCounters(c.buckets, before) && SameCounters(before, buckets[..]);
          return 0, evicted;
        }
      }
      return -1, None;
    }

    /** Hands a message over: it is linked in behind all others. */
    method PutTemp(message: Message)
      requires tempList.Valid()
      modifies tempList, tempList.spine
      ensures tempList.Valid() && Temp() == old(Temp()) + [message]
    {
      var _, _ := tempList.InsertTail(message);
    }

    /** Unlinks the message that was handed over first, if there is one. */
    method GetTemp() returns (r: Option<Message>)
      requires tempList.Valid()
      modifies tempList, tempList.spine
      ensures tempList.Valid() && (r == None <==> old(Temp()) == [])
      ensures if r.Some? then old(Temp()) == [r.value] + Temp() else Temp() == old(Temp())
    {
      r := tempList.PopHead();
    }
  }
}
