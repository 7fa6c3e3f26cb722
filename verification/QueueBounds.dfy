/** What every step keeps about the lists of waiters and how full the chain is. */
module QueueBounds {
  import opened Scheduler
  import opened MsgChains
  import opened QueueProtocol
  import opened QueueStructure

  /** Between taking a message out and storing a blocked writer's in its place. */
  predicate Gap(pc: Pc) {
    pc.GetPopped? || ((pc.Popping? || pc.Checking?) && pc.side == Getting)
    || (pc.Dropping? && pc.side == Getting && pc.again)
  }

  predicate InGap(s: State) {
    s.quelock.Some? && s.quelock.value < |s.threads| && Gap(s.threads[s.quelock.value])
  }

  /**
   * The chain respects its limit. Without forced puts, registered getters mean an empty chain and
   * registered putters a full one; in the gap of a get the chain is one short and no getter waits.
   */
  ghost predicate Bounds(s: State) {
    var room := if InGap(s) then 1 else 0;
    && 0 < s.limit && WellFormed(s.chain) && |s.chain.buckets| == |s.putters.buckets|
    && s.chain.count + room <= s.limit
    && (!s.forced && s.getters != [] ==> s.chain.count == 0 && room == 0)
    && (!s.forced && s.putters.count > 0 ==> s.chain.count + room == s.limit)
  }

  // ---------- The lists of waiters ----------

  predicate SameLinks(nodes: seq<Node>, nodes': seq<Node>) {
    && |nodes'| == |nodes|
    && forall n | 0 <= n < |nodes| :: nodes'[n].kind == nodes[n].kind && nodes'[n].linked == nodes[n].linked
  }

  ghost predicate Linked(getters: seq<nat>, putters: Chain<nat>, nodes: seq<Node>) {
    GettersLinked(getters, nodes) && PuttersLinked(putters, nodes)
  }

  lemma LinkedSame(getters: seq<nat>, putters: Chain<nat>, nodes: seq<Node>, nodes': seq<Node>)
    requires Linked(getters, putters, nodes) && SameLinks(nodes, nodes')
    ensures Linked(getters, putters, nodes')
  {
  }

  lemma LosesGetter(getters: seq<nat>, getters': seq<nat>, nodes: seq<Node>, n: nat, node': Node)
    requires GettersLinked(getters, nodes) && multiset(getters) == multiset(getters') + multiset{n}
    requires n < |nodes| ==> node'.kind == nodes[n].kind && !node'.linked
    ensures n < |nodes| && nodes[n].linked && nodes[n].kind.Getter?
    ensures GettersLinked(getters', nodes[n := node'])
  {
    assert n in multiset(getters) && n in getters;
    assert forall k :: k in getters' ==> k in multiset(getters') && k in multiset(getters) && k in getters;
  }

  lemma LosesPutter(putters: Chain<nat>, putters': Chain<nat>, nodes: seq<Node>, n: nat, node': Node)
    requires PuttersLinked(putters, nodes) && WellFormed(putters') && |putters'.buckets| == |putters.buckets|
    requires Stored<nat>(putters.buckets) == Stored<nat>(putters'.buckets) + multiset{n}
    requires forall k, x | 0 <= k < |putters.buckets| && x in putters'.buckets[k].items :: x in putters.buckets[k].items
    requires n < |nodes| ==> node'.kind == nodes[n].kind && !node'.linked
    ensures n < |nodes| && nodes[n].linked && nodes[n].kind.Putter?
    ensures PuttersLinked(putters', nodes[n := node'])
  {
    assert Stored<nat>(putters.buckets)[n] > 0;
    var k := HomeOf<nat>(putters.buckets, n);
    assert Seated(nodes, n, k);
  }

  /** A change to a waiter of the other kind, or one that keeps its link. */
  lemma GettersSame(getters: seq<nat>, nodes: seq<Node>, n: nat, node': Node)
    requires GettersLinked(getters, nodes) && n < |nodes| && node'.kind == nodes[n].kind
    requires node'.linked == nodes[n].linked || node'.kind.Putter?
    ensures GettersLinked(getters, nodes[n := node'])
  {
  }

  lemma PuttersSame(putters: Chain<nat>, nodes: seq<Node>, n: nat, node': Node)
    requires PuttersLinked(putters, nodes) && n < |nodes| && node'.kind == nodes[n].kind
    requires node'.linked == nodes[n].linked || node'.kind.Getter?
    ensures PuttersLinked(putters, nodes[n := node'])
  {
  }

  lemma NewGetter(getters: seq<nat>, nodes: seq<Node>, t: nat)
    requires GettersLinked(getters, nodes)
    ensures GettersLinked(getters + [|nodes|], nodes + [NewNode(Getter, t)])
  {
    assert |nodes| !in getters;
    assert forall n | n in getters + [|nodes|] :: n in getters || n == |nodes|;
  }

  lemma GettersIgnore(getters: seq<nat>, nodes: seq<Node>, node: Node)
    requires GettersLinked(getters, nodes) && node.kind.Putter?
    ensures GettersLinked(getters, nodes + [node])
  {
    assert |nodes| !in getters;
  }

  lemma UnusedId(putters: Chain<nat>, nodes: seq<Node>)
    requires PuttersLinked(putters, nodes)
    ensures Stored<nat>(putters.buckets)[|nodes|] == 0
  {
    if |nodes| in Stored<nat>(putters.buckets) {
      var k := HomeOf<nat>(putters.buckets, |nodes|);
    }
  }

  lemma PuttersIgnore(putters: Chain<nat>, nodes: seq<Node>, node: Node)
    requires PuttersLinked(putters, nodes) && node.kind.Getter?
    ensures PuttersLinked(putters, nodes + [node])
  {
    UnusedId(putters, nodes);
    forall k: nat, n: nat | k < |putters.buckets| && n in putters.buckets[k].items
      ensures Seated(nodes + [node], n, k)
    {
      assert Seated(nodes, n, k);
    }
  }

  lemma NewPutter(putters: Chain<nat>, nodes: seq<Node>, t: nat, m: Message)
    requires PuttersLinked(putters, nodes) && 1 <= m.priority <= |putters.buckets|
    ensures PuttersLinked(Push(putters, m.priority - 1, |nodes|), nodes + [NewNode(Putter(m), t)])
  {
    var id, nodes', putters' := |nodes|, nodes + [NewNode(Putter(m), t)], Push(putters, m.priority - 1, |nodes|);
    UnusedId(putters, nodes);
    PushKeeps<nat>(putters, m.priority - 1, id);
    forall k: nat, n: nat | k < |putters'.buckets| && n in putters'.buckets[k].items
      ensures Seated(nodes', n, k)
    {
      if n != id { assert n in putters.buckets[k].items && Seated(nodes, n, k); }
    }
    forall n: nat | n < |nodes'|
      ensures Stored<nat>(putters'.buckets)[n] == if nodes'[n].linked && nodes'[n].kind.Putter? then 1 else 0
    {
      if n != id { assert nodes'[n] == nodes[n]; }
    }
  }

  /** A linked putter sits in the bucket of its priority. */
  lemma PutterSeat(putters: Chain<nat>, nodes: seq<Node>, n: nat)
    requires PuttersLinked(putters, nodes) && n < |nodes| && nodes[n].linked && nodes[n].kind.Putter?
    ensures var level := nodes[n].kind.message.priority - 1;
      0 <= level < |putters.buckets| && n in putters.buckets[level].items && putters.count > 0
  {
    assert Stored<nat>(putters.buckets)[n] == 1;
    var k := HomeOf<nat>(putters.buckets, n);
    assert Seated(nodes, n, k);
    RemoveKeeps<nat>(putters, k, n);
  }
}
