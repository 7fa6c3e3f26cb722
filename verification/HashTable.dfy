/**
 * The chained hash table of src/qc_rt/qc_hash.c, with its string hash and its comparison that ignores case.
 */
module HashTables {
  import opened Common

  /** A C string without its final zero byte. */
  type Key = seq<Byte>

  const GROUP := 5

  // ---- Keys ----

  /** tolower of the "C" locale. */
  function Lower(c: Byte): Byte {
    if 65 <= c <= 90 then c + 32 else c
  }

  function Fold(s: Key): (r: Key)
    ensures |r| == |s| && forall i | 0 <= i < |s| :: r[i] == Lower(s[i])
  {
    seq(|s|, i requires 0 <= i < |s| => Lower(s[i]))
  }

  /** strcasecmp: the difference of the first two lower-case bytes that differ, a string ending with byte 0. */
  function StrCompare(a: Key, b: Key): int {
    var x: int := if a == [] then 0 else Lower(a[0]);
    var y: int := if b == [] then 0 else Lower(b[0]);
    if x != y || a == [] || b == [] then x - y else StrCompare(a[1..], b[1..])
  }

  predicate IsCString(s: Key) {
    forall i | 0 <= i < |s| :: s[i] != 0
  }

  lemma {:induction false} EqualWhenFolded(a: Key, b: Key)
    requires IsCString(a) && IsCString(b)
    ensures StrCompare(a, b) == 0 <==> Fold(a) == Fold(b)
  {
    if a != [] && b != [] {
      if Lower(a[0]) == Lower(b[0]) {
        EqualWhenFolded(a[1..], b[1..]);
        assert Fold(a) == [Lower(a[0])] + Fold(a[1..]);
        assert Fold(b) == [Lower(b[0])] + Fold(b[1..]);
        if Fold(a) == Fold(b) {
          assert Fold(a[1..]) == Fold(a)[1..] == Fold(b)[1..] == Fold(b[1..]);
        }
      } else {
        assert Fold(a)[0] != Fold(b)[0];
      }
    } else {
      assert |Fold(a)| == |Fold(b)| <==> a == b;
    }
  }

  /** A group of bytes as the digits of a number to base 9. */
  function Horner(s: Key): nat {
    if s == [] then 0 else Horner(s[..|s| - 1]) * 9 + s[|s| - 1]
  }

  /** The sum of the numbers that the groups of five bytes stand for. */
  function HashValue(s: Key): nat {
    if s == [] then 0
    else
      var k := (|s| - 1) / GROUP * GROUP;
      HashValue(s[..k]) + Horner(s[k..])
  }

  function HashOf(key: Key, buckets: nat): (h: nat)
    requires buckets > 0
    ensures h < buckets
  {
    Wrap32(HashValue(Fold(key))) % buckets
  }

  lemma {:induction false} HornerIsSmall(s: Key)
    requires |s| <= GROUP
    ensures Horner(s) <= if |s| == 0 then 0 else if |s| == 1 then 255 else if |s| == 2 then 2550
                         else if |s| == 3 then 23205 else if |s| == 4 then 209100 else 1882155
  {
    if s == [] {
    } else {
      HornerIsSmall(s[..|s| - 1]);
    }
  }

  /** The weight of byte i of n in its group: 9 to the number of bytes of the group behind it. */
  function Weight(i: nat, n: nat): nat
    requires i < n
  {
    Nines((if i / 5 * 5 + 5 <= n then i / 5 * 5 + 4 else n - 1) - i)
  }

  /** The powers of 9 that occur. */
  function Nines(e: nat): nat {
    if e == 0 then 1 else if e == 1 then 9 else if e == 2 then 81 else if e == 3 then 729 else 6561
  }

  /** The sum of the first k bytes by weight. */
  function Weighed(s: Key, k: nat): nat
    requires k <= |s|
  {
    if k == 0 then 0 else Weighed(s, k - 1) + s[k - 1] * Weight(k - 1, |s|)
  }

  /** Bytes in full groups weigh the same in a longer key. */
  lemma {:induction false} WeighedPrefix(s: Key, k: nat, m: nat)
    requires m <= k <= |s| && k % 5 == 0
    ensures Weighed(s, m) == Weighed(s[..k], m)
  {
    if m == 0 {
    } else {
      WeighedPrefix(s, k, m - 1);
      assert (m - 1) / 5 * 5 + 5 <= k;
    }
  }

  /** The bytes of the last group up to position j. */
  lemma {:induction false} WeighedGroup(s: Key, k: nat, j: nat)
    requires k <= j <= |s| <= k + 5 && k % 5 == 0
    ensures Weighed(s, j) == Weighed(s, k) + Horner(s[k..j]) * Nines(|s| - j)
    decreases j
  {
    if j == k {
    } else {
      WeighedGroup(s, k, j - 1);
      NextDigit(s[k..j]);
      assert s[k..j][..j - k - 1] == s[k..j - 1];
      WeightInGroup(k, j - 1, |s|);
      NextPower(Horner(s[k..j - 1]), s[j - 1], |s| - j);
    }
  }

  lemma NextDigit(g: Key)
    requires g != []
    ensures Horner(g) == Horner(g[..|g| - 1]) * 9 + g[|g| - 1] && (|g| == 1 ==> Horner(g[..|g| - 1]) == 0)
  {
  }

  lemma WeightInGroup(k: nat, i: nat, n: nat)
    requires k <= i < n <= k + 5 && k % 5 == 0
    ensures Weight(i, n) == Nines(n - 1 - i)
  {
    assert i / 5 * 5 == k;
  }

  lemma NextPower(h: int, c: int, e: nat)
    requires e < 4 || h == 0
    ensures (h * 9 + c) * Nines(e) == h * Nines(e + 1) + c * Nines(e)
  {
  }

  /** The number that is hashed, byte by byte. */
  lemma {:induction false} HashByWeight(s: Key)
    ensures HashValue(s) == Weighed(s, |s|)
  {
    if s == [] {
    } else {
      var k := (|s| - 1) / 5 * 5;
      HashByWeight(s[..k]);
      WeighedPrefix(s, k, k);
      WeighedGroup(s, k, |s|);
      assert s[k..|s|] == s[k..];
    }
  }

  /** The bucket of a key. */
  lemma BucketByWeight(key: Key, buckets: nat)
    requires buckets > 0
    ensures HashOf(key, buckets) == Weighed(Fold(key), |key|) % 0x1_0000_0000 % buckets
  {
    HashByWeight(Fold(key));
    WrapIsRemainder(HashValue(Fold(key)));
    EqualRemainders(Wrap32(HashValue(Fold(key))), Weighed(Fold(key), |key|) % 0x1_0000_0000, buckets);
  }

  lemma WrapIsRemainder(x: int)
    ensures Wrap32(x) == x % 0x1_0000_0000
  {
  }

  lemma EqualRemainders(x: int, y: int, n: nat)
    requires x == y && n > 0
    ensures x % n == y % n
  {
  }

  function Wrap32(x: int): int {
    if 0 <= x < TWO_TO_THE_32 then x else x % TWO_TO_THE_32
  }

  /** The two sums of one turn of the loop; within a group of five they never wrap. */
  method AddDigit(hashValue: int, c: Byte, ghost group: Key) returns (r: int)
    requires |group| < GROUP && hashValue == Horner(group)
    ensures r == Horner(group + [Lower(c)])
  {
    HornerIsSmall(group);
    assert (group + [Lower(c)])[..|group|] == group;
    r := Wrap32(hashValue + Wrap32(hashValue * 8));
    r := Wrap32(r + Lower(c));
  }

  /** What the first n bytes add to the result. */
  function SumUpTo(low: Key, n: nat): int
    requires n <= |low|
  {
    Wrap32(HashValue(low[..n]))
  }

  lemma WrapAdds(x: int, y: int)
    ensures Wrap32(Wrap32(x) + y) == Wrap32(x + y)
  {
  }

  /** A group ends: its number joins the sum over the groups, which may wrap. */
  method AddGroup(ret: int, hashValue: int, ghost low: Key, ghost start: nat, ghost n: nat, ghost g: nat)
    returns (r: int)
    requires start <= n <= |low| && n - start <= GROUP && start == GROUP * g && (start == n ==> n == 0)
    requires ret == SumUpTo(low, start) && hashValue == Horner(low[start..n])
    ensures r == SumUpTo(low, n)
  {
    CloseGroup(low, start, n, g);
    WrapAdds(HashValue(low[..start]), hashValue);
    r := Wrap32(ret + hashValue);
  }

  /** The loop over the bytes, every sum wrapping at 32 bits. */
  method HashString(str: Key, bucketCount: nat) returns (r: nat)
    requires bucketCount > 0
    ensures r == HashOf(str, bucketCount)
  {
    ghost var low, start, g := Fold(str), 0, 0;
    var hashValue, ret, i, n := 0, 0, 0, 0;
    while n < |str|
      invariant 0 <= i <= GROUP && start + i == n <= |str| && start == GROUP * g >= 0
      invariant i == 0 ==> n == 0
      invariant hashValue == Horner(low[start..n]) && ret == SumUpTo(low, start)
    {
      if i == GROUP {
        i := 0;
        ret := AddGroup(ret, hashValue, low, start, n, g);
        hashValue := 0;
        start, g := n, g + 1;
      }
      ghost var group := low[start..n];
      hashValue := AddDigit(hashValue, str[n], group);
      assert low[start..n + 1] == group + [Lower(str[n])];
      n := n + 1;
      i := i + 1;
    }
    ret := AddGroup(ret, hashValue, low, start, n, g);
    assert low[..n] == low;
    r := ret % bucketCount;
  }

  lemma CloseGroup(low: Key, start: nat, n: nat, g: nat)
    requires start <= n <= |low| && n - start <= GROUP && start == GROUP * g && (start == n ==> n == 0)
    ensures HashValue(low[..n]) == HashValue(low[..start]) + Horner(low[start..n])
  {
    if start < n {
      assert (n - 1) / GROUP * GROUP == start;
      assert low[..n][..start] == low[..start] && low[..n][start..] == low[start..n];
    }
  }

  /** Keys that compare equal share a bucket. */
  lemma EqualKeysHashAlike(a: Key, b: Key, buckets: nat)
    requires IsCString(a) && IsCString(b) && buckets > 0 && StrCompare(a, b) == 0
    ensures HashOf(a, buckets) == HashOf(b, buckets)
  {
    EqualWhenFolded(a, b);
  }

  // ---- Chains ----

  class HashEntry<D> {
    var next: HashEntry?<D>
    const key: Key
    const data: D

    constructor (key: Key, data: D, next: HashEntry?<D>)
      ensures this.key == key && this.data == data && this.next == next
    {
      this.key, this.data, this.next := key, data, next;
    }
  }

  predicate SameKey(a: Key, b: Key) {
    Fold(a) == Fold(b)
  }

  /** Keys are the same if they differ at most in the case of letters. */
  lemma SameUpToCase(a: Key, b: Key)
    ensures SameKey(a, b) <==>
            |a| == |b| && forall i | 0 <= i < |a| ::
              || a[i] == b[i]
              || (65 <= a[i] <= 90 && b[i] == a[i] + 32)
              || (65 <= b[i] <= 90 && a[i] == b[i] + 32)
  {
    if SameKey(a, b) {
      forall i | 0 <= i < |a| ensures Lower(a[i]) == Lower(b[i]) {
        assert Fold(a)[i] == Fold(b)[i];
      }
    }
  }

  ghost function Node<D>(c: seq<HashEntry<D>>, i: int): (e: HashEntry?<D>) {
    if 0 <= i < |c| then c[i] else null
  }

  ghost predicate LinkOk<D>(c: seq<HashEntry<D>>, i: int)
    requires 0 <= i < |c|
    reads c[i]
  {
    c[i].next == Node(c, i + 1)
  }

  ghost predicate Linked<D>(c: seq<HashEntry<D>>)
    reads c
  {
    forall i {:trigger LinkOk(c, i)} | 0 <= i < |c| :: LinkOk(c, i)
  }

  /** The entries of a chain belong to the bucket their keys hash to. */
  ghost predicate Belong<D>(c: seq<HashEntry<D>>, bucket: nat, buckets: nat)
    requires buckets > 0
  {
    forall e | e in c :: IsCString(e.key) && HashOf(e.key, buckets) == bucket
  }

  /** The values a chain holds for a key, newest first. */
  ghost function Matching<D>(c: seq<HashEntry<D>>, key: Key): seq<D> {
    if c == [] then []
    else (if SameKey(c[0].key, key) then [c[0].data] else []) + Matching(c[1..], key)
  }

  /** The stack of values a table holds for a key. */
  ghost function Stack<D>(chains: seq<seq<HashEntry<D>>>, key: Key): seq<D>
    requires |chains| > 0
  {
    Matching(chains[HashOf(key, |chains|)], key)
  }

  lemma {:induction false} NoMatchBefore<D>(c: seq<HashEntry<D>>, key: Key, k: nat)
    requires k <= |c| && forall i | 0 <= i < k :: !SameKey(c[i].key, key)
    ensures Matching(c, key) == Matching(c[k..], key)
  {
    if k == 0 {
      assert c[0..] == c;
    } else {
      NoMatchBefore(c[1..], key, k - 1);
      assert c[1..][k - 1..] == c[k..];
    }
  }

  /** Taking the first entry of a key out pops that key's values and no other's. */
  lemma {:induction false} CutPops<D>(c: seq<HashEntry<D>>, key: Key, k: nat, other: Key)
    requires k < |c| && SameKey(c[k].key, key) && forall i | 0 <= i < k :: !SameKey(c[i].key, key)
    ensures Matching(c, key) != [] && Matching(c, key)[0] == c[k].data
    ensures Matching(c, other) == (if SameKey(other, key) then [c[k].data] else []) + Matching(Cut(c, k), other)
  {
    if k == 0 {
      assert Cut(c, 0) == c[1..];
      if SameKey(other, key) { MatchesAlike(c, other, key); }
    } else {
      CutPops(c[1..], key, k - 1, other);
      assert Cut(c, k) == [c[0]] + Cut(c[1..], k - 1);
    }
  }

  lemma {:induction false} MatchesAlike<D>(c: seq<HashEntry<D>>, a: Key, b: Key)
    requires SameKey(a, b)
    ensures Matching(c, a) == Matching(c, b)
  {
    if c == [] {
    } else {
      MatchesAlike(c[1..], a, b);
    }
  }

  /** The same for the whole table. */
  lemma TablePops<D>(chains: seq<seq<HashEntry<D>>>, key: Key, k: nat)
    requires |chains| > 0 && k < |chains[HashOf(key, |chains|)]|
    requires var c := chains[HashOf(key, |chains|)];
      SameKey(c[k].key, key) && forall i | 0 <= i < k :: !SameKey(c[i].key, key)
    ensures var h := HashOf(key, |chains|);
      && Stack(chains, key) != []
      && forall o :: Stack(chains, o) == (if SameKey(o, key) then [Stack(chains, key)[0]] else [])
                                         + Stack(chains[h := Cut(chains[h], k)], o)
  {
    var c := chains[HashOf(key, |chains|)];
    CutPops(c, key, k, key);
    forall o ensures Stack(chains, o) == (if SameKey(o, key) then [Stack(chains, key)[0]] else [])
                                         + Stack(chains[HashOf(key, |chains|) := Cut(c, k)], o)
    {
      CutPops(c, key, k, o);
    }
  }

  /** All entries, bucket after bucket: the order of an enumeration. */
  ghost function Flatten<D>(chains: seq<seq<HashEntry<D>>>): seq<HashEntry<D>> {
    if chains == [] then [] else Flatten(chains[..|chains| - 1]) + chains[|chains| - 1]
  }

  ghost function Length<D>(c: seq<HashEntry<D>>): nat {
    |c|
  }

  lemma {:induction false} FlattenAt<D>(chains: seq<seq<HashEntry<D>>>, b: nat, k: nat)
    requires b < |chains| && k < |chains[b]|
    ensures var p := |Flatten(chains[..b])| + k;
      p < |Flatten(chains)| && Flatten(chains)[p] == chains[b][k]
  {
    var n := |chains| - 1;
    if b == n {
    } else {
      FlattenAt(chains[..n], b, k);
      assert chains[..n][..b] == chains[..b];
    }
  }

  lemma {:induction false} FlattenTotal<D>(chains: seq<seq<HashEntry<D>>>)
    ensures |Flatten(chains)| == Total(Length, chains)
  {
    if chains == [] {
    } else {
      FlattenTotal(chains[..|chains| - 1]);
    }
  }

  lemma {:induction false} FlattenBelongs<D>(chains: seq<seq<HashEntry<D>>>, buckets: nat)
    requires buckets > 0 && forall i | 0 <= i < |chains| :: Belong(chains[i], i, buckets)
    ensures forall e | e in Flatten(chains) :: HashOf(e.key, buckets) < |chains|
  {
    if chains == [] {
    } else {
      FlattenBelongs(chains[..|chains| - 1], buckets);
      assert Belong(chains[|chains| - 1], |chains| - 1, buckets);
    }
  }

  /** No entry comes up twice in an enumeration. */
  lemma {:induction false} FlattenDistinct<D>(chains: seq<seq<HashEntry<D>>>, buckets: nat)
    requires buckets > 0
    requires forall i | 0 <= i < |chains| :: Distinct(chains[i]) && Belong(chains[i], i, buckets)
    ensures Distinct(Flatten(chains))
  {
    if chains == [] {
    } else {
      var n := |chains| - 1;
      FlattenDistinct(chains[..n], buckets);
      FlattenBelongs(chains[..n], buckets);
      assert Belong(chains[n], n, buckets);
      DistinctJoin(Flatten(chains[..n]), chains[n]);
    }
  }

  lemma DistinctJoin<D>(a: seq<HashEntry<D>>, b: seq<HashEntry<D>>)
    requires Distinct(a) && Distinct(b) && forall e | e in b :: e !in a
    ensures Distinct(a + b)
  {
    forall i, j | 0 <= i < j < |a + b| ensures (a + b)[i] != (a + b)[j] {
      if i < |a| <= j { assert b[j - |a|] in b; }
    }
  }

  lemma FlattenNext<D>(chains: seq<seq<HashEntry<D>>>, b: nat)
    requires b < |chains|
    ensures |Flatten(chains[..b + 1])| == |Flatten(chains[..b])| + |chains[b]|
    ensures b + 1 == |chains| ==> |Flatten(chains)| == |Flatten(chains[..b])| + |chains[b]|
  {
    assert chains[..b + 1][..b] == chains[..b];
    if b + 1 == |chains| { assert chains[..b + 1] == chains; }
  }

  lemma PushedStacks<D>(chains: seq<seq<HashEntry<D>>>, e: HashEntry<D>)
    requires |chains| > 0
    ensures var i := HashOf(e.key, |chains|);
      forall k ::
        Stack(chains[i := [e] + chains[i]], k) == (if SameKey(k, e.key) then [e.data] else []) + Stack(chains, k)
  {
    var i := HashOf(e.key, |chains|);
    forall k
      ensures Stack(chains[i := [e] + chains[i]], k) == (if SameKey(k, e.key) then [e.data] else []) + Stack(chains, k)
    {
      assert ([e] + chains[i])[1..] == chains[i];
    }
  }

  class HashTbl<D> {
    const buckets: array<HashEntry?<D>>
    var entryCount: nat
    var curBucket: nat
    var curEntry: HashEntry?<D>
    ghost var chains: seq<seq<HashEntry<D>>>
    ghost var nodes: set<HashEntry<D>>

    ghost predicate ChainOk(i: int)
      requires 0 <= i < buckets.Length == |chains|
      reads this`chains, this`nodes, buckets, nodes
    {
      && (forall e | e in chains[i] :: e in nodes)
      && buckets[i] == Node(chains[i], 0) && Linked(chains[i]) && Distinct(chains[i])
      && Belong(chains[i], i, buckets.Length)
    }

    ghost predicate Valid()
      reads this`chains, this`nodes, this`entryCount, buckets, nodes
    {
      && 0 < buckets.Length == |chains| && entryCount == Total(Length, chains)
      && forall i {:trigger ChainOk(i)} | 0 <= i < buckets.Length :: ChainOk(i)
    }

    constructor (bucketCount: nat)
      requires bucketCount > 0
      ensures Valid() && fresh(buckets) && buckets.Length == bucketCount
      ensures forall k :: Stack(chains, k) == []
    {
      buckets := new HashEntry?<D>[bucketCount](_ => null);
      chains := seq(bucketCount, _ => []);
      entryCount, curBucket, curEntry, nodes := 0, 0, null, {};
      new;
      TotalZero(Length, chains);
    }

    method Insert(key: Key, data: D) returns (ret: int)
      requires Valid() && IsCString(key)
      modifies this`chains, this`entryCount, this`nodes, buckets
      ensures Valid() && ret == 0 && entryCount == old(entryCount) + 1 && |chains| == |old(chains)|
      ensures forall k :: Stack(chains, k) ==
                          (if SameKey(k, key) then [data] else []) + Stack(old(chains), k)
    {
      var index := HashString(key, buckets.Length);
      var entry := buckets[index];
      var newEntry := new HashEntry(key, data, entry);
      assert ChainOk(index);
      buckets[index] := newEntry;
      entryCount := entryCount + 1;
      ghost var c := [newEntry] + chains[index];
      TotalUpdate(Length, chains, index, c);
      PushedStacks(chains, newEntry);
      chains, nodes := chains[index := c], nodes + {newEntry};
      forall i | 0 <= i < buckets.Length ensures ChainOk(i) {
        assert old(ChainOk(i));
        forall j | 0 <= j < |chains[i]| ensures LinkOk(chains[i], j) {
          assert i != index ==> old(LinkOk(chains[i], j));
          assert i == index && j > 0 ==> old(LinkOk(chains[i], j - 1));
        }
      }
      return 0;
    }

    lemma ChainAt(i: nat)
      requires Valid() && i < buckets.Length
      ensures buckets[i] == Node(chains[i], 0) && Linked(chains[i])
      ensures forall j | 0 <= j < |chains[i]| :: IsCString(chains[i][j].key)
    {
      assert ChainOk(i);
      assert forall j | 0 <= j < |chains[i]| :: chains[i][j] in chains[i];
    }

    method Find(key: Key) returns (data: Option<D>)
      requires Valid() && IsCString(key)
      ensures data == if Stack(chains, key) == [] then None else Some(Stack(chains, key)[0])
    {
      var index := HashString(key, buckets.Length);
      ChainAt(index);
      ghost var c, k := chains[index], 0;
      var entry := buckets[index];
      while entry != null
        invariant k <= |c| && entry == Node(c, k)
        invariant forall i | 0 <= i < k :: !SameKey(c[i].key, key)
        decreases |c| - k
      {
        assert LinkOk(c, k);
        EqualWhenFolded(entry.key, key);
        if StrCompare(entry.key, key) == 0 {
          NoMatchBefore(c, key, k);
          return Some(entry.data);
        }
        entry, k := entry.next, k + 1;
      }
      NoMatchBefore(c, key, k);
      return None;
    }

    /** The relinking of Delete: the entry at position k of its chain is bypassed. */
    method Bypass(index: nat, previous: HashEntry<D>, entry: HashEntry<D>, ghost k: nat)
      requires Valid() && index < buckets.Length && k < |chains[index]| && entry == chains[index][k]
      requires previous == chains[index][if k == 0 then 0 else k - 1]
      modifies this`chains, buckets, nodes
      ensures chains == old(chains)[index := Cut(old(chains)[index], k)] && |chains| == buckets.Length
      ensures forall i {:trigger ChainOk(i)} | 0 <= i < buckets.Length :: ChainOk(i)
    {
      assert ChainOk(index);
      ghost var c := chains[index];
      assert LinkOk(c, k) && previous in c;
      forall i | 0 <= i < buckets.Length && i != index ensures previous !in chains[i] {
        assert ChainOk(i);
      }
      if previous == entry {
        buckets[index] := entry.next;
      } else {
        previous.next := entry.next;
      }
      chains := chains[index := Cut(c, k)];
      forall j | 0 <= j < |Cut(c, k)| ensures LinkOk(Cut(c, k), j) {
        assert old(LinkOk(c, if j < k then j else j + 1));
      }
      forall i | 0 <= i < buckets.Length ensures ChainOk(i) {
        assert old(ChainOk(i));
        if i != index { assert old(Linked(chains[i])) == Linked(chains[i]); }
      }
    }

    /** The search of Delete: the newest entry of the key with the entry before it in its chain. */
    method Locate(key: Key)
      returns (index: nat, previous: HashEntry?<D>, entry: HashEntry?<D>, ghost k: nat)
      requires Valid() && IsCString(key)
      ensures index == HashOf(key, |chains|)
      ensures entry == null <==> Stack(chains, key) == []
      ensures entry != null ==>
                var c := chains[index];
                && k < |c| && entry == c[k] && previous == c[if k == 0 then 0 else k - 1]
                && SameKey(c[k].key, key) && forall i | 0 <= i < k :: !SameKey(c[i].key, key)
    {
      index := HashString(key, buckets.Length);
      ChainAt(index);
      ghost var c := chains[index];
      k := 0;
      entry := buckets[index];
      previous := entry;
      while entry != null
        invariant k <= |c| && entry == Node(c, k)
        invariant entry != null ==> previous == Node(c, if k == 0 then 0 else k - 1)
        invariant forall i | 0 <= i < k :: !SameKey(c[i].key, key)
        decreases |c| - k
      {
        assert LinkOk(c, k);
        EqualWhenFolded(entry.key, key);
        if StrCompare(entry.key, key) == 0 {
          NoMatchBefore(c, key, k);
          return;
        }
        previous := entry;
        entry, k := entry.next, k + 1;
      }
      NoMatchBefore(c, key, k);
    }

    method Delete(key: Key) returns (ret: int)
      requires Valid() && IsCString(key)
      modifies this`chains, this`entryCount, buckets, nodes
      ensures Valid() && |chains| == |old(chains)|
      ensures ret == if Stack(old(chains), key) == [] then 0 else 1
      ensures ret == 0 ==> chains == old(chains) && entryCount == old(entryCount)
      ensures ret == 1 ==>
                && entryCount == old(entryCount) - 1
                && forall k :: Stack(old(chains), k)
                            == (if SameKey(k, key) then [Stack(old(chains), key)[0]] else []) + Stack(chains, k)
    {
      var index, previous, entry, k := Locate(key);
      if entry == null {
        return 0;
      }
      TablePops(chains, key, k);
      TotalUpdate(Length, chains, index, Cut(chains[index], k));
      Bypass(index, previous, entry, k);
      entryCount := entryCount - 1;
      return 1;
    }

    /** The enumeration stands before entry p of the table, or past the last one. */
    ghost predicate EnumAt(p: nat)
      reads this, buckets, nodes
    {
      && Valid() && p <= |Flatten(chains)|
      && if curBucket < |chains| then exists k: nat :: Stands(p, k) else curEntry == null && p == |Flatten(chains)|
    }

    method EnumBegin()
      requires Valid()
      modifies this`curBucket, this`curEntry
      ensures EnumAt(0)
    {
      curBucket := 0;
      curEntry := buckets[0];
      assert ChainOk(0);
      assert Stands(0, 0);
    }

    /** The enumeration stands in bucket curBucket before its entry k, which is entry p of the table. */
    ghost predicate Stands(p: nat, k: nat)
      requires curBucket < |chains|
      reads this
    {
      && k <= |chains[curBucket]| && curEntry == Node(chains[curBucket], k)
      && p == |Flatten(chains[..curBucket])| + k
    }

    /** The loop of EnumNext: on to the next bucket that has an entry left to show. */
    method SkipEmpty(ghost p: nat) returns (found: bool, ghost k: nat)
      requires EnumAt(p)
      modifies this`curBucket, this`curEntry
      ensures if found then curBucket < |chains| && Stands(p, k) && curEntry != null
              else EnumAt(p) && p == |Flatten(chains)|
    {
      k := 0;
      if curBucket < |chains| {
        k :| Stands(p, k);
      }
      while curEntry == null
        invariant if curBucket < |chains| then Stands(p, k) else curEntry == null && p == |Flatten(chains)|
        decreases |chains| - curBucket, curEntry == null
      {
        if curBucket < |chains| { FlattenNext(chains, curBucket); }
        curBucket := curBucket + 1;
        if curBucket >= buckets.Length {
          return false, k;
        }
        curEntry := buckets[curBucket];
        k := 0;
        assert ChainOk(curBucket);
      }
      return true, k;
    }

    /** The entry the enumeration stands before; past the last one it stays there. */
    method EnumNext(ghost p: nat) returns (data: Option<D>)
      requires EnumAt(p)
      modifies this`curBucket, this`curEntry
      ensures if p < |Flatten(chains)| then data == Some(Flatten(chains)[p].data) && EnumAt(p + 1)
              else data == None && EnumAt(p)
    {
      var found;
      ghost var k;
      found, k := SkipEmpty(p);
      if !found {
        return None;
      }
      assert ChainOk(curBucket) && LinkOk(chains[curBucket], k);
      FlattenAt(chains, curBucket, k);
      data := Some(curEntry.data);
      curEntry := curEntry.next;
      assert Stands(p + 1, k + 1);
    }

    /** An enumeration shows entryCount entries, each of them once. */
    lemma EnumeratesAll()
      requires Valid()
      ensures |Flatten(chains)| == entryCount && Distinct(Flatten(chains))
      ensures forall i, e | 0 <= i < |chains| && e in chains[i] :: e in Flatten(chains)
    {
      FlattenTotal(chains);
      forall i | 0 <= i < |chains| ensures Distinct(chains[i]) && Belong(chains[i], i, |chains|) {
        assert ChainOk(i);
      }
      FlattenDistinct(chains, |chains|);
      forall i, e | 0 <= i < |chains| && e in chains[i] ensures e in Flatten(chains) {
        var k :| 0 <= k < |chains[i]| && chains[i][k] == e;
        FlattenAt(chains, i, k);
      }
    }
  }
}
