/** What a stable insertion sort computes, for any order in which incomparable means equivalent. */
module StableSort {
  import opened Common

  /** less orders the elements of d: "not less the other way round" is total and transitive. */
  ghost predicate Orders<E>(less: (E, E) -> bool, d: set<E>) {
    && (forall x, y | x in d && y in d :: !(less(x, y) && less(y, x)))
    && (forall x, y, z | x in d && y in d && z in d :: !less(y, x) && !less(z, y) ==> !less(z, x))
  }

  ghost function Members<E>(s: seq<E>): set<E> {
    set x | x in s
  }

  ghost predicate Ordered<E>(less: (E, E) -> bool, s: seq<E>) {
    forall i, j | 0 <= i < j < |s| :: !less(s[j], s[i])
  }

  /** x in front of the first element it is less than, or at the end. */
  function Insert<E>(less: (E, E) -> bool, s: seq<E>, x: E): seq<E> {
    if s == [] then [x]
    else if less(x, s[0]) then [x] + s
    else [s[0]] + Insert(less, s[1..], x)
  }

  function InsertionSort<E>(less: (E, E) -> bool, s: seq<E>): seq<E> {
    if s == [] then [] else Insert(less, InsertionSort(less, s[..|s| - 1]), s[|s| - 1])
  }

  predicate Same<E>(less: (E, E) -> bool, x: E, y: E) {
    !less(x, y) && !less(y, x)
  }

  /** The elements of s that compare equal to x, in the order they have in s. */
  function Class<E>(less: (E, E) -> bool, s: seq<E>, x: E): seq<E> {
    if s == [] then []
    else (if Same(less, x, s[0]) then [s[0]] else []) + Class(less, s[1..], x)
  }

  /** r is s, sorted without changing the order of elements that compare equal. */
  ghost predicate StablySorted<E>(less: (E, E) -> bool, s: seq<E>, r: seq<E>) {
    Ordered(less, r) && multiset(r) == multiset(s) && SameClasses(less, s, r)
  }

  ghost predicate SameClasses<E>(less: (E, E) -> bool, s: seq<E>, r: seq<E>) {
    forall x | x in s :: Class(less, r, x) == Class(less, s, x)
  }

  /** Where the scan of the sort stops is where Insert puts x. */
  lemma {:induction false} InsertStopsAt<E>(less: (E, E) -> bool, s: seq<E>, x: E, k: nat)
    requires k <= |s| && (forall i | 0 <= i < k :: !less(x, s[i])) && (k < |s| ==> less(x, s[k]))
    ensures Insert(less, s, x) == s[..k] + [x] + s[k..]
  {
    if k == 0 {
    } else {
      InsertStopsAt(less, s[1..], x, k - 1);
    }
  }

  lemma {:induction false} InsertPermutes<E>(less: (E, E) -> bool, s: seq<E>, x: E)
    ensures multiset(Insert(less, s, x)) == multiset(s) + multiset{x}
  {
    if s == [] {
    } else {
      assert s == [s[0]] + s[1..];
      InsertPermutes(less, s[1..], x);
    }
  }

  lemma {:induction false} InsertOrdered<E>(less: (E, E) -> bool, d: set<E>, s: seq<E>, x: E)
    requires Orders(less, d) && Members(s) <= d && x in d && Ordered(less, s)
    ensures Ordered(less, Insert(less, s, x))
  {
    if s == [] || less(x, s[0]) {
      forall i | 0 <= i < |s| ensures !less(s[i], x) {
        assert s[0] in Members(s) && s[i] in Members(s);
      }
    } else {
      var r := Insert(less, s[1..], x);
      InsertOrdered(less, d, s[1..], x);
      InsertPermutes(less, s[1..], x);
      forall i | 0 <= i < |r| ensures !less(r[i], s[0]) {
        assert r[i] in multiset(r);
        if r[i] != x { assert r[i] in s[1..]; }
      }
    }
  }

  lemma {:induction false} ClassJoin<E>(less: (E, E) -> bool, s: seq<E>, t: seq<E>, x: E)
    ensures Class(less, s + t, x) == Class(less, s, x) + Class(less, t, x)
  {
    if s == [] {
      assert s + t == t;
    } else {
      var first := if Same(less, x, s[0]) then [s[0]] else [];
      assert (s + t)[1..] == s[1..] + t;
      ClassJoin(less, s[1..], t, x);
      assert Class(less, s + t, x) == first + (Class(less, s[1..], x) + Class(less, t, x));
    }
  }

  lemma {:induction false} NoneLikeIt<E>(less: (E, E) -> bool, s: seq<E>, x: E)
    requires forall i | 0 <= i < |s| :: !Same(less, x, s[i])
    ensures Class(less, s, x) == []
  {
    if s == [] {
    } else {
      NoneLikeIt(less, s[1..], x);
    }
  }

  /** An inserted element lands behind everything it equals. */
  lemma {:induction false} InsertStable<E>(less: (E, E) -> bool, d: set<E>, s: seq<E>, x: E, y: E)
    requires Orders(less, d) && Members(s) <= d && x in d && y in d && Ordered(less, s)
    ensures Class(less, Insert(less, s, x), y) == Class(less, s, y) + Class(less, [x], y)
  {
    if s == [] {
    } else {
      if less(x, s[0]) {
        ClassJoin(less, [x], s, y);
        if Same(less, y, x) {
          forall i | 0 <= i < |s| ensures !Same(less, y, s[i]) {
            assert s[0] in Members(s) && s[i] in Members(s);
            assert !less(s[i], s[0]);
          }
          NoneLikeIt(less, s, y);
        }
      } else {
        InsertStable(less, d, s[1..], x, y);
        assert Insert(less, s, x)[1..] == Insert(less, s[1..], x);
      }
    }
  }

  lemma {:induction false} SortOrders<E>(less: (E, E) -> bool, d: set<E>, s: seq<E>)
    requires Orders(less, d) && Members(s) <= d
    ensures Ordered(less, InsertionSort(less, s))
  {
    if s == [] {
    } else {
      var n := |s| - 1;
      var r, x := InsertionSort(less, s[..n]), s[n];
      assert x in Members(s);
      SortOrders(less, d, s[..n]);
      SortPermutes(less, s[..n]);
      SameMembers(s[..n], r);
      InsertOrdered(less, d, r, x);
    }
  }

  lemma {:induction false} SortPermutes<E>(less: (E, E) -> bool, s: seq<E>)
    ensures multiset(InsertionSort(less, s)) == multiset(s)
  {
    if s == [] {
    } else {
      var n := |s| - 1;
      assert s == s[..n] + [s[n]];
      SortPermutes(less, s[..n]);
      InsertPermutes(less, InsertionSort(less, s[..n]), s[n]);
    }
  }

  lemma {:induction false} SortKeepsClass<E>(less: (E, E) -> bool, d: set<E>, s: seq<E>, y: E)
    requires Orders(less, d) && Members(s) <= d && y in d
    ensures Class(less, InsertionSort(less, s), y) == Class(less, s, y)
  {
    if s == [] {
    } else {
      var n := |s| - 1;
      var r, x := InsertionSort(less, s[..n]), s[n];
      assert s == s[..n] + [x] && x in Members(s);
      SortKeepsClass(less, d, s[..n], y);
      SortOrders(less, d, s[..n]);
      SortPermutes(less, s[..n]);
      SameMembers(s[..n], r);
      InsertStable(less, d, r, x, y);
      ClassJoin(less, s[..n], [x], y);
    }
  }

  /** The sort sorts, keeps every element, and keeps the order of equals. */
  lemma SortIsStable<E>(less: (E, E) -> bool, s: seq<E>)
    requires Orders(less, Members(s))
    ensures StablySorted(less, s, InsertionSort(less, s))
  {
    SortOrders(less, Members(s), s);
    SortPermutes(less, s);
    forall y | y in s ensures Class(less, InsertionSort(less, s), y) == Class(less, s, y) {
      SortKeepsClass(less, Members(s), s, y);
    }
  }

  /** No other sequence is a stable sort of s. */
  lemma StableSortIsUnique<E>(less: (E, E) -> bool, s: seq<E>, r: seq<E>, t: seq<E>)
    requires Orders(less, Members(s)) && StablySorted(less, s, r) && StablySorted(less, s, t)
    ensures r == t
  {
    SameMembers(s, r);
    SameMembers(s, t);
    AgreeingSortsAreEqual(less, Members(s), r, t);
  }

  lemma {:induction false} AgreeingSortsAreEqual<E>(less: (E, E) -> bool, d: set<E>, r: seq<E>, t: seq<E>)
    requires Orders(less, d) && Members(r) <= d && Ordered(less, r) && Ordered(less, t)
    requires multiset(r) == multiset(t) && SameClasses(less, r, t)
    ensures r == t
  {
    SameSize(r, t);
    if r != [] {
      SameHead(less, d, r, t);
      var x := r[0];
      assert r == [x] + r[1..] && t == [x] + t[1..];
      TailsAgree(r, t);
      forall z | z in r[1..] ensures Class(less, t[1..], z) == Class(less, r[1..], z) {
        var first := if Same(less, z, x) then [x] else [];
        assert z in r;
        assert first + Class(less, t[1..], z) == first + Class(less, r[1..], z);
        assert Class(less, t[1..], z) == (first + Class(less, t[1..], z))[|first|..];
      }
      AgreeingSortsAreEqual(less, d, r[1..], t[1..]);
    }
  }

  lemma SameSize<E>(r: seq<E>, t: seq<E>)
    requires multiset(r) == multiset(t)
    ensures |r| == |t|
  {
    assert |multiset(r)| == |r| && |multiset(t)| == |t|;
  }

  lemma TailsAgree<E>(r: seq<E>, t: seq<E>)
    requires multiset(r) == multiset(t) && |r| == |t| > 0 && r[0] == t[0]
    ensures multiset(r[1..]) == multiset(t[1..])
  {
    assert r == [r[0]] + r[1..] && t == [t[0]] + t[1..];
    assert multiset(r[1..]) == multiset(r) - multiset{r[0]};
    assert multiset(t[1..]) == multiset(t) - multiset{t[0]};
  }

  lemma SameHead<E>(less: (E, E) -> bool, d: set<E>, r: seq<E>, t: seq<E>)
    requires Orders(less, d) && Members(r) <= d && Ordered(less, r) && Ordered(less, t)
    requires multiset(r) == multiset(t) && SameClasses(less, r, t) && |r| == |t| > 0
    ensures r[0] == t[0]
  {
    SameMembers(r, t);
    var x, y := r[0], t[0];
    assert x in r && y in t;
    assert Same(less, x, x) && Same(less, x, y);
    assert Class(less, r, x)[0] == x && Class(less, t, x)[0] == y;
  }

  lemma SameMembers<E>(s: seq<E>, r: seq<E>)
    requires multiset(r) == multiset(s)
    ensures Members(r) == Members(s)
    ensures forall z :: z in r <==> z in s
  {
    forall z ensures z in r <==> z in s {
      assert z in r <==> z in multiset(r);
      assert z in s <==> z in multiset(s);
    }
  }

  // ---- Order kept, position by position ----

  /** An element of the class of x stands there behind those of the class that come before it in s. */
  lemma {:induction false} ClassAt<E>(less: (E, E) -> bool, s: seq<E>, x: E, i: nat)
    requires i < |s| && Same(less, x, s[i])
    ensures var c := |Class(less, s[..i], x)|; c < |Class(less, s, x)| && Class(less, s, x)[c] == s[i]
  {
    if i == 0 {
    } else {
      ClassAt(less, s[1..], x, i - 1);
      assert s[..i][1..] == s[1..][..i - 1] && s[..i][0] == s[0];
    }
  }

  lemma ClassGrows<E>(less: (E, E) -> bool, s: seq<E>, x: E, i: nat, j: nat)
    requires i < j <= |s| && Same(less, x, s[i])
    ensures |Class(less, s[..i], x)| < |Class(less, s[..j], x)|
  {
    ClassAt(less, s[..j], x, i);
    assert s[..j][..i] == s[..i];
  }

  lemma {:induction false} ClassDistinct<E>(less: (E, E) -> bool, s: seq<E>, x: E)
    requires Distinct(s)
    ensures Distinct(Class(less, s, x)) && forall y | y in Class(less, s, x) :: y in s
  {
    if s == [] {
    } else {
      ClassDistinct(less, s[1..], x);
      var rest := Class(less, s[1..], x);
      assert forall i | 0 <= i < |s| - 1 :: s[1..][i] == s[i + 1] != s[0];
      assert s[0] !in rest;
      assert Distinct([s[0]] + rest);
    }
  }

  /** Two elements that compare equal stand in r in the order they have in s, if their class does. */
  lemma ClassOrder<E>(less: (E, E) -> bool, s: seq<E>, r: seq<E>, a: nat, b: nat, p: nat, q: nat)
    requires Distinct(s) && a < b < |s| && p < |r| && q < |r| && r[p] == s[a] && r[q] == s[b]
    requires Class(less, r, s[a]) == Class(less, s, s[a]) && Same(less, s[a], s[a]) && Same(less, s[a], s[b])
    ensures p < q
  {
    var x := s[a];
    ClassAt(less, s, x, a);
    ClassAt(less, s, x, b);
    ClassAt(less, r, x, p);
    ClassAt(less, r, x, q);
    ClassDistinct(less, s, x);
    ClassGrows(less, s, x, a, b);
    if q < p {
      ClassGrows(less, r, x, q, p);
    }
  }
}
