/** Small vocabulary shared by the other modules: optional values, bytes, and sums over sequences. */
module Common {

  datatype Option<+T> = None | Some(value: T)

  type Byte = x: int | 0 <= x < 256

  const TWO_TO_THE_31: int := 0x8000_0000
  const TWO_TO_THE_32: int := 0x1_0000_0000

  ghost predicate Distinct<E>(s: seq<E>) {
    forall i, j | 0 <= i < j < |s| :: s[i] != s[j]
  }

  /** s without its element at position k. */
  function Cut<E>(s: seq<E>, k: nat): seq<E>
    requires k < |s|
  {
    s[..k] + s[k + 1..]
  }

  /** The union, with multiplicities, of what f says about every element of s. */
  ghost function Gather<S, T>(f: S -> multiset<T>, s: seq<S>): multiset<T> {
    if s == [] then multiset{} else Gather(f, s[..|s| - 1]) + f(s[|s| - 1])
  }

  lemma {:induction false} GatherUpdate<S, T>(f: S -> multiset<T>, s: seq<S>, i: nat, x: S)
    requires i < |s|
    ensures f(s[i]) <= Gather(f, s)
    ensures Gather(f, s[i := x]) == Gather(f, s) - f(s[i]) + f(x)
  {
    var n, s' := |s| - 1, s[i := x];
    if i == n {
      assert s'[..n] == s[..n];
    } else {
      GatherUpdate(f, s[..n], i, x);
      assert s'[..n] == s[..n][i := x];
      var a, a', last := Gather(f, s[..n]), Gather(f, s'[..n]), f(s[n]);
      assert a' + last == (a + last) - f(s[i]) + f(x);
    }
  }

  /** The sum of what f says about every element of s. */
  function Total<S>(f: S -> nat, s: seq<S>): nat {
    if s == [] then 0 else Total(f, s[..|s| - 1]) + f(s[|s| - 1])
  }

  lemma {:induction false} TotalUpdate<S>(f: S -> nat, s: seq<S>, i: nat, x: S)
    requires i < |s|
    ensures Total(f, s[i := x]) + f(s[i]) == Total(f, s) + f(x)
  {
    var n, s' := |s| - 1, s[i := x];
    if i == n {
      assert s'[..n] == s[..n];
    } else {
      TotalUpdate(f, s[..n], i, x);
      assert s'[..n] == s[..n][i := x];
    }
  }

  lemma {:induction false} TotalBounds<S>(f: S -> nat, s: seq<S>, i: nat)
    requires i < |s|
    ensures f(s[i]) <= Total(f, s)
  {
    if i == |s| - 1 {
    } else {
      TotalBounds(f, s[..|s| - 1], i);
    }
  }

  lemma {:induction false} TotalOfPair<S>(f: S -> nat, s: seq<S>, i: nat, j: nat)
    requires i < j < |s|
    ensures f(s[i]) + f(s[j]) <= Total(f, s)
  {
    if j < |s| - 1 {
      TotalOfPair(f, s[..|s| - 1], i, j);
    } else {
      TotalBounds(f, s[..|s| - 1], i);
    }
  }

  lemma {:induction false} TotalZero<S>(f: S -> nat, s: seq<S>)
    requires forall i | 0 <= i < |s| :: f(s[i]) == 0
    ensures Total(f, s) == 0
  {
    if s == [] {
    } else {
      TotalZero(f, s[..|s| - 1]);
    }
  }
}
