/**
 * The array-linked list of src/qc_rt/qc_list.c: cells 0 .. limit - 1 linked by index. The ghost field
 * Contents is the sequence of distinct cells the list stands for.
 */
module StaticLists {
  import opened Common

  const INVALID := -99

  datatype Cell = Cell(previous: int, next: int)

  function At(s: seq<int>, i: int): int {
    if 0 <= i < |s| then s[i] else INVALID
  }

  function IndexOf(s: seq<int>, x: int): (i: nat)
    requires x in s
    ensures i < |s| && s[i] == x
  {
    if s[0] == x then 0 else 1 + IndexOf(s[1..], x)
  }

  function InsertAfter(s: seq<int>, i: nat, x: int): seq<int>
    requires i < |s|
  {
    s[..i + 1] + [x] + s[i + 1..]
  }

  /** The cells the list occupies, linked both ways in the order of s. */
  predicate LinkOk(c: seq<Cell>, s: seq<int>, i: int)
    requires 0 <= i < |s| && 0 <= s[i] < |c|
  {
    c[s[i]] == Cell(At(s, i - 1), At(s, i + 1))
  }

  predicate InRange(s: seq<int>, limit: int) {
    forall i | 0 <= i < |s| :: 0 <= s[i] < limit
  }

  ghost predicate Links(c: seq<Cell>, s: seq<int>) {
    && Distinct(s) && InRange(s, |c|)
    && forall i {:trigger LinkOk(c, s, i)} | 0 <= i < |s| :: LinkOk(c, s, i)
  }

  function SetNext(c: seq<Cell>, i: int, x: int): seq<Cell> {
    if 0 <= i < |c| then c[i := c[i].(next := x)] else c
  }

  function SetPrevious(c: seq<Cell>, i: int, x: int): seq<Cell> {
    if 0 <= i < |c| then c[i := c[i].(previous := x)] else c
  }

  /** The cells after position k of s was taken out: its neighbours point at each other. */
  function CutCells(c: seq<Cell>, s: seq<int>, k: nat): seq<Cell>
    requires k < |s| && 0 <= s[k] < |c|
  {
    SetPrevious(SetNext(c, At(s, k - 1), At(s, k + 1)), At(s, k + 1), At(s, k - 1))[s[k] := Cell(INVALID, INVALID)]
  }

  lemma CutLinks(c: seq<Cell>, s: seq<int>, k: nat)
    requires Links(c, s) && k < |s|
    ensures Links(CutCells(c, s, k), Cut(s, k))
  {
    var c', r := CutCells(c, s, k), Cut(s, k);
    forall i | 0 <= i < |r| ensures LinkOk(c', r, i) {
      var j := if i < k then i else i + 1;
      assert LinkOk(c, s, j);
      assert s[j] != s[k];
      if k > 0 && j != k - 1 { assert s[j] != s[k - 1]; }
      if k + 1 < |s| && j != k + 1 { assert s[j] != s[k + 1]; }
    }
  }

  /** The first and last cell after position k of s was taken out. */
  lemma CutEnds(s: seq<int>, k: nat)
    requires k < |s|
    ensures var r := Cut(s, k);
      && |r| == |s| - 1
      && At(r, 0) == (if k == 0 then At(s, 1) else s[0])
      && At(r, |r| - 1) == (if k == |s| - 1 then At(s, k - 1) else s[|s| - 1])
  {
  }

  /** The cells after x was put behind position k of s. */
  function InsertCells(c: seq<Cell>, s: seq<int>, k: nat, x: int): seq<Cell>
    requires k < |s| && 0 <= x < |c|
  {
    SetPrevious(SetNext(c, s[k], x), At(s, k + 1), x)[x := Cell(s[k], At(s, k + 1))]
  }

  lemma InsertLinks(c: seq<Cell>, s: seq<int>, k: nat, x: int)
    requires Links(c, s) && k < |s| && 0 <= x < |c| && x !in s
    ensures Links(InsertCells(c, s, k, x), InsertAfter(s, k, x))
  {
    var c', r := InsertCells(c, s, k, x), InsertAfter(s, k, x);
    InsertedElements(s, k, x, |c|);
    forall i | 0 <= i < |r| ensures LinkOk(c', r, i) {
      if i <= k {
        InsertedLink(c, s, k, x, i);
      } else if i > k + 1 {
        InsertedLink(c, s, k, x, i - 1);
      }
    }
  }

  lemma InsertedElements(s: seq<int>, k: nat, x: int, limit: int)
    requires Distinct(s) && InRange(s, limit) && k < |s| && 0 <= x < limit && x !in s
    ensures var r := InsertAfter(s, k, x);
      && Distinct(r) && InRange(r, limit)
      && forall i | 0 <= i < |r| :: r[i] == if i <= k then s[i] else if i == k + 1 then x else s[i - 1]
  {
  }

  /** What the old element at position j looks like afterwards. */
  lemma InsertedLink(c: seq<Cell>, s: seq<int>, k: nat, x: int, j: nat)
    requires Links(c, s) && k < |s| && 0 <= x < |c| && x !in s && j < |s|
    ensures InsertCells(c, s, k, x)[s[j]]
         == Cell(if j == k + 1 then x else At(s, j - 1), if j == k then x else At(s, j + 1))
  {
    assert LinkOk(c, s, j);
    assert s[j] != x;
    assert j != k ==> s[j] != s[k];
    assert j != k + 1 && k + 1 < |s| ==> s[j] != s[k + 1];
  }

  function HeadCells(c: seq<Cell>, s: seq<int>, x: int): seq<Cell>
    requires 0 <= x < |c|
  {
    SetPrevious(c, At(s, 0), x)[x := Cell(INVALID, At(s, 0))]
  }

  lemma HeadLinks(c: seq<Cell>, s: seq<int>, x: int)
    requires Links(c, s) && 0 <= x < |c| && x !in s
    ensures Links(HeadCells(c, s, x), [x] + s)
  {
    var c', r := HeadCells(c, s, x), [x] + s;
    forall i | 0 <= i < |r| ensures LinkOk(c', r, i) {
      if i > 0 {
        assert LinkOk(c, s, i - 1);
        if i > 1 { assert s[i - 1] != s[0]; }
      }
    }
  }

  function TailCells(c: seq<Cell>, s: seq<int>, x: int): seq<Cell>
    requires 0 <= x < |c|
  {
    SetNext(c, At(s, |s| - 1), x)[x := Cell(At(s, |s| - 1), INVALID)]
  }

  lemma TailLinks(c: seq<Cell>, s: seq<int>, x: int)
    requires Links(c, s) && 0 <= x < |c| && x !in s
    ensures Links(TailCells(c, s, x), s + [x])
  {
    var c', r := TailCells(c, s, x), s + [x];
    forall i | 0 <= i < |r| ensures LinkOk(c', r, i) {
      if i < |s| {
        assert LinkOk(c, s, i);
        if i < |s| - 1 { assert s[i] != s[|s| - 1]; }
      }
    }
  }

  // ---- A member added once more ----

  /** The next fields lead through the cells of p, one after the other. */
  ghost predicate Follows(c: seq<Cell>, p: seq<int>) {
    && Distinct(p) && InRange(p, |c|)
    && forall i | 0 <= i < |p| - 1 :: c[p[i]].next == p[i + 1]
  }

  /** The cells after the member at position k was added at the end although it is in the list. */
  function AgainCells(c: seq<Cell>, s: seq<int>, k: nat): seq<Cell>
    requires k < |s| && 0 <= s[k] < |c|
  {
    SetNext(c[s[k] := Cell(s[|s| - 1], INVALID)], s[|s| - 1], s[k])
  }

  /** The list is cut off behind that member; if it was the last one it becomes its own successor. */
  lemma AgainCutsOff(c: seq<Cell>, s: seq<int>, k: nat)
    requires Links(c, s) && k < |s|
    ensures Follows(AgainCells(c, s, k), s[..k + 1])
    ensures AgainCells(c, s, k)[s[k]].next == if k == |s| - 1 then s[k] else INVALID
  {
    var c', p := AgainCells(c, s, k), s[..k + 1];
    forall i | 0 <= i < |p| - 1 ensures c'[p[i]].next == p[i + 1] {
      assert LinkOk(c, s, i);
      assert s[i] != s[k] && (k < |s| - 1 ==> s[i] != s[|s| - 1]);
    }
  }

  lemma {:induction false} WalkAgrees(c: seq<Cell>, p: seq<int>, r: seq<int>, i: nat)
    requires Follows(c, p) && Links(c, r) && |p| < |r| && i < |p| && r[0] == p[0]
    ensures r[i] == p[i] && c[p[i]].next == r[i + 1]
  {
    assert LinkOk(c, r, i);
    if i == 0 {
    } else {
      WalkAgrees(c, p, r, i - 1);
    }
  }

  /** Cells whose next fields end early, or run in a circle, are no list of more cells. */
  lemma NoLongerList(c: seq<Cell>, p: seq<int>, r: seq<int>)
    requires p != [] && Follows(c, p) && c[p[|p| - 1]].next in {INVALID, p[|p| - 1]}
    requires |p| < |r| && r[0] == p[0]
    ensures !Links(c, r)
  {
    if Links(c, r) {
      WalkAgrees(c, p, r, |p| - 1);
    }
  }

  class StaticList {
    var limit: int
    var cells: array<Cell>
    var head: int
    var tail: int
    var num: int
    ghost var Contents: seq<int>

    /** The fields stand for the list of the cells s. */
    ghost predicate Represents(s: seq<int>)
      reads this, cells
    {
      num == |s| && Links(cells[..], s) && head == At(s, 0) && tail == At(s, |s| - 1)
    }

    ghost predicate Valid()
      reads this, cells
    {
      0 < limit == cells.Length && Represents(Contents)
    }

    constructor ()
      ensures fresh(cells)
    {
      limit, head, tail, num := 0, INVALID, INVALID, 0;
      cells := new Cell[0];
    }

    /** Every cell in the list, in order; -1 and no change for a limit that is not positive. */
    method Init(limit: int) returns (ret: int)
      modifies this
      ensures ret == if limit <= 0 then -1 else 0
      ensures limit > 0 ==>
                && Valid() && fresh(cells) && this.limit == limit
                && Contents == seq(limit, i => i)
      ensures limit <= 0 ==> unchanged(this)
    {
      if limit <= 0 {
        return -1;
      }
      this.limit := limit;
      cells := new Cell[limit](_ => Cell(0, 0));
      for i := 0 to limit
        invariant cells.Length == limit == this.limit && fresh(cells)
        invariant forall j | 0 <= j < i :: cells[j] == Cell(if j == 0 then INVALID else j - 1, j + 1)
      {
        cells[i] := Cell(if i == 0 then INVALID else i - 1, i + 1);
      }
      cells[limit - 1] := cells[limit - 1].(next := INVALID);
      head, tail, num := 0, limit - 1, limit;
      Contents := seq(limit, i => i);
      return 0;
    }

    method GetHead() returns (cell: int)
      requires Valid()
      modifies this`head, this`tail, this`num, this`Contents, cells
      ensures Valid()
      ensures cell == At(old(Contents), 0)
      ensures Contents == if old(Contents) == [] then [] else old(Contents)[1..]
    {
      cell := head;
      if cell != INVALID {
        CutLinks(cells[..], Contents, 0);
        assert LinkOk(cells[..], Contents, 0);
        head := cells[cell].next;
        if head == INVALID {
          tail := INVALID;
        } else {
          cells[head] := cells[head].(previous := INVALID);
        }
        num := num - 1;
        cells[cell] := Cell(INVALID, INVALID);
        assert cells[..] == CutCells(old(cells[..]), Contents, 0);
        assert Contents[1..] == Cut(Contents, 0);
        Contents := Contents[1..];
      }
    }

    method GetTail() returns (cell: int)
      requires Valid()
      modifies this`head, this`tail, this`num, this`Contents, cells
      ensures Valid()
      ensures cell == At(old(Contents), |old(Contents)| - 1)
      ensures Contents == if old(Contents) == [] then [] else old(Contents)[..|old(Contents)| - 1]
    {
      cell := tail;
      if cell != INVALID {
        ghost var c, s, k := cells[..], Contents, |Contents| - 1;
        CutLinks(c, s, k);
        assert LinkOk(c, s, k);
        tail := cells[cell].previous;
        if tail == INVALID {
          head := INVALID;
        } else {
          cells[tail] := cells[tail].(next := INVALID);
        }
        num := num - 1;
        cells[cell] := Cell(INVALID, INVALID);
        assert cells[..] == CutCells(c, s, k);
        assert s[..k] == Cut(s, k);
        Contents := Contents[..|Contents| - 1];
      }
    }

    /** Takes a member out of the middle; the caller names a member unless the list is empty. */
    method GetAt(cell: int) returns (ret: int)
      requires Valid() && (0 <= cell < limit && Contents != [] ==> cell in Contents)
      modifies this`head, this`tail, this`num, this`Contents, cells
      ensures Valid()
      ensures ret == if !(0 <= cell < limit) then -1 else if old(Contents) == [] then INVALID else cell
      ensures Contents == if ret == cell && old(Contents) != [] && 0 <= cell < limit
                          then Cut(old(Contents), IndexOf(old(Contents), cell)) else old(Contents)
    {
      if cell < 0 || cell >= limit {
        return -1;
      }
      if head == INVALID {
        return INVALID;
      }
      ghost var c, s, k := cells[..], Contents, IndexOf(Contents, cell);
      CutLinks(c, s, k);
      assert LinkOk(c, s, k);
      var pre, next := cells[cell].previous, cells[cell].next;
      if pre != INVALID {
        cells[pre] := cells[pre].(next := next);
      } else {
        head := next;
      }
      if next != INVALID {
        cells[next] := cells[next].(previous := pre);
      } else {
        tail := pre;
      }
      num := num - 1;
      cells[cell] := Cell(INVALID, INVALID);
      assert cells[..] == CutCells(c, s, k);
      CutEnds(s, k);
      Contents := Cut(s, k);
      return cell;
    }

    method AddHead(cell: int) returns (ret: int)
      requires Valid() && cell !in Contents
      modifies this`head, this`tail, this`num, this`Contents, cells
      ensures Valid()
      ensures ret == if 0 <= cell < limit then cell else -1
      ensures Contents == if 0 <= cell < limit then [cell] + old(Contents) else old(Contents)
    {
      if cell < 0 || cell >= limit {
        return -1;
      }
      HeadLinks(cells[..], Contents, cell);
      if head == INVALID {
        cells[cell] := Cell(INVALID, INVALID);
        head, tail, num := cell, cell, 1;
      } else {
        assert head == Contents[0] != cell;
        cells[cell] := Cell(INVALID, head);
        cells[head] := cells[head].(previous := cell);
        head, num := cell, num + 1;
      }
      assert cells[..] == HeadCells(old(cells[..]), Contents, cell);
      Contents := [cell] + Contents;
      return cell;
    }

    /**
     * Puts a cell at the end. Nobody asks whether it is a member; one breaks the list: what can be reached from
     * the head ends with that member, the count goes up all the same, and the fields stand for no list any more.
     */
    method AddTail(cell: int) returns (ret: int)
      requires Valid()
      modifies this`head, this`tail, this`num, this`Contents, cells
      ensures ret == if 0 <= cell < limit then cell else -1
      ensures cell !in old(Contents) ==>
                Valid() && Contents == if 0 <= cell < limit then old(Contents) + [cell] else old(Contents)
      ensures cell in old(Contents) ==>
                && Contents == old(Contents)[..IndexOf(old(Contents), cell) + 1]
                && Follows(cells[..], Contents) && num == old(num) + 1 && forall s :: !Represents(s)
    {
      if cell < 0 || cell >= limit {
        return -1;
      }
      ghost var c, s := cells[..], Contents;
      if head == INVALID {
        cells[cell] := Cell(INVALID, INVALID);
        head, tail, num := cell, cell, 1;
      } else {
        cells[cell] := Cell(tail, INVALID);
        cells[tail] := cells[tail].(next := cell);
        tail, num := cell, num + 1;
      }
      if cell in s {
        ghost var k := IndexOf(s, cell);
        assert cells[..] == AgainCells(c, s, k);
        Contents := s[..k + 1];
        AgainCutsOff(c, s, k);
        forall r ensures !Represents(r) {
          if |r| == |s| + 1 && r[0] == s[0] { NoLongerList(cells[..], Contents, r); }
        }
      } else {
        assert cells[..] == TailCells(c, s, cell);
        TailLinks(c, s, cell);
        Contents := s + [cell];
      }
      return cell;
    }

    /** The relinking of AddAt: cell goes behind the member at position k. */
    method LinkBehind(previousCell: int, cell: int, ghost k: nat)
      requires Valid() && cell !in Contents && 0 <= cell < limit && k < |Contents| && Contents[k] == previousCell
      modifies this`head, this`tail, this`num, this`Contents, cells
      ensures Valid() && Contents == InsertAfter(old(Contents), k, cell)
    {
      ghost var c, s := cells[..], Contents;
      InsertLinks(c, s, k, cell);
      assert LinkOk(c, s, k);
      var next := cells[previousCell].next;
      cells[previousCell] := cells[previousCell].(next := cell);
      if next != INVALID {
        cells[next] := cells[next].(previous := cell);
        cells[cell] := Cell(previousCell, next);
      } else {
        cells[cell] := Cell(previousCell, INVALID);
        tail := cell;
      }
      num := num + 1;
      assert cells[..] == InsertCells(c, s, k, cell);
      Contents := InsertAfter(s, k, cell);
    }

    /** Puts a cell behind a member. */
    method AddAt(previousCell: int, cell: int) returns (ret: int)
      requires Valid() && cell !in Contents
      requires 0 <= previousCell < limit && Contents != [] ==> previousCell in Contents
      modifies this`head, this`tail, this`num, this`Contents, cells
      ensures Valid()
      ensures ret == if !(0 <= previousCell < limit && 0 <= cell < limit) then -1
                     else if old(Contents) == [] then INVALID else cell
      ensures Contents == if 0 <= previousCell < limit && 0 <= cell < limit && old(Contents) != []
                          then InsertAfter(old(Contents), IndexOf(old(Contents), previousCell), cell)
                          else old(Contents)
    {
      if previousCell < 0 || previousCell >= limit {
        return -1;
      }
      if cell < 0 || cell >= limit {
        return -1;
      }
      if head == INVALID {
        return INVALID;
      }
      LinkBehind(previousCell, cell, IndexOf(Contents, previousCell));
      return cell;
    }

    method Clear()
      requires Valid()
      modifies this`head, this`tail, this`num, this`Contents, cells
      ensures Valid() && Contents == []
    {
      var n := num;
      for i := 0 to n
        invariant Valid() && |Contents| == n - i
      {
        var _ := GetHead();
      }
    }

    method Count() returns (n: int)
      requires Valid()
      ensures n == |Contents|
    {
      return num;
    }
  }
}
