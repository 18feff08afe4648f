/**
 * Column configuration of the contract table: the settings dialog's working
 * copy (sorted on opening, toggled, moved, saved) and the table's list of
 * visible columns.
 */
module Columns {
  import opened Seqs

  datatype ColumnConfig = ColumnConfig(key: string, title: string, visible: bool, order: int)

  predicate SortedByOrder(s: seq<ColumnConfig>) {
    forall i, j :: 0 <= i < j < |s| ==> s[i].order <= s[j].order
  }

  function OrderIs(k: int): ColumnConfig -> bool {
    (c: ColumnConfig) => c.order == k
  }

  predicate IsVisible(c: ColumnConfig) {
    c.visible
  }

  /** The columns whose `order` is `k`, in list order. */
  function WithOrder(s: seq<ColumnConfig>, k: int): seq<ColumnConfig> {
    Filter(OrderIs(k), s)
  }

  // ---------------------------------------------------------------- sorting by order

  /** Puts `x` before the first column of `s` whose order is not below its own. */
  function Insert(x: ColumnConfig, s: seq<ColumnConfig>): (r: seq<ColumnConfig>)
    ensures |r| == |s| + 1
    ensures multiset(r) == multiset(s) + multiset{x}
    decreases |s|
  {
    if s == [] || x.order <= s[0].order then
      [x] + s
    else
      assert s == [s[0]] + s[1..];
      [s[0]] + Insert(x, s[1..])
  }

  /** Inserting into a sorted list keeps it sorted. */
  lemma {:induction false} InsertKeepsSorted(x: ColumnConfig, s: seq<ColumnConfig>)
    requires SortedByOrder(s)
    ensures SortedByOrder(Insert(x, s))
    decreases |s|
  {
    if s != [] && x.order > s[0].order {
      var rest := Insert(x, s[1..]);
      InsertKeepsSorted(x, s[1..]);
      assert s == [s[0]] + s[1..];
      forall j | 0 <= j < |rest| ensures s[0].order <= rest[j].order {
        assert rest[j] in multiset(rest);
        if rest[j] != x {
          assert rest[j] in multiset(s[1..]);
          var k :| 0 <= k < |s[1..]| && s[1..][k] == rest[j];
          assert s[k + 1] == rest[j];
        }
      }
      var r := Insert(x, s);
      assert r == [s[0]] + rest;
      forall i, j | 0 <= i < j < |r| ensures r[i].order <= r[j].order {
        assert r[j] == rest[j - 1];
        if i > 0 {
          assert r[i] == rest[i - 1];
        }
      }
    }
  }

  /** The order class `k` of `[x] + s` is that of `s`, with `x` in front when its order is `k`. */
  lemma ConsOrderClass(x: ColumnConfig, s: seq<ColumnConfig>, k: int)
    ensures WithOrder([x] + s, k) == if x.order == k then [x] + WithOrder(s, k) else WithOrder(s, k)
  {
    FilterConcat(OrderIs(k), [x], s);
    assert [x][1..] == [];
  }

  /** Inserting into a sorted list puts `x` first among the columns of its order. */
  lemma {:induction false} InsertOrderClass(x: ColumnConfig, s: seq<ColumnConfig>, k: int)
    requires SortedByOrder(s)
    ensures WithOrder(Insert(x, s), k) == if x.order == k then [x] + WithOrder(s, k) else WithOrder(s, k)
    decreases |s|
  {
    if s == [] || x.order <= s[0].order {
      ConsOrderClass(x, s, k);
    } else {
      var rest := Insert(x, s[1..]);
      assert s == [s[0]] + s[1..];
      InsertOrderClass(x, s[1..], k);
      ConsOrderClass(s[0], rest, k);
      ConsOrderClass(s[0], s[1..], k);
    }
  }

  /**
   * `[...columns].sort((a, b) => a.order - b.order)`: a permutation of the
   * columns in ascending order.
   */
  function SortByOrder(s: seq<ColumnConfig>): (r: seq<ColumnConfig>)
    ensures SortedByOrder(r)
    ensures multiset(r) == multiset(s)
    decreases |s|
  {
    if s == [] then []
    else
      assert s == [s[0]] + s[1..];
      InsertKeepsSorted(s[0], SortByOrder(s[1..]));
      Insert(s[0], SortByOrder(s[1..]))
  }

  /** The sort is stable: the columns of each order keep their relative order. */
  lemma {:induction false} SortIsStable(s: seq<ColumnConfig>, k: int)
    ensures WithOrder(SortByOrder(s), k) == WithOrder(s, k)
    decreases |s|
  {
    if s != [] {
      SortIsStable(s[1..], k);
      InsertOrderClass(s[0], SortByOrder(s[1..]), k);
      ConsOrderClass(s[0], s[1..], k);
      assert s == [s[0]] + s[1..];
    }
  }

  /** Sorting a list that is already in order changes nothing. */
  lemma {:induction false} SortSorted(s: seq<ColumnConfig>)
    requires SortedByOrder(s)
    ensures SortByOrder(s) == s
    decreases |s|
  {
    if s != [] {
      SortSorted(s[1..]);
      assert SortByOrder(s) == Insert(s[0], s[1..]);
    }
  }

  /**
   * `getVisibleColumns`: the visible columns, each as often as in the list,
   * in display order; columns of equal order keep their list order.
   */
  function VisibleColumns(cols: seq<ColumnConfig>): (r: seq<ColumnConfig>)
    ensures SortedByOrder(r)
    ensures multiset(r) == multiset(Filter(IsVisible, cols))
    ensures forall k :: WithOrder(r, k) == WithOrder(Filter(IsVisible, cols), k)
    ensures forall c :: c in r <==> c in cols && c.visible
  {
    SortedVisible(cols);
    Filter(IsVisible, SortByOrder(cols))
  }

  /** The facts `VisibleColumns` promises, about the visible part of the sorted list. */
  lemma SortedVisible(cols: seq<ColumnConfig>)
    ensures var r := Filter(IsVisible, SortByOrder(cols));
      SortedByOrder(r)
      && multiset(r) == multiset(Filter(IsVisible, cols))
      && (forall k :: WithOrder(r, k) == WithOrder(Filter(IsVisible, cols), k))
      && (forall c :: c in r <==> c in cols && c.visible)
  {
    var sorted := SortByOrder(cols);
    FilterSubsequence(IsVisible, sorted);
    SubsequenceKeepsSorted(Filter(IsVisible, sorted), sorted);
    VisibleMultiset(cols);
    forall k ensures WithOrder(Filter(IsVisible, sorted), k) == WithOrder(Filter(IsVisible, cols), k) {
      VisibleOrderClass(cols, k);
    }
    forall c ensures c in sorted <==> c in cols {
      assert c in sorted <==> multiset(sorted)[c] > 0;
    }
  }

  /** Sorting before hiding keeps every visible column as often as the list has it. */
  lemma VisibleMultiset(cols: seq<ColumnConfig>)
    ensures multiset(Filter(IsVisible, SortByOrder(cols))) == multiset(Filter(IsVisible, cols))
  {
    var sorted := SortByOrder(cols);
    FilterMultiset(IsVisible, sorted);
    FilterMultiset(IsVisible, cols);
  }

  /** Hiding columns and sorting commute on each order class, since the sort is stable. */
  lemma VisibleOrderClass(cols: seq<ColumnConfig>, k: int)
    ensures WithOrder(Filter(IsVisible, SortByOrder(cols)), k) == WithOrder(Filter(IsVisible, cols), k)
  {
    var sorted := SortByOrder(cols);
    FilterTwiceCongruent(OrderIs(k), IsVisible, IsVisible, OrderIs(k), sorted);
    FilterTwiceCongruent(OrderIs(k), IsVisible, IsVisible, OrderIs(k), cols);
    SortIsStable(cols, k);
  }

  lemma {:induction false} SubsequenceKeepsSorted(r: seq<ColumnConfig>, s: seq<ColumnConfig>)
    requires Subsequence(r, s) && SortedByOrder(s)
    ensures SortedByOrder(r)
    decreases |s|
  {
    if r != [] {
      if r[0] == s[0] && Subsequence(r[1..], s[1..]) {
        SubsequenceKeepsSorted(r[1..], s[1..]);
        SubsequenceMembers(r[1..], s[1..]);
        forall i, j | 0 <= i < j < |r| ensures r[i].order <= r[j].order {
          assert r[j] == r[1..][j - 1];
          if i == 0 {
            assert r[j] in r[1..];
            assert r[j] in s[1..];
            var k :| 0 <= k < |s[1..]| && s[1..][k] == r[j];
            assert s[k + 1] == r[j];
          } else {
            assert r[i] == r[1..][i - 1];
          }
        }
      } else {
        SubsequenceKeepsSorted(r, s[1..]);
      }
    }
  }

  lemma {:induction false} SubsequenceMembers(r: seq<ColumnConfig>, s: seq<ColumnConfig>)
    requires Subsequence(r, s)
    ensures forall x :: x in r ==> x in s
    decreases |s|
  {
    if r != [] {
      if r[0] == s[0] && Subsequence(r[1..], s[1..]) {
        SubsequenceMembers(r[1..], s[1..]);
        assert forall x :: x in r ==> x == r[0] || x in r[1..];
      } else {
        SubsequenceMembers(r, s[1..]);
      }
    }
  }

  // ---------------------------------------------------------------- editing the working copy

  /** `toggleColumnVisibility(key)`: flips `visible` of the columns with that key. */
  function ToggleVisible(cols: seq<ColumnConfig>, key: string): (r: seq<ColumnConfig>)
    ensures |r| == |cols|
    ensures forall i :: 0 <= i < |cols| ==>
      r[i] == if cols[i].key == key then cols[i].(visible := !cols[i].visible) else cols[i]
  {
    Map((c: ColumnConfig) => if c.key == key then c.(visible := !c.visible) else c, cols)
  }

  /** Toggling the same key twice restores the list. */
  lemma ToggleTwice(cols: seq<ColumnConfig>, key: string)
    ensures ToggleVisible(ToggleVisible(cols, key), key) == cols
  {
    var r := ToggleVisible(ToggleVisible(cols, key), key);
    assert forall i :: 0 <= i < |cols| ==> r[i] == cols[i];
  }

  /** `toggleSelectAll(selected)`: every column shown or every column hidden. */
  function SelectAll(cols: seq<ColumnConfig>, selected: bool): (r: seq<ColumnConfig>)
    ensures |r| == |cols|
    ensures forall i :: 0 <= i < |cols| ==>
      r[i].visible == selected && r[i].key == cols[i].key && r[i].title == cols[i].title
      && r[i].order == cols[i].order
  {
    Map((c: ColumnConfig) => c.(visible := selected), cols)
  }

  /** Showing every column makes the visible list the sorted list of all columns. */
  lemma SelectAllShowsEverything(cols: seq<ColumnConfig>)
    ensures VisibleColumns(SelectAll(cols, true)) == SortByOrder(SelectAll(cols, true))
    ensures VisibleColumns(SelectAll(cols, false)) == []
  {
    var shown := SortByOrder(SelectAll(cols, true));
    assert forall c :: c in shown ==> c in SelectAll(cols, true) by {
      forall c | c in shown ensures c in SelectAll(cols, true) {
        assert multiset(shown)[c] > 0;
      }
    }
    FilterAllPass(IsVisible, shown);
    var none := SortByOrder(SelectAll(cols, false));
    forall c | c in none ensures !IsVisible(c) {
      assert multiset(none)[c] > 0;
    }
    FilterNonePass(IsVisible, none);
  }

  /** The column without its position, for comparing lists up to renumbering. */
  function Unordered(c: ColumnConfig): ColumnConfig {
    c.(order := 0)
  }

  /** Every column's `order` set to its index. */
  function Renumber(s: seq<ColumnConfig>): (r: seq<ColumnConfig>)
    ensures |r| == |s|
    ensures forall i :: 0 <= i < |s| ==> r[i] == s[i].(order := i)
  {
    seq(|s|, i requires 0 <= i < |s| => s[i].(order := i))
  }

  /** The index `moveColumn` swaps with, or none at the boundary. */
  predicate AtBoundary(n: nat, index: int, up: bool) {
    (up && index == 0) || (!up && index == n - 1)
  }

  /** `moveColumn(index, direction)` on values. */
  function Moved(s: seq<ColumnConfig>, index: int, up: bool): (r: seq<ColumnConfig>)
    requires 0 <= index < |s|
    ensures |r| == |s|
  {
    if AtBoundary(|s|, index, up) then s
    else
      var target := if up then index - 1 else index + 1;
      Renumber(s[index := s[target]][target := s[index]])
  }

  /** A move at the edge of the list is a no-op. */
  lemma MoveAtBoundary(s: seq<ColumnConfig>, index: int, up: bool)
    requires 0 <= index < |s| && AtBoundary(|s|, index, up)
    ensures Moved(s, index, up) == s
  {
  }

  /**
   * Any other move exchanges the column with its neighbour and numbers every
   * column by its new position; the columns themselves are the same ones.
   */
  lemma MoveSwapsAndRenumbers(s: seq<ColumnConfig>, index: int, up: bool)
    requires 0 <= index < |s| && !AtBoundary(|s|, index, up)
    ensures var target := if up then index - 1 else index + 1;
      var r := Moved(s, index, up);
      0 <= target < |s|
      && r[target] == s[index].(order := target) && r[index] == s[target].(order := index)
      && (forall i :: 0 <= i < |s| && i != index && i != target ==> r[i] == s[i].(order := i))
      && (forall i :: 0 <= i < |s| ==> r[i].order == i)
      && multiset(Map(Unordered, r)) == multiset(Map(Unordered, s))
  {
    var target := if up then index - 1 else index + 1;
    var swapped := s[index := s[target]][target := s[index]];
    var r := Moved(s, index, up);
    assert Map(Unordered, r) == Map(Unordered, swapped);
    var u := Map(Unordered, s);
    assert Map(Unordered, swapped) == u[index := u[target]][target := u[index]];
  }

  /** Moving a column down and then back up restores the list, renumbered. */
  lemma MoveDownThenUp(s: seq<ColumnConfig>, index: int)
    requires 0 <= index < |s| - 1
    ensures Moved(Moved(s, index, false), index + 1, true) == Renumber(s)
  {
  }

  // ---------------------------------------------------------------- the dialog

  /** The settings dialog's working copy `localColumns`. */
  class ColumnSettings {
    var localColumns: seq<ColumnConfig>

    /** The effect on `columns`: the working copy is the columns sorted by order. */
    constructor(columns: seq<ColumnConfig>)
      ensures localColumns == SortByOrder(columns)
    {
      localColumns := SortByOrder(columns);
    }

    method ToggleColumnVisibility(key: string)
      modifies this
      ensures localColumns == ToggleVisible(old(localColumns), key)
    {
      localColumns := ToggleVisible(localColumns, key);
    }

    method ToggleSelectAll(selected: bool)
      modifies this
      ensures localColumns == SelectAll(old(localColumns), selected)
    {
      localColumns := SelectAll(localColumns, selected);
    }

    /** `moveColumn`: copy the list, swap in place, then renumber every order. */
    method MoveColumn(index: int, up: bool)
      requires 0 <= index < |localColumns|
      modifies this
      ensures localColumns == Moved(old(localColumns), index, up)
    {
      if AtBoundary(|localColumns|, index, up) {
        return;
      }
      var cols := localColumns;
      var a := new ColumnConfig[|cols|](i requires 0 <= i < |cols| => cols[i]);
      var target := if up then index - 1 else index + 1;
      a[index], a[target] := a[target], a[index];
      ghost var swapped := a[..];
      assert swapped == cols[index := cols[target]][target := cols[index]];
      for i := 0 to a.Length
        invariant a[..i] == Renumber(swapped)[..i]
        invariant a[i..] == swapped[i..]
      {
        a[i] := a[i].(order := i);
        assert a[..i + 1] == Renumber(swapped)[..i + 1];
      }
      localColumns := a[..];
    }

    /** `handleSave`: the working copy goes to the table unchanged. */
    method Save() returns (saved: seq<ColumnConfig>)
      ensures saved == localColumns
    {
      saved := localColumns;
    }
  }
}
