/** Grouping a list by key in order of first appearance, and reading the groups column by column, as both the receiver
    assignment and the update rounds of checkpoint_engine/ps.py do. */
module Grouping {
  import opened Sequences

  function Filter<T>(xs: seq<T>, key: T -> nat, k: nat): (r: seq<T>)
    ensures forall x :: x in r ==> x in xs && key(x) == k
  {
    if xs == [] then []
    else Filter(xs[..|xs| - 1], key, k) + (if key(xs[|xs| - 1]) == k then [xs[|xs| - 1]] else [])
  }

  /** The distinct keys in order of first appearance. */
  function Keys<T>(xs: seq<T>, key: T -> nat): (ks: seq<nat>)
    ensures forall i, j :: 0 <= i < j < |ks| ==> ks[i] != ks[j]
    ensures forall x :: x in xs ==> key(x) in ks
  {
    if xs == [] then []
    else
      var ks := Keys(xs[..|xs| - 1], key);
      var k := key(xs[|xs| - 1]);
      if k in ks then ks else ks + [k]
  }

  /** One row per key, holding the elements of that key in order. */
  function Rows<T>(xs: seq<T>, key: T -> nat): (rows: seq<seq<T>>)
    ensures |rows| == |Keys(xs, key)|
  {
    seq(|Keys(xs, key)|, j requires 0 <= j < |Keys(xs, key)| => Filter(xs, key, Keys(xs, key)[j]))
  }

  lemma FlattenUpdate<T>(rows: seq<seq<T>>, j: nat, x: T)
    requires j < |rows|
    ensures multiset(Flatten(rows[j := rows[j] + [x]])) == multiset(Flatten(rows)) + multiset{x}
  {
    var next := rows[j := rows[j] + [x]];
    FlattenAt(rows, j);
    FlattenAt(next, j);
    assert next[..j] == rows[..j] && next[j + 1..] == rows[j + 1..];
  }

  lemma {:induction false} FilterAbsent<T>(xs: seq<T>, key: T -> nat, k: nat)
    requires forall x :: x in xs ==> key(x) != k
    ensures Filter(xs, key, k) == []
  {
    if xs != [] {
      FilterAbsent(xs[..|xs| - 1], key, k);
    }
  }

  /** Grouping loses and duplicates nothing. */
  lemma {:induction false} RowsPermutation<T>(xs: seq<T>, key: T -> nat)
    ensures multiset(Flatten(Rows(xs, key))) == multiset(xs)
  {
    if xs != [] {
      var n := |xs| - 1;
      var init, x := xs[..n], xs[n];
      var ks := Keys(init, key);
      var k := key(x);
      RowsPermutation(init, key);
      assert xs == init + [x];
      if k in ks {
        RowsGrow(init, x, key);
        FlattenUpdate(Rows(init, key), IndexOf(ks, k), x);
      } else {
        RowsOpen(init, x, key);
        FlattenSnoc(Rows(init, key), [x]);
      }
    }
  }

  lemma {:induction false} FilterSnoc<T>(xs: seq<T>, x: T, key: T -> nat, k: nat)
    ensures Filter(xs + [x], key, k) == Filter(xs, key, k) + (if key(x) == k then [x] else [])
  {
    assert (xs + [x])[..|xs|] == xs;
  }

  lemma {:induction false} KeysSnoc<T>(xs: seq<T>, x: T, key: T -> nat)
    ensures Keys(xs + [x], key) == if key(x) in Keys(xs, key) then Keys(xs, key) else Keys(xs, key) + [key(x)]
  {
    assert (xs + [x])[..|xs|] == xs;
  }

  lemma {:induction false} RowsGrow<T>(xs: seq<T>, x: T, key: T -> nat)
    requires key(x) in Keys(xs, key)
    ensures var j := IndexOf(Keys(xs, key), key(x));
            Rows(xs + [x], key) == Rows(xs, key)[j := Rows(xs, key)[j] + [x]]
  {
    var ks := Keys(xs, key);
    var j := IndexOf(ks, key(x));
    var old_, new_ := Rows(xs, key), Rows(xs + [x], key);
    KeysSnoc(xs, x, key);
    forall i | 0 <= i < |ks| ensures new_[i] == old_[j := old_[j] + [x]][i] {
      FilterSnoc(xs, x, key, ks[i]);
      assert ks[i] == key(x) ==> i == j;
    }
  }

  lemma {:induction false} RowsOpen<T>(xs: seq<T>, x: T, key: T -> nat)
    requires key(x) !in Keys(xs, key)
    ensures Rows(xs + [x], key) == Rows(xs, key) + [[x]]
  {
    var ks := Keys(xs, key);
    var old_, new_ := Rows(xs, key), Rows(xs + [x], key);
    KeysSnoc(xs, x, key);
    FilterAbsent(xs, key, key(x));
    forall i | 0 <= i < |ks| + 1 ensures new_[i] == (old_ + [[x]])[i] {
      if i < |ks| {
        FilterSnoc(xs, x, key, ks[i]);
        assert ks[i] in ks;
      } else {
        FilterSnoc(xs, x, key, key(x));
      }
    }
  }

  /** The dictionary of lists that the source builds with a loop. */
  method GroupBy<T>(xs: seq<T>, key: T -> nat) returns (keys: seq<nat>, rows: seq<seq<T>>)
    ensures keys == Keys(xs, key) && rows == Rows(xs, key)
  {
    keys, rows := [], [];
    for i := 0 to |xs|
      invariant keys == Keys(xs[..i], key)
      invariant |rows| == |keys| && forall j :: 0 <= j < |keys| ==> rows[j] == Filter(xs[..i], key, keys[j])
    {
      var k := key(xs[i]);
      assert xs[..i + 1][..i] == xs[..i];
      if k in keys {
        var j := IndexOf(keys, k);
        rows := rows[j := rows[j] + [xs[i]]];
      } else {
        FilterAbsent(xs[..i], key, k);
        keys, rows := keys + [k], rows + [[xs[i]]];
      }
    }
    assert xs[..|xs|] == xs;
  }

  function IndexOf(ks: seq<nat>, k: nat): (j: nat)
    requires k in ks
    ensures j < |ks| && ks[j] == k
  {
    if ks[0] == k then 0 else 1 + IndexOf(ks[1..], k)
  }

  // ----- Column-major order -----

  /** The c-th elements of the rows that have one, in row order. */
  function Column<T>(rows: seq<seq<T>>, c: nat): seq<T>
  {
    if rows == [] then []
    else Column(rows[..|rows| - 1], c) + Cell(rows[|rows| - 1], c)
  }

  /** The first n columns, one after the other. */
  function ColumnMajor<T>(rows: seq<seq<T>>, n: nat): seq<T>
  {
    if n == 0 then [] else ColumnMajor(rows, n - 1) + Column(rows, n - 1)
  }

  lemma {:induction false} NoColumns<T>(rows: seq<seq<T>>)
    ensures ColumnMajor(rows, 0) == []
  {
  }

  lemma ColumnMajorStep<T>(rows: seq<seq<T>>, n: nat)
    requires n > 0
    ensures ColumnMajor(rows, n) == ColumnMajor(rows, n - 1) + Column(rows, n - 1)
  {
    hide Column;
  }

  function MaxLen<T>(rows: seq<seq<T>>): (n: nat)
    ensures forall j :: 0 <= j < |rows| ==> |rows[j]| <= n
  {
    if rows == [] then 0
    else
      var m := MaxLen(rows[..|rows| - 1]);
      if |rows[|rows| - 1]| > m then |rows[|rows| - 1]| else m
  }

  function Clip<T>(row: seq<T>, n: nat): seq<T> { if n <= |row| then row[..n] else row }

  function Clipped<T>(rows: seq<seq<T>>, n: nat): (r: seq<seq<T>>)
    ensures |r| == |rows|
  {
    seq(|rows|, j requires 0 <= j < |rows| => Clip(rows[j], n))
  }

  lemma {:induction false} ColumnAdds<T>(rows: seq<seq<T>>, n: nat)
    ensures multiset(Flatten(Clipped(rows, n + 1))) == multiset(Flatten(Clipped(rows, n))) + multiset(Column(rows, n))
  {
    if rows != [] {
      var init, row := rows[..|rows| - 1], rows[|rows| - 1];
      ColumnAdds(init, n);
      ClippedSnoc(rows, n + 1);
      ClippedSnoc(rows, n);
      ClipStep(row, n);
    }
  }

  lemma ClippedSnoc<T>(rows: seq<seq<T>>, n: nat)
    requires rows != []
    ensures Flatten(Clipped(rows, n)) == Flatten(Clipped(rows[..|rows| - 1], n)) + Clip(rows[|rows| - 1], n)
  {
    assert Clipped(rows, n) == Clipped(rows[..|rows| - 1], n) + [Clip(rows[|rows| - 1], n)];
    FlattenSnoc(Clipped(rows[..|rows| - 1], n), Clip(rows[|rows| - 1], n));
  }

  lemma {:induction false} NoneKept<T>(row: seq<T>, key: T -> nat, k: nat)
    ensures Filter<T>([], key, k) == [] == Clip(row, 0)
  {
  }

  lemma ClipStep<T>(row: seq<T>, n: nat)
    ensures Clip(row, n + 1) == Clip(row, n) + Cell(row, n)
  {
  }

  lemma {:induction false} FlattenEmpty<T>(rows: seq<seq<T>>)
    requires forall j :: 0 <= j < |rows| ==> rows[j] == []
    ensures Flatten(rows) == []
  {
    if rows != [] {
      FlattenEmpty(rows[1..]);
    }
  }

  lemma {:induction false} ColumnMajorClipped<T>(rows: seq<seq<T>>, n: nat)
    ensures multiset(ColumnMajor(rows, n)) == multiset(Flatten(Clipped(rows, n)))
  {
    hide ColumnMajor, Flatten, Column;
    if n == 0 {
      NoColumns(rows);
      FlattenEmpty(Clipped(rows, 0));
    } else {
      hide Clipped;
      ColumnMajorStep(rows, n);
      ColumnMajorClipped(rows, n - 1);
      ColumnAdds(rows, n - 1);
    }
  }

  /** Reading all columns visits every element exactly once. */
  lemma {:induction false} ColumnMajorPermutation<T>(rows: seq<seq<T>>)
    ensures multiset(ColumnMajor(rows, MaxLen(rows))) == multiset(Flatten(rows))
  {
    var n := MaxLen(rows);
    hide Flatten, ColumnMajor, MaxLen;
    ColumnMajorClipped(rows, n);
    forall j | 0 <= j < |rows| ensures Clipped(rows, n)[j] == rows[j] {
    }
    assert Clipped(rows, n) == rows;
  }

  lemma {:induction false} FilterConcat<T>(a: seq<T>, b: seq<T>, key: T -> nat, k: nat)
    ensures Filter(a + b, key, k) == Filter(a, key, k) + Filter(b, key, k)
  {
    if b == [] {
      assert a + b == a;
    } else {
      var n := |b| - 1;
      FilterConcat(a, b[..n], key, k);
      assert (a + b)[..|a + b| - 1] == a + b[..n];
    }
  }

  ghost predicate KeyedRows<T>(rows: seq<seq<T>>, key: T -> nat, ks: seq<nat>)
  {
    && |ks| == |rows|
    && (forall i, j :: 0 <= i < j < |ks| ==> ks[i] != ks[j])
    && (forall j, i :: 0 <= j < |rows| && 0 <= i < |rows[j]| ==> key(rows[j][i]) == ks[j])
  }

  /** The one element that row j contributes to column c, if any. */
  function Cell<T>(row: seq<T>, c: nat): seq<T> { if c < |row| then [row[c]] else [] }

  lemma {:induction false} FilterCell<T>(row: seq<T>, c: nat, key: T -> nat, k: nat, k': nat)
    requires forall i :: 0 <= i < |row| ==> key(row[i]) == k
    ensures Filter(Cell(row, c), key, k') == if k == k' then Cell(row, c) else []
  {
    if c < |row| {
      FilterSnoc([], row[c], key, k');
      assert [] + [row[c]] == [row[c]];
    }
  }

  lemma {:induction false} FilterColumn<T>(rows: seq<seq<T>>, key: T -> nat, ks: seq<nat>, c: nat, k: nat)
    requires KeyedRows(rows, key, ks)
    ensures Filter(Column(rows, c), key, k) == if k in ks then Cell(rows[IndexOf(ks, k)], c) else []
  {
    if rows != [] {
      var n := |rows| - 1;
      FilterCell(rows[n], c, key, ks[n], k);
      FilterColumn(rows[..n], key, ks[..n], c, k);
      assert Column(rows, c) == Column(rows[..n], c) + Cell(rows[n], c);
      hide Filter, Cell, Column, KeyedRows;
      FilterConcat(Column(rows[..n], c), Cell(rows[n], c), key, k);
      IndexInit(ks, k);
    }
  }

  lemma {:induction false} IndexInit(ks: seq<nat>, k: nat)
    requires ks != [] && forall i, j :: 0 <= i < j < |ks| ==> ks[i] != ks[j]
    ensures var n := |ks| - 1;
            && (k in ks <==> k in ks[..n] || k == ks[n])
            && (k in ks[..n] ==> k != ks[n] && IndexOf(ks[..n], k) == IndexOf(ks, k) < n)
            && (k == ks[n] ==> k !in ks[..n] && IndexOf(ks, k) == n)
  {
    var n := |ks| - 1;
    assert ks == ks[..n] + [ks[n]];
    if k in ks[..n] {
      assert ks[..n][IndexOf(ks[..n], k)] == ks[IndexOf(ks, k)];
    }
  }

  /** Column-major order keeps the order inside every row. */
  lemma {:induction false} KeptOfColumn<T>(rows: seq<seq<T>>, key: T -> nat, ks: seq<nat>, c: nat, j: nat)
    requires KeyedRows(rows, key, ks) && j < |rows|
    ensures Filter(Column(rows, c), key, ks[j]) == Cell(rows[j], c)
  {
    assert j < |ks| && ks[j] in ks;
    hide *;
    FilterColumn(rows, key, ks, c, ks[j]);
    DistinctIndex(rows, key, ks, j);
  }

  lemma {:induction false} KeptStep<T>(before: seq<T>, col: seq<T>, row: seq<T>, n: nat, key: T -> nat, k: nat)
    requires Filter(before, key, k) == Clip(row, n) && Filter(col, key, k) == Cell(row, n)
    ensures Filter(before + col, key, k) == Clip(row, n + 1)
  {
    hide *;
    FilterConcat(before, col, key, k);
    ClipStep(row, n);
  }

  lemma {:induction false} ColumnMajorKeepsOrder<T>(rows: seq<seq<T>>, key: T -> nat, ks: seq<nat>, n: nat, j: nat)
    requires KeyedRows(rows, key, ks) && j < |rows| == |ks|
    ensures Filter(ColumnMajor(rows, n), key, ks[j]) == Clip(rows[j], n)
  {
    hide *;
    if n == 0 {
      NoColumns(rows);
      NoneKept(rows[j], key, ks[j]);
    } else {
      ColumnMajorStep(rows, n);
      ColumnMajorKeepsOrder(rows, key, ks, n - 1, j);
      KeptOfColumn(rows, key, ks, n - 1, j);
      KeptStep(ColumnMajor(rows, n - 1), Column(rows, n - 1), rows[j], n - 1, key, ks[j]);
    }
  }

  lemma {:induction false} DistinctIndex<T>(rows: seq<seq<T>>, key: T -> nat, ks: seq<nat>, j: nat)
    requires KeyedRows(rows, key, ks) && j < |ks|
    ensures IndexOf(ks, ks[j]) == j
  {
  }

  lemma {:induction false} RowsKeyed<T>(xs: seq<T>, key: T -> nat)
    ensures KeyedRows(Rows(xs, key), key, Keys(xs, key))
  {
  }

  lemma {:induction false} FirstCells<T>(rows: seq<seq<T>>)
    requires forall i :: 0 <= i < |rows| ==> rows[i] != []
    ensures |Column(rows, 0)| == |rows| && forall i :: 0 <= i < |rows| ==> Column(rows, 0)[i] == rows[i][0]
  {
    if rows != [] {
      FirstCells(rows[..|rows| - 1]);
    }
  }

  lemma {:induction false} ColumnMajorStart<T>(rows: seq<seq<T>>, n: nat)
    requires n > 0
    ensures Column(rows, 0) <= ColumnMajor(rows, n)
  {
    hide Column;
    ColumnMajorStep(rows, n);
    if n == 1 {
      NoColumns(rows);
      assert [] + Column(rows, 0) == Column(rows, 0);
    } else {
      ColumnMajorStart(rows, n - 1);
    }
  }

  lemma {:induction false} KeyUsed<T>(xs: seq<T>, key: T -> nat, k: nat)
    requires k in Keys(xs, key)
    ensures Filter(xs, key, k) != [] && exists i :: 0 <= i < |xs| && key(xs[i]) == k
  {
    var n := |xs| - 1;
    if key(xs[n]) != k {
      KeyUsed(xs[..n], key, k);
      var i :| 0 <= i < |xs[..n]| && key(xs[..n][i]) == k;
      assert key(xs[i]) == k;
    }
  }

  /** Read column by column, the groups start with one element of each. */
  lemma {:induction false} FirstOfEach<T>(xs: seq<T>, key: T -> nat)
    ensures var ks := Keys(xs, key);
            var flat := ColumnMajor(Rows(xs, key), MaxLen(Rows(xs, key)));
            |ks| <= |flat| && forall i :: 0 <= i < |ks| ==> key(flat[i]) == ks[i]
  {
    var ks, rows := Keys(xs, key), Rows(xs, key);
    hide Filter, Keys, Column, ColumnMajor, MaxLen;
    forall i | 0 <= i < |ks| ensures rows[i] != [] && key(rows[i][0]) == ks[i] {
      KeyUsed(xs, key, ks[i]);
      assert rows[i][0] in Filter(xs, key, ks[i]);
    }
    FirstCells(rows);
    if ks != [] {
      assert |rows[0]| <= MaxLen(rows);
      ColumnMajorStart(rows, MaxLen(rows));
    }
  }

  function SetOf(ks: seq<nat>): set<nat> { set k | k in ks }

  /** The keys that occur. */
  function KeySet<T>(xs: seq<T>, key: T -> nat): set<nat>
  {
    set i | 0 <= i < |xs| :: key(xs[i])
  }

  /** There are as many groups as different keys. */
  lemma {:induction false} KeyCount<T>(xs: seq<T>, key: T -> nat)
    ensures |Keys(xs, key)| == |KeySet(xs, key)|
  {
    var ks := Keys(xs, key);
    forall k | k in ks ensures k in KeySet(xs, key) {
      KeyUsed(xs, key, k);
    }
    forall k | k in KeySet(xs, key) ensures k in ks {
      var i :| 0 <= i < |xs| && key(xs[i]) == k;
      assert xs[i] in xs;
    }
    assert SetOf(ks) == KeySet(xs, key);
    DistinctCount(ks);
  }

  lemma {:induction false} DistinctCount(ks: seq<nat>)
    requires forall i, j :: 0 <= i < j < |ks| ==> ks[i] != ks[j]
    ensures |SetOf(ks)| == |ks|
  {
    if ks != [] {
      var init, last := ks[..|ks| - 1], ks[|ks| - 1];
      DistinctCount(init);
      forall k ensures k in SetOf(ks) <==> k in SetOf(init) || k == last {
        assert ks == init + [last];
      }
      assert last !in SetOf(init);
      assert SetOf(ks) == SetOf(init) + {last};
    }
  }

  /** Grouping by key and reading column by column: a permutation that keeps, for each key, the order of its
      elements. */
  lemma {:induction false} GroupedColumnMajor<T>(xs: seq<T>, key: T -> nat, k: nat)
    ensures multiset(ColumnMajor(Rows(xs, key), MaxLen(Rows(xs, key)))) == multiset(xs)
    ensures Filter(ColumnMajor(Rows(xs, key), MaxLen(Rows(xs, key))), key, k) == Filter(xs, key, k)
  {
    var rows, ks := Rows(xs, key), Keys(xs, key);
    hide Flatten, ColumnMajor, Filter, Keys;
    RowsPermutation(xs, key);
    ColumnMajorPermutation(rows);
    RowsKeyed(xs, key);
    if k in ks {
      var j := IndexOf(ks, k);
      ColumnMajorKeepsOrder(rows, key, ks, MaxLen(rows), j);
      assert rows[j] == Filter(xs, key, k);
    } else {
      var flat := ColumnMajor(rows, MaxLen(rows));
      forall x | x in flat ensures key(x) != k {
        assert x in multiset(flat) && x in multiset(xs);
      }
      FilterAbsent(flat, key, k);
      FilterAbsent(xs, key, k);
    }
  }

  /** Flattening per-element lists only depends on the elements as a multiset. */
  lemma {:induction false} FlattenMapPermutation<T, U>(a: seq<T>, b: seq<T>, f: T -> seq<U>)
    requires multiset(a) == multiset(b)
    ensures multiset(FlatMap(a, f)) == multiset(FlatMap(b, f))
  {
    if a == [] {
      assert |multiset(b)| == 0;
      assert b == [];
    } else {
      var x := a[0];
      assert x in multiset(b);
      var i :| 0 <= i < |b| && b[i] == x;
      assert a == [x] + a[1..];
      assert multiset(a[1..]) == multiset(a) - multiset{x} == multiset(RemoveAt(b, i));
      FlattenMapPermutation(a[1..], RemoveAt(b, i), f);
      FlatMapRemove(b, i, f);
    }
  }

  lemma {:induction false} FlatMapRemove<T, U>(b: seq<T>, i: nat, f: T -> seq<U>)
    requires i < |b|
    ensures multiset(FlatMap(b, f)) == multiset(f(b[i])) + multiset(FlatMap(RemoveAt(b, i), f))
  {
    var pre, post := b[..i], b[i + 1..];
    assert b == pre + ([b[i]] + post);
    FlatMapConcat(pre, [b[i]] + post, f);
    assert ([b[i]] + post)[1..] == post;
    FlatMapConcat(pre, post, f);
  }

  function FlatMap<T, U>(xs: seq<T>, f: T -> seq<U>): seq<U>
  {
    if xs == [] then [] else f(xs[0]) + FlatMap(xs[1..], f)
  }

  lemma {:induction false} FlatMapConcat<T, U>(a: seq<T>, b: seq<T>, f: T -> seq<U>)
    ensures FlatMap(a + b, f) == FlatMap(a, f) + FlatMap(b, f)
  {
    if a == [] {
      assert a + b == b;
    } else {
      calc {
        FlatMap(a + b, f);
        { assert (a + b)[1..] == a[1..] + b; }
        f(a[0]) + FlatMap(a[1..] + b, f);
        { FlatMapConcat(a[1..], b, f); }
        f(a[0]) + (FlatMap(a[1..], f) + FlatMap(b, f));
        (f(a[0]) + FlatMap(a[1..], f)) + FlatMap(b, f);
      }
    }
  }
}
