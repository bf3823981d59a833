/** Which rows and columns of a weight each tensor-parallel rank holds after `_shard_for_tp` of persistent_ps.py, stated
    in positions of the whole tensor. */
module ShardLayout {
  import opened Sequences
  import opened QkvSharding
  import opened TensorParallel

  /** The part is the given stretch of the whole. */
  predicate IsPiece<T(==)>(x: seq<T>, part: seq<T>, start: nat, count: nat)
  {
    start + count <= |x| && part == x[start..start + count]
  }

  // ----- Column parallel -----

  /** A rank's equal share of the rows, or all of them when they do not divide. */
  predicate ColumnPart<T(==)>(x: seq<T>, tp: nat, i: nat, part: seq<T>)
    requires tp > 0
  {
    if |x| % tp != 0 then part == x else IsPiece(x, part, Mul(i, |x| / tp), |x| / tp)
  }

  lemma ChunkIsPiece<T>(x: seq<T>, size: nat, n: nat, i: nat)
    requires Mul(n, size) <= |x| && i < n
    ensures IsPiece(x, Chunk(x, size, i), Mul(i, size), size)
  {
    ChunkLength(x, size, n, i);
  }

  lemma ShareFits(rows: nat, tp: nat)
    requires tp > 0
    ensures Mul(tp, rows / tp) <= rows
  {
    DivMul(rows, tp);
    MulAssoc(1, rows / tp, tp);
  }

  lemma ColumnParts<T>(x: seq<T>, tp: nat)
    requires tp > 0
    ensures var s := ShardColumn(x, tp);
            if x == [] then s == [x] else |s| == tp && forall i :: 0 <= i < tp ==> ColumnPart(x, tp, i, s[i])
  {
    if |x| % tp == 0 && |x| > 0 {
      ShareFits(|x|, tp);
      hide Mul, IsPiece, Chunk;
      forall i | 0 <= i < tp ensures ColumnPart(x, tp, i, ShardColumn(x, tp)[i]) {
        ChunkIsPiece(x, |x| / tp, tp, i);
      }
    }
  }

  // ----- Row parallel -----

  /** A rank's equal share of the columns of every row, or the whole tensor when they do not divide. */
  predicate RowPart(t: Tensor, tp: nat, i: nat, part: Tensor)
    requires tp > 0
  {
    if t.cols % tp != 0 then part == t
    else
      && part.cols == t.cols / tp && |part.rows| == |t.rows|
      && forall k :: 0 <= k < |t.rows| ==> IsPiece(t.rows[k], part.rows[k], Mul(i, t.cols / tp), t.cols / tp)
  }

  lemma RowParts(t: Tensor, tp: nat)
    requires tp > 0 && t.Valid()
    ensures var s := ShardRow(t, tp);
            if t.cols == 0 then s == [t] else |s| == tp && forall i :: 0 <= i < tp ==> RowPart(t, tp, i, s[i])
  {
    if t.cols % tp == 0 && t.cols > 0 {
      var size := t.cols / tp;
      ShareFits(t.cols, tp);
      hide Mul, IsPiece, Chunk;
      forall i, k | 0 <= i < tp && 0 <= k < |t.rows|
        ensures IsPiece(t.rows[k], ShardRow(t, tp)[i].rows[k], Mul(i, size), size)
      {
        ChunkIsPiece(t.rows[k], size, tp, i);
      }
    }
  }

  // ----- Fused gate and up projections -----

  /** The rank's share of the upper half of the rows, then its share of the lower half. */
  predicate HalvesPart<T(==)>(x: seq<T>, tp: nat, i: nat, part: seq<T>)
    requires tp > 0
  {
    var half := |x| / 2;
    var size := half / tp;
    && Mul(i, size) + size <= half
    && part == x[Mul(i, size)..Mul(i, size) + size] + x[half + Mul(i, size)..half + Mul(i, size) + size]
  }

  lemma HalvesParts<T>(x: seq<T>, tp: nat, i: nat)
    requires tp > 0 && |x| % 2 == 0 && i < tp
    ensures |ShardGateUp(x, tp)| == tp && HalvesPart(x, tp, i, ShardGateUp(x, tp)[i])
  {
    var half := |x| / 2;
    var size := half / tp;
    ShareFits(half, tp);
    ChunkIsPiece(x[..half], size, tp, i);
    ChunkIsPiece(x[half..], size, tp, i);
    hide Mul, Chunk;
    SubSlice(x, 0, half, Mul(i, size), Mul(i, size) + size);
    SubSlice(x, half, |x|, Mul(i, size), Mul(i, size) + size);
  }

  lemma SubSlice<T>(x: seq<T>, lo: nat, hi: nat, a: nat, b: nat)
    requires lo <= hi <= |x| && a <= b <= hi - lo
    ensures x[lo..hi][a..b] == x[lo + a..lo + b]
  {
    SliceSlice(x, lo, hi, a, b);
  }

  // ----- Fused gate and up biases -----

  predicate Different<T(==)>(x: seq<T>) { forall i, j :: 0 <= i < j < |x| ==> x[i] != x[j] }

  /** A fused gate and up bias is split like any bias, not by halves like its weight: with different rows the ranks get
      the rows that match their part of the weight exactly without tensor parallelism or with an odd number of rows. */
  lemma BiasMatchesWeightIff<T>(x: seq<T>, tp: nat)
    requires tp > 0 && Different(x)
    ensures ShardColumn(x, tp) == ShardGateUp(x, tp) <==> tp == 1 || |x| % 2 != 0
  {
    if |x| % 2 == 0 {
      HalvesParts(x, tp, 0);
      ColumnParts(x, tp);
      if tp == 1 {
        OneRank(x);
      } else if x != [] {
        FirstRankDiffers(x, tp, ShardColumn(x, tp)[0], ShardGateUp(x, tp)[0]);
      }
      hide ShardColumn, ColumnPart, HalvesPart;
    }
  }

  lemma OneRank<T>(x: seq<T>)
    requires |x| % 2 == 0
    ensures ShardColumn(x, 1) == ShardGateUp(x, 1)
  {
    HalvesParts(x, 1, 0);
    ColumnParts(x, 1);
    MulOne(|x|);
    MulOne(|x| / 2);
    hide ShardColumn, ShardGateUp, Mul;
    var column, halves := ShardColumn(x, 1), ShardGateUp(x, 1);
    assert column[0] == x && halves[0] == x;
    assert column == [column[0]] && halves == [halves[0]];
  }

  lemma FirstRankDiffers<T>(x: seq<T>, tp: nat, column: seq<T>, halves: seq<T>)
    requires tp > 1 && x != [] && |x| % 2 == 0 && Different(x)
    requires ColumnPart(x, tp, 0, column) && HalvesPart(x, tp, 0, halves)
    ensures column != halves
  {
    hide *;
    var count := FirstColumn(x, tp, column);
    var size := FirstHalves(x, tp, halves);
    PartsDiffer(x, |x| / 2, size, count, column, halves);
  }

  lemma FirstColumn<T>(x: seq<T>, tp: nat, column: seq<T>) returns (count: nat)
    requires tp > 1 && x != [] && ColumnPart(x, tp, 0, column)
    ensures 0 < count <= |x| && column == x[..count]
  {
    count := if |x| % tp != 0 then |x| else |x| / tp;
    MulOne(|x| / tp);
    SmallerShare(|x|, tp);
    hide Mul;
  }

  lemma FirstHalves<T>(x: seq<T>, tp: nat, halves: seq<T>) returns (size: nat)
    requires tp > 1 && x != [] && |x| % 2 == 0 && HalvesPart(x, tp, 0, halves)
    ensures size < |x| / 2 && halves == x[..size] + x[|x| / 2..|x| / 2 + size]
  {
    size := |x| / 2 / tp;
    SmallerShare(|x| / 2, tp);
    MulOne(size);
    hide Mul;
  }

  lemma SmallerShare(n: nat, tp: nat)
    requires tp > 1 && n > 0
    ensures n / tp < n && (n % tp == 0 ==> n / tp > 0)
  {
    DivMul(n, tp);
    if n / tp >= n {
      MulMono(n, n / tp, tp);
      MulMono(2, tp, n);
      MulAssoc(1, n, tp);
    }
    assert Mul(2, n) == 2 * n;
    hide Mul;
  }

  lemma PartsDiffer<T>(x: seq<T>, half: nat, size: nat, count: nat, column: seq<T>, halves: seq<T>)
    requires |x| == half + half && size < half && 0 < count <= |x| && Different(x)
    requires column == x[..count] && halves == x[..size] + x[half..half + size]
    ensures column != halves
  {
    if |column| == |halves| {
      assert column[size] == x[size] && halves[size] == x[half];
    }
  }

  // ----- Fused query, key and value projections -----

  /** The model's head counts are known. */
  predicate Known(c: Heads) { c.heads > 0 && (c.hidden > 0 || c.headDim > 0) }

  function DimOf(c: Heads): nat
    requires c.heads > 0
  {
    if c.headDim == 0 then c.hidden / c.heads else c.headDim
  }

  /** The rows are those of the heads, the query rows divide, and the key and value heads divide over the ranks or the
      ranks over them. */
  predicate Fused(c: Heads, rows: nat, tp: nat)
    requires tp > 0 && Known(c)
  {
    && rows == Mul(c.heads + c.kvHeads + c.kvHeads, DimOf(c)) && Mul(c.heads, DimOf(c)) % tp == 0
    && (c.kvHeads >= tp ==> c.kvHeads % tp == 0)
    && (0 < c.kvHeads < tp ==> tp % c.kvHeads == 0)
  }

  /** The first key or value head of a rank, and their number: its share of the heads, or the one head that the ranks of
      its group have in common. */
  function FirstKvHead(c: Heads, tp: nat, i: nat): nat
    requires tp > 0 && c.kvHeads > 0
  {
    if c.kvHeads >= tp then Mul(i, c.kvHeads / tp) else DivMul(tp, c.kvHeads); Quot(i, tp / c.kvHeads)
  }

  function KvHeads(c: Heads, tp: nat): nat
    requires tp > 0
  {
    if c.kvHeads >= tp then c.kvHeads / tp else 1
  }

  /** The rank's share of the query rows, then the rows of its key heads, then those of its value heads. */
  predicate FusedPart<T(==)>(c: Heads, x: seq<T>, tp: nat, i: nat, part: seq<T>)
    requires tp > 0 && c.heads > 0 && c.kvHeads > 0
  {
    var d := DimOf(c);
    var q, k := Mul(c.heads, d), Mul(c.kvHeads, d);
    var size, start, count := q / tp, Mul(FirstKvHead(c, tp, i), d), Mul(KvHeads(c, tp), d);
    && Mul(i, size) + size <= q && start + count <= k && |x| == q + k + k
    && ThreePieces(x, part, Mul(i, size), size, q + start, q + k + start, count)
  }

  /** The part is made of three stretches of the whole, the last two equally long. */
  predicate ThreePieces<T(==)>(x: seq<T>, part: seq<T>, a: nat, size: nat, b: nat, e: nat, count: nat)
  {
    && a + size <= |x| && b + count <= |x| && e + count <= |x|
    && part == x[a..a + size] + x[b..b + count] + x[e..e + count]
  }

  lemma FusedMode(c: Heads, rows: nat, tp: nat)
    requires tp > 0
    ensures QkvMode(c, rows, tp)
         == if !Known(c) then Copies
            else if !Fused(c, rows, tp) then Column
            else if c.kvHeads == 0 then Undefined
            else if c.kvHeads >= tp then Split
            else Replicas
    ensures Known(c) && Fused(c, rows, tp) ==> rows == c.QueryRows() + c.KvRows() + c.KvRows()
    ensures Known(c) && Fused(c, rows, tp) && c.kvHeads > 0 ==> Splittable(c, tp) && c.QueryRows() % tp == 0
  {
    if Known(c) {
      Dist(c.heads, c.kvHeads, DimOf(c));
      Dist(c.heads + c.kvHeads, c.kvHeads, DimOf(c));
      hide Mul;
    }
  }

  lemma KvStart(c: Heads, tp: nat, i: nat)
    requires Splittable(c, tp)
    ensures KvChunkRows(c, tp) == Mul(KvHeads(c, tp), DimOf(c))
    ensures Mul(KvChunkOf(c, tp, i), KvChunkRows(c, tp)) == Mul(FirstKvHead(c, tp, i), DimOf(c))
  {
    var n := LocalKvHeads(c, tp);
    MulAssoc(KvChunkOf(c, tp, i), n, DimOf(c));
    assert Mul(KvChunkOf(c, tp, i), n) == FirstKvHead(c, tp, i);
    hide Mul;
  }

  lemma FusedPieces<T>(c: Heads, x: seq<T>, tp: nat, i: nat)
    requires Splittable(c, tp) && c.QueryRows() % tp == 0 && |x| == c.QueryRows() + c.KvRows() + c.KvRows() && i < tp
    ensures FusedPart(c, x, tp, i, QkvShard(c, x, tp, i))
  {
    hide FusedPart, QkvShard, Placings, KvChunkRows, KvChunkOf, KvChunkCount, QueryChunkRows, Mul, Stride, LocalKvHeads;
    QueryCover(c, tp);
    KvCover(c, tp);
    RankChunk(c, tp, i);
    Stretches(c, x, tp, i);
    FusedPartIs(c, x, tp, i, QkvShard(c, x, tp, i));
  }

  lemma Stretches<T>(c: Heads, x: seq<T>, tp: nat, i: nat)
    requires Splittable(c, tp) && |x| == c.QueryRows() + c.KvRows() + c.KvRows() && i < tp
    requires Mul(tp, QueryChunkRows(c, tp)) == c.QueryRows()
    requires Mul(KvChunkCount(c, tp), KvChunkRows(c, tp)) == c.KvRows() && KvChunkOf(c, tp, i) < KvChunkCount(c, tp)
    ensures Placings(c, x, tp, i, QkvShard(c, x, tp, i))
  {
    hide KvChunkRows, KvChunkOf, KvChunkCount, QueryChunkRows, Mul, QkvShard, Chunk, ThreePieces;
    var q, k := c.QueryRows(), c.KvRows();
    Thirds(c, x, tp, i);
    PartsWithin(x, q, k, QueryChunkRows(c, tp), tp, i, KvChunkRows(c, tp), KvChunkCount(c, tp), KvChunkOf(c, tp, i),
                QkvShard(c, x, tp, i));
  }

  predicate Placings<T(==)>(c: Heads, x: seq<T>, tp: nat, i: nat, part: seq<T>)
    requires Splittable(c, tp)
  {
    var q, k, count, size := c.QueryRows(), c.KvRows(), KvChunkRows(c, tp), QueryChunkRows(c, tp);
    var first := Mul(KvChunkOf(c, tp, i), count);
    && Mul(i, size) + size <= q && first + count <= k
    && ThreePieces(x, part, Mul(i, size), size, q + first, q + k + first, count)
  }

  lemma PartsWithin<T>(x: seq<T>, q: nat, k: nat, size: nat, n: nat, i: nat, count: nat, m: nat, j: nat, part: seq<T>)
    requires |x| == q + k + k && Mul(n, size) <= q && Mul(m, count) <= k && i < n && j < m
    requires part == Chunk(x[..q], size, i) + Chunk(x[q..q + k], count, j) + Chunk(x[q + k..], count, j)
    ensures Mul(i, size) + size <= q && Mul(j, count) + count <= k
    ensures ThreePieces(x, part, Mul(i, size), size, q + Mul(j, count), q + k + Mul(j, count), count)
  {
    hide Chunk, Mul;
    PieceWithin(x, 0, q, size, n, i);
    PieceWithin(x, q, q + k, count, m, j);
    PieceWithin(x, q + k, |x|, count, m, j);
    assert x[0..q] == x[..q] && x[q + k..|x|] == x[q + k..];
  }

  /** A chunk of a stretch of the rows, in positions of the whole. */
  lemma PieceWithin<T>(x: seq<T>, lo: nat, hi: nat, size: nat, n: nat, i: nat)
    requires lo <= hi <= |x| && Mul(n, size) <= hi - lo && i < n
    ensures Mul(i, size) + size <= hi - lo
    ensures Chunk(x[lo..hi], size, i) == x[lo + Mul(i, size)..lo + Mul(i, size) + size]
  {
    ChunkIsPiece(x[lo..hi], size, n, i);
    hide Chunk, Mul;
    SubSlice(x, lo, hi, Mul(i, size), Mul(i, size) + size);
  }

  lemma FusedPartIs<T>(c: Heads, x: seq<T>, tp: nat, i: nat, part: seq<T>)
    requires Splittable(c, tp) && |x| == c.QueryRows() + c.KvRows() + c.KvRows()
    requires Placings(c, x, tp, i, part)
    ensures FusedPart(c, x, tp, i, part)
  {
    KvStart(c, tp, i);
    hide KvChunkOf, KvChunkRows, FirstKvHead, KvHeads, Mul, ThreePieces;
  }

  /** What every rank holds of a fused query/key/value tensor, and when there is nothing to hold. */
  lemma FusedParts<T>(c: Heads, x: seq<T>, tp: nat)
    requires tp > 0
    ensures !Known(c) ==> ShardQkv(c, x, tp) == Ok(Repeat(x, tp))
    ensures Known(c) && !Fused(c, |x|, tp) ==> ShardQkv(c, x, tp) == Ok(ShardColumn(x, tp))
    ensures Known(c) && Fused(c, |x|, tp) && c.kvHeads == 0 ==> ShardQkv(c, x, tp) == ZeroDivision
    ensures Known(c) && Fused(c, |x|, tp) && c.kvHeads > 0 ==>
              && ShardQkv(c, x, tp).Ok? && |ShardQkv(c, x, tp).value| == tp
              && forall i :: 0 <= i < tp ==> FusedPart(c, x, tp, i, ShardQkv(c, x, tp).value[i])
  {
    FusedMode(c, |x|, tp);
    hide QkvMode, Fused, QkvShard, FusedPart, ShardColumn, Mul, Splittable;
    if Known(c) && Fused(c, |x|, tp) && c.kvHeads > 0 {
      forall i | 0 <= i < tp ensures FusedPart(c, x, tp, i, ShardQkv(c, x, tp).value[i]) {
        FusedPieces(c, x, tp, i);
      }
    }
  }

  // ----- One named weight -----

  predicate FusedHeld(c: Heads, tp: nat, t: Tensor, i: nat, s: Tensor)
    requires tp > 0
  {
    if !Known(c) then s == t
    else if !Fused(c, |t.rows|, tp) then s.cols == t.cols && ColumnPart(t.rows, tp, i, s.rows)
    else c.kvHeads > 0 && s.cols == t.cols && FusedPart(c, t.rows, tp, i, s.rows)
  }

  predicate HalvesHeld(tp: nat, t: Tensor, i: nat, s: Tensor)
    requires tp > 0
  {
    && s.cols == t.cols
    && if |t.rows| % 2 == 0 then HalvesPart(t.rows, tp, i, s.rows) else ColumnPart(t.rows, tp, i, s.rows)
  }

  /** What tensor-parallel rank i is to hold of a weight. */
  predicate RankHolds(c: Heads, tp: nat, kind: Kind, t: Tensor, i: nat, s: Tensor)
    requires tp > 0
  {
    if tp == 1 || kind.Norm? || kind.Replicated? then s == t
    else if kind == QkvWeight || kind == QkvBias then FusedHeld(c, tp, t, i, s)
    else if kind == GateUpWeight then HalvesHeld(tp, t, i, s)
    else if kind.RowWeight? then RowPart(t, tp, i, s)
    else s.cols == t.cols && ColumnPart(t.rows, tp, i, s.rows)
  }

  /** Every rank holds exactly its own part of every weight. */
  lemma ShardHeld(c: Heads, tp: nat, kind: Kind, t: Tensor, i: nat)
    requires tp > 0 && t.Valid() && Sharded(c, tp, kind, t) && i < tp
    ensures RankHolds(c, tp, kind, t, i, ShardForTp(c, tp, kind, t).value[i])
  {
    hide ShardQkv, ShardGateUp, ShardColumn, ShardRow, Known, Fused, FusedPart, HalvesPart, ColumnPart, RowPart;
    if tp > 1 {
      match kind
      case Norm(_) =>
      case Replicated(_) =>
      case QkvWeight => FusedTensor(c, tp, t, i);
      case QkvBias => FusedTensor(c, tp, t, i);
      case GateUpWeight => HalvesTensor(tp, t, i);
      case RowWeight(_) => RowParts(t, tp);
      case _ => ColumnParts(t.rows, tp);
    }
  }

  lemma FusedTensor(c: Heads, tp: nat, t: Tensor, i: nat)
    requires tp > 1 && QkvTensors(c, tp, t).Ok? && |QkvTensors(c, tp, t).value| == tp && i < tp
    ensures FusedHeld(c, tp, t, i, QkvTensors(c, tp, t).value[i])
  {
    FusedParts(c, t.rows, tp);
    ColumnParts(t.rows, tp);
    hide ShardQkv, ShardColumn, Known, Fused, FusedPart, ColumnPart;
  }

  lemma HalvesTensor(tp: nat, t: Tensor, i: nat)
    requires tp > 1 && i < tp && |ShardGateUp(t.rows, tp)| == tp
    ensures HalvesHeld(tp, t, i, WithRows(ShardGateUp(t.rows, tp), t.cols)[i])
  {
    if |t.rows| % 2 == 0 {
      HalvesParts(t.rows, tp, i);
    } else {
      ColumnParts(t.rows, tp);
    }
    hide ColumnPart, HalvesPart, ShardColumn;
  }
}
