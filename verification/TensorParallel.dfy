/** How `_shard_for_tp` of persistent_ps.py divides one named weight over the tensor-parallel ranks, and back. */
module TensorParallel {
  import opened Sequences
  import opened QkvSharding

  /** Rows of equal width; a bias has rows of width 1. */
  datatype Tensor = Tensor(rows: seq<seq<real>>, cols: nat)
  {
    predicate Valid() { forall i :: 0 <= i < |rows| ==> |rows[i]| == cols }
  }

  /** The unfused projections of a layer. */
  datatype Part = QWeight | KWeight | VWeight | QBias | KBias | VBias | GateWeight | UpWeight | GateBias | UpBias

  /** What the name tests of the source tell apart. */
  datatype Kind =
    | Norm(text: string)
    | QkvWeight | QkvBias | GateUpWeight | GateUpBias
    | Single(part: Part)
    | RowWeight(text: string)
    | ColumnWeight(text: string)
    | Replicated(text: string)

  /** A weight of one layer, under the prefix of its model, or of none. */
  datatype Name = Name(layer: Option<(string, nat)>, kind: Kind)

  function WithRows(parts: seq<seq<seq<real>>>, cols: nat): (r: seq<Tensor>)
    ensures |r| == |parts| && forall i :: 0 <= i < |parts| ==> r[i] == Tensor(parts[i], cols)
  {
    seq(|parts|, i requires 0 <= i < |parts| => Tensor(parts[i], cols))
  }

  function RowsOf(shards: seq<Tensor>): (r: seq<seq<seq<real>>>)
    ensures |r| == |shards| && forall i :: 0 <= i < |shards| ==> r[i] == shards[i].rows
  {
    seq(|shards|, i requires 0 <= i < |shards| => shards[i].rows)
  }

  lemma RowsOfWithRows(parts: seq<seq<seq<real>>>, cols: nat)
    ensures RowsOf(WithRows(parts, cols)) == parts
  {
  }

  // ----- Fused gate and up projections -----

  /** The rows of a rank's chunk of each half. */
  function HalfChunk(rows: nat, tp: nat): nat requires tp > 0 { rows / 2 / tp }

  /** Both halves in equal chunks, one of each for every rank; rows that do not divide are dropped. */
  function ShardGateUp<T>(x: seq<T>, tp: nat): (r: seq<seq<T>>)
    requires tp > 0
  {
    if |x| % 2 != 0 then ShardColumn(x, tp)
    else
      var half := |x| / 2;
      var size := HalfChunk(|x|, tp);
      seq(tp, i requires 0 <= i < tp => Chunk(x[..half], size, i) + Chunk(x[half..], size, i))
  }

  function UnshardGateUp<T>(shards: seq<seq<T>>, rows: nat, tp: nat): seq<T>
    requires tp > 0 && shards != []
  {
    if rows % 2 != 0 then UnshardColumn(shards, rows, tp)
    else
      var size := HalfChunk(rows, tp);
      Flatten(Parts(shards, 0, size)) + Flatten(Parts(shards, size, size + size))
  }

  lemma HalvesShard<T>(x: seq<T>, tp: nat, i: nat)
    requires tp > 0 && |x| % 2 == 0 && i < tp
    ensures var size := HalfChunk(|x|, tp);
            && Slice(ShardGateUp(x, tp)[i], 0, size) == Chunk(x[..|x| / 2], size, i)
            && Slice(ShardGateUp(x, tp)[i], size, size + size) == Chunk(x[|x| / 2..], size, i)
  {
    var half := |x| / 2;
    var size := HalfChunk(|x|, tp);
    DivMul(half, tp);
    MulAssoc(1, size, tp);
    hide Mul;
    ChunkLength(x[..half], size, tp, i);
    ChunkLength(x[half..], size, tp, i);
    hide Chunk;
    ThreeParts(Chunk(x[..half], size, i), Chunk(x[half..], size, i), []);
    assert Chunk(x[..half], size, i) + Chunk(x[half..], size, i) + []
           == Chunk(x[..half], size, i) + Chunk(x[half..], size, i);
  }

  lemma Covered(rows: nat, tp: nat)
    requires tp > 0
    ensures Mul(tp, HalfChunk(rows, tp)) <= rows / 2
    ensures Mul(tp, HalfChunk(rows, tp)) == rows / 2 <==> (rows / 2) % tp == 0
  {
    var half := rows / 2;
    DivMul(half, tp);
    MulAssoc(1, half / tp, tp);
    assert half == half / tp * tp + half % tp;
  }

  lemma HalvesJoin<T>(x: seq<T>, tp: nat)
    requires tp > 0 && |x| % 2 == 0 && Mul(tp, HalfChunk(|x|, tp)) <= |x| / 2
    ensures ShardGateUp(x, tp) != []
    ensures UnshardGateUp(ShardGateUp(x, tp), |x|, tp)
         == x[..|x| / 2][..Mul(tp, HalfChunk(|x|, tp))] + x[|x| / 2..][..Mul(tp, HalfChunk(|x|, tp))]
  {
    hide Mul, HalfChunk;
    var size, shards := HalfChunk(|x|, tp), ShardGateUp(x, tp);
    var gate, up := x[..|x| / 2], x[|x| / 2..];
    assert |shards| == tp;
    HalvesShards(x, gate, up, tp);
    hide Chunk, ShardGateUp, Parts;
    assert Parts(shards, 0, size) == Chunks(gate, size, tp);
    assert Parts(shards, size, size + size) == Chunks(up, size, tp);
    FlattenChunks(gate, size, tp);
    FlattenChunks(up, size, tp);
  }

  lemma HalvesShards<T>(x: seq<T>, gate: seq<T>, up: seq<T>, tp: nat)
    requires tp > 0 && |x| % 2 == 0 && gate == x[..|x| / 2] && up == x[|x| / 2..]
    ensures var (size, shards) := (HalfChunk(|x|, tp), ShardGateUp(x, tp));
            && |shards| == tp
            && (forall i :: 0 <= i < tp ==> Parts(shards, 0, size)[i] == Chunk(gate, size, i))
            && (forall i :: 0 <= i < tp ==> Parts(shards, size, size + size)[i] == Chunk(up, size, i))
  {
    hide Mul, HalfChunk, Chunk;
    var size, shards := HalfChunk(|x|, tp), ShardGateUp(x, tp);
    forall i | 0 <= i < tp
      ensures Parts(shards, 0, size)[i] == Chunk(gate, size, i)
      ensures Parts(shards, size, size + size)[i] == Chunk(up, size, i)
    {
      HalvesShard(x, tp, i);
    }
  }

  lemma CoveredAll<T>(x: seq<T>, half: nat, covered: nat)
    requires |x| == half + half && covered <= half
    ensures x[..half][..covered] + x[half..][..covered] == x <==> covered == half
  {
    if covered == half {
      assert x[..half][..half] == x[..half] && x[half..][..half] == x[half..];
    } else {
      assert |x[..half][..covered] + x[half..][..covered]| == covered + covered;
    }
  }

  /** The gate and up rows come back from the shards exactly when each half divides over the ranks, or the row count is
      odd and the tensor is split like any other. */
  lemma GateUpRoundTripIff<T>(x: seq<T>, tp: nat)
    requires tp > 0
    ensures ShardGateUp(x, tp) != []
    ensures UnshardGateUp(ShardGateUp(x, tp), |x|, tp) == x <==> |x| % 2 != 0 || (|x| / 2) % tp == 0
  {
    if |x| % 2 != 0 {
      ColumnRoundTrip(x, tp);
    } else {
      Covered(|x|, tp);
      hide Mul, HalfChunk;
      HalvesJoin(x, tp);
      hide ShardGateUp, UnshardGateUp;
      CoveredAll(x, |x| / 2, Mul(tp, HalfChunk(|x|, tp)));
    }
  }

  // ----- Row parallel: every row is divided -----

  function ShardRow(t: Tensor, tp: nat): seq<Tensor>
    requires tp > 0
  {
    if t.cols % tp != 0 then Repeat(t, tp)
    else if t.cols == 0 then [t]
    else seq(tp, i requires 0 <= i < tp => RowShard(t, t.cols / tp, i))
  }

  function RowShard(t: Tensor, size: nat, i: nat): Tensor
  {
    Tensor(seq(|t.rows|, k requires 0 <= k < |t.rows| => Chunk(t.rows[k], size, i)), size)
  }

  function UnshardRow(shards: seq<Tensor>, rows: nat, cols: nat, tp: nat): Tensor
    requires tp > 0 && shards != []
    requires forall i :: 0 <= i < |shards| ==> |shards[i].rows| == rows
  {
    if cols % tp != 0 then shards[0]
    else Tensor(seq(rows, k requires 0 <= k < rows => Flatten(RowPieces(shards, rows, k))), cols)
  }

  function RowPieces(shards: seq<Tensor>, rows: nat, k: nat): (r: seq<seq<real>>)
    requires k < rows && forall i :: 0 <= i < |shards| ==> |shards[i].rows| == rows
    ensures |r| == |shards|
  {
    seq(|shards|, i requires 0 <= i < |shards| => shards[i].rows[k])
  }

  lemma RowRoundTrip(t: Tensor, tp: nat)
    requires tp > 0 && t.Valid()
    ensures ShardRow(t, tp) != [] && (forall i :: 0 <= i < |ShardRow(t, tp)| ==> |ShardRow(t, tp)[i].rows| == |t.rows|)
    ensures UnshardRow(ShardRow(t, tp), |t.rows|, t.cols, tp) == t
    ensures t.cols > 0 || t.cols % tp != 0 ==> |ShardRow(t, tp)| == tp
  {
    if t.cols % tp == 0 {
      var shards, size := ShardRow(t, tp), t.cols / tp;
      var back := UnshardRow(shards, |t.rows|, t.cols, tp);
      DivMul(t.cols, tp);
      MulAssoc(1, size, tp);
      hide Mul;
      forall k | 0 <= k < |t.rows| ensures back.rows[k] == t.rows[k] {
        var row := t.rows[k];
        if t.cols == 0 {
          assert RowPieces(shards, |t.rows|, k) == [row];
          assert Flatten([row]) == row;
        } else {
          assert RowPieces(shards, |t.rows|, k) == Chunks(row, size, tp);
          FlattenChunks(row, size, tp);
          assert row[..|row|] == row;
        }
      }
      assert back.rows == t.rows;
    }
  }

  // ----- One named weight -----

  function Columns(t: Tensor, tp: nat): seq<Tensor>
    requires tp > 0
  {
    WithRows(ShardColumn(t.rows, tp), t.cols)
  }

  /** The shards of a weight, one for each tensor-parallel rank. */
  function ShardForTp(c: Heads, tp: nat, kind: Kind, t: Tensor): Result<seq<Tensor>>
    requires tp > 0
  {
    if tp == 1 then Ok([t])
    else
      match kind
      case Norm(_) => Ok(Repeat(t, tp))
      case QkvWeight => QkvTensors(c, tp, t)
      case QkvBias => QkvTensors(c, tp, t)
      case GateUpWeight => Ok(WithRows(ShardGateUp(t.rows, tp), t.cols))
      case RowWeight(_) => Ok(ShardRow(t, tp))
      case Replicated(_) => Ok(Repeat(t, tp))
      case Single(_) => Ok(Columns(t, tp))
      case ColumnWeight(_) => Ok(Columns(t, tp))
      case GateUpBias => Ok(Columns(t, tp))
  }

  function QkvTensors(c: Heads, tp: nat, t: Tensor): Result<seq<Tensor>>
    requires tp > 0
  {
    match ShardQkv(c, t.rows, tp)
    case Ok(shards) => Ok(WithRows(shards, t.cols))
    case ZeroDivision => ZeroDivision
  }

  /** Puts the shards of a weight of known shape together again. */
  function UnshardForTp(c: Heads, tp: nat, kind: Kind, rows: nat, cols: nat, shards: seq<Tensor>): Tensor
    requires tp > 0 && |shards| == tp
  {
    if tp == 1 then shards[0]
    else
      match kind
      case Norm(_) => shards[0]
      case Replicated(_) => shards[0]
      case QkvWeight => Tensor(UnshardQkv(c, RowsOf(shards), rows, tp), cols)
      case QkvBias => Tensor(UnshardQkv(c, RowsOf(shards), rows, tp), cols)
      case GateUpWeight => Tensor(UnshardGateUp(RowsOf(shards), rows, tp), cols)
      case RowWeight(_) =>
        if forall i :: 0 <= i < |shards| ==> |shards[i].rows| == rows then UnshardRow(shards, rows, cols, tp)
        else shards[0]
      case _ => Tensor(UnshardColumn(RowsOf(shards), rows, tp), cols)
  }

  /** Every rank gets a shard. */
  predicate Sharded(c: Heads, tp: nat, kind: Kind, t: Tensor)
    requires tp > 0
  {
    ShardForTp(c, tp, kind, t).Ok? && |ShardForTp(c, tp, kind, t).value| == tp
  }

  predicate HalvesDivide(tp: nat, kind: Kind, t: Tensor)
    requires tp > 0
  {
    kind == GateUpWeight && tp > 1 && |t.rows| % 2 == 0 ==> (|t.rows| / 2) % tp == 0
  }

  /** A weight comes back from its shards exactly when its gate and up halves divide over the ranks, if it has any. */
  lemma TpRoundTripIff(c: Heads, tp: nat, kind: Kind, t: Tensor)
    requires tp > 0 && t.Valid() && Sharded(c, tp, kind, t)
    ensures UnshardForTp(c, tp, kind, |t.rows|, t.cols, ShardForTp(c, tp, kind, t).value) == t <==>
              HalvesDivide(tp, kind, t)
  {
    hide ShardQkv, UnshardQkv, ShardGateUp, UnshardGateUp, ShardColumn, UnshardColumn, ShardRow, UnshardRow;
    if tp > 1 {
      match kind
      case Norm(_) =>
      case Replicated(_) =>
      case QkvWeight => QkvBack(c, tp, t);
      case QkvBias => QkvBack(c, tp, t);
      case GateUpWeight =>
        GateUpRoundTripIff(t.rows, tp);
        RowsOfWithRows(ShardGateUp(t.rows, tp), t.cols);
      case RowWeight(_) => RowRoundTrip(t, tp);
      case _ =>
        ColumnRoundTrip(t.rows, tp);
        RowsOfWithRows(ShardColumn(t.rows, tp), t.cols);
    }
  }

  lemma QkvBack(c: Heads, tp: nat, t: Tensor)
    requires tp > 0 && QkvTensors(c, tp, t).Ok? && |QkvTensors(c, tp, t).value| == tp
    ensures UnshardQkv(c, RowsOf(QkvTensors(c, tp, t).value), |t.rows|, tp) == t.rows
  {
    hide ShardQkv, UnshardQkv;
    QkvRoundTrip(c, t.rows, tp);
    RowsOfWithRows(ShardQkv(c, t.rows, tp).value, t.cols);
  }

  /** Which weights cannot be sharded: an empty tensor that is not copied is not split into tp parts, and a fused
      query/key/value tensor without key/value heads divides by zero. */
  lemma ShardedWhenNonEmpty(c: Heads, tp: nat, kind: Kind, t: Tensor)
    requires tp > 0 && t.rows != [] && t.cols > 0
    ensures Sharded(c, tp, kind, t)
       <==> !(tp > 1 && (kind == QkvWeight || kind == QkvBias) && QkvMode(c, |t.rows|, tp) == Undefined)
  {
    ColumnRoundTrip(t.rows, tp);
    hide ShardColumn, Chunk;
  }

  /** Two gate rows and two up rows over four ranks: every shard is empty, and the rows are gone. */
  lemma GateRowsLost<T>(x: seq<T>)
    requires |x| == 4
    ensures forall i :: 0 <= i < 4 ==> |ShardGateUp(x, 4)| == 4 && ShardGateUp(x, 4)[i] == []
    ensures UnshardGateUp(ShardGateUp(x, 4), 4, 4) != x
  {
    GateUpRoundTripIff(x, 4);
    assert HalfChunk(4, 4) == 0;
  }
}
