/** Tensor-parallel sharding of row lists, and of the fused query/key/value projection, in persistent_ps.py. */
module QkvSharding {
  import opened Sequences

  datatype Result<+T> = Ok(value: T) | ZeroDivision

  // ----- Products and quotients -----

  /** A product that proofs can hide. */
  function Mul(a: nat, b: nat): nat { a * b }

  function Quot(a: nat, b: nat): nat requires b > 0 { a / b }

  lemma MulMono(a: nat, b: nat, c: nat)
    ensures a <= b ==> Mul(a, c) <= Mul(b, c)
    ensures a < b && c > 0 ==> Mul(a, c) < Mul(b, c)
  {
    if a <= b {
      assert b * c == a * c + (b - a) * c;
    }
  }

  lemma MulCancel(a: nat, b: nat, c: nat)
    requires c > 0 && Mul(a, c) == Mul(b, c)
    ensures a == b
  {
    hide Mul;
    MulMono(a, b, c);
    MulMono(b, a, c);
  }

  lemma Dist(a: nat, b: nat, c: nat)
    ensures Mul(a + b, c) == Mul(a, c) + Mul(b, c)
  {
  }

  lemma MulOne(c: nat)
    ensures Mul(1, c) == c && Mul(0, c) == 0
  {
  }

  lemma MulAssoc(a: nat, b: nat, c: nat)
    ensures Mul(a, Mul(b, c)) == Mul(Mul(a, b), c) == Mul(Mul(a, c), b)
    ensures Mul(b, c) == Mul(c, b)
  {
  }

  lemma DivMul(a: nat, b: nat)
    requires b > 0
    ensures a % b == 0 ==> Mul(a / b, b) == a
    ensures Mul(a / b, b) <= a < Mul(a / b + 1, b)
    ensures a > 0 && a % b == 0 ==> a / b > 0
    ensures a >= b ==> a / b > 0
  {
  }

  lemma DivRange(a: nat, b: nat, q: nat)
    requires b > 0 && Mul(q, b) <= a < Mul(q + 1, b)
    ensures a / b == q && (a == Mul(q, b) ==> a % b == 0)
  {
    DivMul(a, b);
    MulMono(a / b + 1, q, b);
    MulMono(q + 1, a / b, b);
    assert a == a / b * b + a % b;
  }

  lemma DivExact(a: nat, b: nat, q: nat)
    requires b > 0 && a == Mul(q, b)
    ensures a / b == q && a % b == 0
  {
    MulMono(q, q + 1, b);
    hide Mul;
    DivRange(a, b, q);
  }

  // ----- Chunks of rows -----

  /** Rows lo up to hi; both ends are cut to the length, as slices do. */
  function Slice<T>(x: seq<T>, lo: nat, hi: nat): (r: seq<T>)
    ensures lo <= hi <= |x| ==> r == x[lo..hi] && |r| == hi - lo
  {
    var h := if hi <= |x| then hi else |x|;
    if lo <= h then x[lo..h] else []
  }

  lemma SliceSlice<T>(x: seq<T>, lo: nat, hi: nat, a: nat, b: nat)
    requires lo <= hi <= |x| && a <= b <= hi - lo
    ensures Slice(x[lo..hi], a, b) == x[lo + a..lo + b]
  {
    var y := x[lo..hi];
    forall k | 0 <= k < b - a ensures y[a..b][k] == x[lo + a..lo + b][k] {
      assert y[a + k] == x[lo + (a + k)];
    }
    assert y[a..b] == x[lo + a..lo + b];
  }

  /** Chunk i of the given size. */
  function Chunk<T>(x: seq<T>, size: nat, i: nat): seq<T>
  {
    Slice(x, Mul(i, size), Mul(i + 1, size))
  }

  function Chunks<T>(x: seq<T>, size: nat, n: nat): (r: seq<seq<T>>)
    ensures |r| == n && forall i :: 0 <= i < n ==> r[i] == Chunk(x, size, i)
  {
    seq(n, i requires 0 <= i < n => Chunk(x, size, i))
  }

  lemma ChunkLength<T>(x: seq<T>, size: nat, n: nat, i: nat)
    requires Mul(n, size) <= |x| && i < n
    ensures Mul(i, size) <= Mul(i + 1, size) <= |x| && Mul(i + 1, size) == Mul(i, size) + size
    ensures Chunk(x, size, i) == x[Mul(i, size)..Mul(i + 1, size)] && |Chunk(x, size, i)| == size
  {
    hide Mul;
    MulMono(i + 1, n, size);
    Dist(i, 1, size);
    MulOne(size);
  }

  /** Chunks put together again are the rows they cover. */
  lemma {:induction false} FlattenChunks<T>(x: seq<T>, size: nat, n: nat)
    requires Mul(n, size) <= |x|
    ensures Flatten(Chunks(x, size, n)) == x[..Mul(n, size)]
  {
    MulOne(size);
    hide Mul;
    if n == 0 {
      assert Chunks(x, size, 0) == [];
    } else {
      MulMono(n - 1, n, size);
      FlattenChunks(x, size, n - 1);
      ChunkLength(x, size, n, n - 1);
      hide Chunk;
      assert Chunks(x, size, n) == Chunks(x, size, n - 1) + [Chunk(x, size, n - 1)];
      FlattenSnoc(Chunks(x, size, n - 1), Chunk(x, size, n - 1));
    }
  }

  // ----- Column parallel -----

  /** Equal parts of the rows; full copies when they do not divide. An empty tensor is not split at all. */
  function ShardColumn<T>(x: seq<T>, tp: nat): seq<seq<T>>
    requires tp > 0
  {
    if |x| % tp != 0 then Repeat(x, tp)
    else if |x| == 0 then [x]
    else Chunks(x, |x| / tp, tp)
  }

  function UnshardColumn<T>(shards: seq<seq<T>>, rows: nat, tp: nat): seq<T>
    requires tp > 0 && shards != []
  {
    if rows % tp != 0 then shards[0] else Flatten(shards)
  }

  lemma ColumnRoundTrip<T>(x: seq<T>, tp: nat)
    requires tp > 0
    ensures ShardColumn(x, tp) != [] && UnshardColumn(ShardColumn(x, tp), |x|, tp) == x
    ensures |x| > 0 || |x| % tp != 0 ==> |ShardColumn(x, tp)| == tp
  {
    if |x| % tp == 0 && |x| > 0 {
      DivMul(|x|, tp);
      MulAssoc(1, |x| / tp, tp);
      hide Mul;
      FlattenChunks(x, |x| / tp, tp);
      assert x[..|x|] == x;
    } else if |x| == 0 {
      assert Flatten([x]) == x;
    }
  }

  // ----- Fused QKV -----

  datatype Heads = Heads(heads: nat, kvHeads: nat, hidden: nat, headDim: nat)
  {
    function Dim(): nat
      requires heads > 0
    {
      if headDim != 0 then headDim else hidden / heads
    }

    /** The rows of the query part, and of the key or the value part. */
    function QueryRows(): nat requires heads > 0 { Mul(heads, Dim()) }
    function KvRows(): nat requires heads > 0 { Mul(kvHeads, Dim()) }
  }

  /** How a fused projection of `rows` rows is sharded. */
  datatype Mode = Copies | Column | Split | Replicas | Undefined

  function QkvMode(c: Heads, rows: nat, tp: nat): Mode
    requires tp > 0
  {
    if (c.hidden == 0 && c.headDim == 0) || c.heads == 0 then Copies
    else if rows != c.QueryRows() + c.KvRows() + c.KvRows() then Column
    else if c.QueryRows() % tp != 0 then Column
    else if tp <= c.kvHeads then (if c.kvHeads % tp != 0 then Column else Split)
    else if c.kvHeads == 0 then Undefined
    else if tp % c.kvHeads != 0 then Column
    else Replicas
  }

  /** Query, key and value rows of a fused tensor. */
  function Query<T>(x: seq<T>, q: nat): seq<T> { Slice(x, 0, q) }
  function Key<T>(x: seq<T>, q: nat, k: nat): seq<T> { Slice(x, q, q + k) }
  function Value<T>(x: seq<T>, q: nat, k: nat): seq<T> { Slice(x, q + k, |x|) }

  /** The ranks can hold key/value heads: each its own, or each one that it shares with others. */
  predicate Splittable(c: Heads, tp: nat)
  {
    tp > 0 && c.heads > 0 && c.kvHeads > 0 && (if tp <= c.kvHeads then c.kvHeads % tp == 0 else tp % c.kvHeads == 0)
  }

  /** How many ranks share a key/value head. */
  function Stride(c: Heads, tp: nat): (r: nat)
    requires Splittable(c, tp)
    ensures r > 0
  {
    if tp <= c.kvHeads then 1 else (DivMul(tp, c.kvHeads); tp / c.kvHeads)
  }

  function LocalKvHeads(c: Heads, tp: nat): (n: nat)
    requires Splittable(c, tp)
    ensures n > 0
  {
    if tp <= c.kvHeads then (DivMul(c.kvHeads, tp); c.kvHeads / tp) else 1
  }

  /** The rows of a key/value chunk, the number of chunks, and the chunk of a rank. */
  function KvChunkRows(c: Heads, tp: nat): nat requires Splittable(c, tp) { Mul(LocalKvHeads(c, tp), c.Dim()) }
  function KvChunkCount(c: Heads, tp: nat): nat requires Splittable(c, tp) { tp / Stride(c, tp) }
  function KvChunkOf(c: Heads, tp: nat, i: nat): nat requires Splittable(c, tp) { Quot(i, Stride(c, tp)) }
  function QueryChunkRows(c: Heads, tp: nat): nat requires tp > 0 && c.heads > 0 { c.QueryRows() / tp }

  /** The key or value rows of one rank. */
  function KvShard<T>(c: Heads, kv: seq<T>, tp: nat, i: nat): seq<T>
    requires Splittable(c, tp)
  {
    if tp <= c.kvHeads then Chunk(kv, Mul(c.Dim(), c.kvHeads / tp), i)
    else
      var start := Mul(KvChunkOf(c, tp, i), c.Dim());
      Slice(kv, start, start + c.Dim())
  }

  function QkvShard<T>(c: Heads, x: seq<T>, tp: nat, i: nat): seq<T>
    requires Splittable(c, tp)
  {
    var q, k := c.QueryRows(), c.KvRows();
    Chunk(Query(x, q), QueryChunkRows(c, tp), i) + KvShard(c, Key(x, q, k), tp, i) + KvShard(c, Value(x, q, k), tp, i)
  }

  function ShardQkv<T>(c: Heads, x: seq<T>, tp: nat): Result<seq<seq<T>>>
    requires tp > 0
  {
    match QkvMode(c, |x|, tp)
    case Copies => Ok(Repeat(x, tp))
    case Column => Ok(ShardColumn(x, tp))
    case Undefined => ZeroDivision
    case _ => Ok(seq(tp, i requires 0 <= i < tp => QkvShard(c, x, tp, i)))
  }

  // ----- The key/value chunks of the ranks, in both cases alike -----

  /** Rank i holds the key/value chunk number i / Stride, of LocalKvHeads heads. */
  lemma KvShardIsChunk<T>(c: Heads, kv: seq<T>, tp: nat, i: nat)
    requires Splittable(c, tp)
    ensures KvShard(c, kv, tp, i) == Chunk(kv, KvChunkRows(c, tp), KvChunkOf(c, tp, i))
  {
    var d := c.Dim();
    if tp <= c.kvHeads {
      assert KvChunkOf(c, tp, i) == i;
      MulAssoc(1, d, c.kvHeads / tp);
      hide Mul, KvChunkOf, Stride;
    } else {
      hide Mul, KvChunkOf, Stride;
      MulOne(d);
      Dist(KvChunkOf(c, tp, i), 1, d);
    }
  }

  /** There are tp / Stride such chunks, and they cover the part. */
  lemma KvCover(c: Heads, tp: nat)
    requires Splittable(c, tp)
    ensures var (n, count) := (LocalKvHeads(c, tp), KvChunkCount(c, tp));
            && Mul(count, Stride(c, tp)) == tp && Mul(count, n) == c.kvHeads
            && Mul(count, KvChunkRows(c, tp)) == c.KvRows()
  {
    hide Mul;
    var n, s := LocalKvHeads(c, tp), Stride(c, tp);
    if tp <= c.kvHeads {
      DivMul(c.kvHeads, tp);
      MulOne(tp);
      MulAssoc(1, n, tp);
      MulAssoc(1, tp, 1);
    } else {
      DivMul(tp, c.kvHeads);
      MulOne(c.kvHeads);
      MulAssoc(1, s, c.kvHeads);
      MulAssoc(1, c.kvHeads, 1);
      DivExact(tp, s, c.kvHeads);
    }
    MulAssoc(tp / s, n, c.Dim());
  }

  lemma RankChunk(c: Heads, tp: nat, i: nat)
    requires Splittable(c, tp) && i < tp
    ensures KvChunkOf(c, tp, i) < KvChunkCount(c, tp)
  {
    hide Mul, Stride, LocalKvHeads;
    var s := Stride(c, tp);
    KvCover(c, tp);
    DivMul(i, s);
    FewerMultiples(i / s, tp / s, s, i);
  }

  lemma FewerMultiples(a: nat, b: nat, s: nat, i: nat)
    requires Mul(a, s) <= i < Mul(b, s)
    ensures a < b
  {
    MulMono(b, a, s);
    hide Mul;
  }

  // ----- Grouped-query attention -----

  /** The rows of one head of a tensor whose heads have d rows each. */
  function Head<T>(x: seq<T>, d: nat, h: nat): seq<T> { Chunk(x, d, h) }

  lemma HeadOfPrefix<T>(a: seq<T>, b: seq<T>, d: nat, n: nat, h: nat)
    requires |a| == Mul(n, d) && h < n
    ensures Head(a + b, d, h) == Head(a, d, h)
  {
    hide Mul;
    ChunkLength(a, d, n, h);
    ChunkLength(a + b, d, n, h);
    hide Chunk;
    assert (a + b)[Mul(h, d)..Mul(h + 1, d)] == a[Mul(h, d)..Mul(h + 1, d)];
  }

  lemma HeadOfSuffix<T>(a: seq<T>, b: seq<T>, d: nat, n: nat, m: nat, h: nat)
    requires |a| == Mul(n, d) && |b| == Mul(m, d) && h < m
    ensures Head(a + b, d, n + h) == Head(b, d, h)
  {
    hide Mul;
    Dist(n, m, d);
    Dist(n, h, d);
    ChunkLength(b, d, m, h);
    ChunkLength(a + b, d, n + m, n + h);
    hide Chunk;
    assert (a + b)[|a| + Mul(h, d)..|a| + Mul(h + 1, d)] == b[Mul(h, d)..Mul(h + 1, d)];
  }

  /** Head j of the chunk number k of n heads is head k * n + j of the whole. */
  lemma HeadOfChunk<T>(x: seq<T>, d: nat, n: nat, chunks: nat, k: nat, j: nat)
    requires |x| == Mul(chunks, Mul(n, d)) && k < chunks && j < n
    ensures |Chunk(x, Mul(n, d), k)| == Mul(n, d)
    ensures Head(Chunk(x, Mul(n, d), k), d, j) == Head(x, d, Mul(k, n) + j)
  {
    hide Mul;
    var h := Mul(k, n) + j;
    ChunkLength(x, Mul(n, d), chunks, k);
    MulAssoc(k, n, d);
    MulAssoc(chunks, n, d);
    Dist(Mul(k, n), j, d);
    ChunkLength(Chunk(x, Mul(n, d), k), d, n, j);
    MulMono(k + 1, chunks, n);
    Dist(k, 1, n);
    MulOne(n);
    ChunkLength(x, d, Mul(chunks, n), h);
    hide Chunk;
    SliceSlice(x, Mul(k, Mul(n, d)), Mul(k + 1, Mul(n, d)), Mul(j, d), Mul(j + 1, d));
  }

  /** Heads divide evenly: query heads into groups and over ranks, and key/value heads over ranks or ranks over them. */
  predicate Even(c: Heads, tp: nat)
  {
    && Splittable(c, tp) && (c.hidden > 0 || c.headDim > 0)
    && c.heads % c.kvHeads == 0 && c.heads % tp == 0
  }

  /** The key/value head that query head j of a rank uses there, and the one that query head h uses in the whole
      model. */
  function LocalIndex(c: Heads, tp: nat, j: nat): nat
    requires Even(c, tp) && j < c.heads / tp
  {
    LocalGroup(c, tp, 0, j);
    j / ((c.heads / tp) / LocalKvHeads(c, tp))
  }

  function GlobalIndex(c: Heads, h: nat): nat
    requires c.kvHeads > 0 && c.heads > 0 && c.heads % c.kvHeads == 0
  {
    DivMul(c.heads, c.kvHeads);
    h / (c.heads / c.kvHeads)
  }

  /** The div/mod heart of grouped attention: the key/value head that global query head h uses is the one that the local
      rule finds on the rank which holds h. */
  lemma LocalGroup(c: Heads, tp: nat, i: nat, j: nat)
    requires Even(c, tp) && i < tp && j < c.heads / tp
    ensures var (m, n, g) := (c.heads / tp, LocalKvHeads(c, tp), c.heads / c.kvHeads);
            && g > 0 && m / n > 0
            && j / (m / n) < n
            && (Mul(i, m) + j) / g == Mul(KvChunkOf(c, tp, i), n) + j / (m / n)
  {
    if tp <= c.kvHeads {
      LocalGroupSplit(c, tp, i, j);
    } else {
      LocalGroupReplica(c, tp, i, j);
    }
  }

  lemma LocalGroupSplit(c: Heads, tp: nat, i: nat, j: nat)
    requires Even(c, tp) && tp <= c.kvHeads && i < tp && j < c.heads / tp
    ensures var (m, n, g) := (c.heads / tp, c.kvHeads / tp, c.heads / c.kvHeads);
            n > 0 && g > 0 && m / n == g && j / g < n && (Mul(i, m) + j) / g == Mul(i, n) + j / g
    ensures KvChunkOf(c, tp, i) == i
  {
    DivMul(c.heads, tp);
    DivMul(c.heads, c.kvHeads);
    DivMul(c.kvHeads, tp);
    hide Mul;
    SplitGroup(c.heads, c.kvHeads, tp, c.heads / tp, c.heads / c.kvHeads, c.kvHeads / tp, i, j);
  }

  lemma LocalGroupReplica(c: Heads, tp: nat, i: nat, j: nat)
    requires Even(c, tp) && tp > c.kvHeads && i < tp && j < c.heads / tp
    ensures var (m, g) := (c.heads / tp, c.heads / c.kvHeads);
            m > 0 && g > 0 && j / m == 0 && (Mul(i, m) + j) / g == Mul(KvChunkOf(c, tp, i), 1)
  {
    DivMul(c.heads, tp);
    DivMul(c.heads, c.kvHeads);
    DivMul(tp, c.kvHeads);
    hide Mul;
    ReplicaGroup(c.heads, c.kvHeads, tp, c.heads / tp, c.heads / c.kvHeads, tp / c.kvHeads, i, j);
    MulAssoc(1, i / (tp / c.kvHeads), 1);
    MulOne(i / (tp / c.kvHeads));
  }

  lemma SplitGroup(heads: nat, kv: nat, tp: nat, m: nat, g: nat, n: nat, i: nat, j: nat)
    requires n > 0 && g > 0 && tp > 0 && heads == Mul(m, tp) == Mul(g, kv) && kv == Mul(n, tp) && j < m
    ensures m / n == g && j / g < n && (Mul(i, m) + j) / g == Mul(i, n) + j / g
  {
    hide Mul;
    MulAssoc(g, n, tp);
    MulCancel(m, Mul(g, n), tp);
    DivExact(m, n, g);
    var l := j / g;
    DivMul(j, g);
    MulAssoc(1, n, g);
    MulMono(n, l, g);
    MulAssoc(i, n, g);
    Dist(Mul(i, n), l, g);
    Dist(Mul(i, n), l + 1, g);
    DivRange(Mul(i, m) + j, g, Mul(i, n) + l);
  }

  lemma ReplicaGroup(heads: nat, kv: nat, tp: nat, m: nat, g: nat, r: nat, i: nat, j: nat)
    requires kv > 0 && r > 0 && g > 0 && heads == Mul(m, tp) == Mul(g, kv) && tp == Mul(r, kv) && j < m
    ensures j / m == 0 && (Mul(i, m) + j) / g == i / r
  {
    hide Mul;
    MulAssoc(m, r, kv);
    MulCancel(g, Mul(m, r), kv);
    MulOne(m);
    DivRange(j, m, 0);
    var a := i / r;
    DivMul(i, r);
    MulMono(Mul(a, r), i, m);
    MulMono(i + 1, Mul(a + 1, r), m);
    MulAssoc(a, r, m);
    MulAssoc(a + 1, r, m);
    MulAssoc(1, m, r);
    Dist(i, 1, m);
    DivRange(Mul(i, m) + j, g, a);
  }

  /** An evenly divided tensor is split into whole heads on every rank. */
  lemma EvenShard<T>(c: Heads, x: seq<T>, tp: nat, i: nat)
    requires Even(c, tp) && i < tp && |x| == c.QueryRows() + c.KvRows() + c.KvRows()
    ensures ShardQkv(c, x, tp).Ok? && |ShardQkv(c, x, tp).value| == tp
    ensures var (m, k) := (Mul(c.heads / tp, c.Dim()), KvChunkOf(c, tp, i));
            && Mul(tp, m) == c.QueryRows()
            && ShardQkv(c, x, tp).value[i]
               == Chunk(x[..c.QueryRows()], m, i)
                  + Chunk(x[c.QueryRows()..c.QueryRows() + c.KvRows()], KvChunkRows(c, tp), k)
                  + Chunk(x[c.QueryRows() + c.KvRows()..], KvChunkRows(c, tp), k)
  {
    hide Mul;
    EvenQuery(c, tp);
    var q, k := c.QueryRows(), c.KvRows();
    assert QkvMode(c, |x|, tp).Split? || QkvMode(c, |x|, tp).Replicas?;
    Thirds(c, x, tp, i);
    hide KvShard, Stride, LocalKvHeads, Chunk, KvChunkRows, KvChunkOf, QueryChunkRows;
    assert ShardQkv(c, x, tp).value[i] == QkvShard(c, x, tp, i);
  }

  lemma MulCommutes(c: Heads, tp: nat)
    requires tp > 0 && c.heads % tp == 0
    ensures Mul(tp, c.heads / tp) == c.heads
  {
    DivMul(c.heads, tp);
    MulAssoc(1, c.heads / tp, tp);
  }

  /** The j-th of m things in the i-th of n groups. */
  lemma WithinMultiple(i: nat, n: nat, m: nat, j: nat)
    requires i < n && j < m
    ensures Mul(i, m) + j < Mul(n, m)
  {
    MulMono(i + 1, n, m);
    Dist(i, 1, m);
    MulOne(m);
    hide Mul;
  }

  lemma EvenQuery(c: Heads, tp: nat)
    requires Even(c, tp)
    ensures c.QueryRows() % tp == 0 && QueryChunkRows(c, tp) == Mul(c.heads / tp, c.Dim())
    ensures Mul(tp, Mul(c.heads / tp, c.Dim())) == c.QueryRows()
  {
    hide Mul;
    var d, m := c.Dim(), c.heads / tp;
    DivMul(c.heads, tp);
    MulAssoc(tp, m, d);
    MulAssoc(1, tp, m);
    MulAssoc(1, tp, Mul(m, d));
    DivExact(c.QueryRows(), tp, Mul(m, d));
  }

  /** A rank's shard in terms of the three parts. */
  lemma Thirds<T>(c: Heads, x: seq<T>, tp: nat, i: nat)
    requires Splittable(c, tp) && |x| == c.QueryRows() + c.KvRows() + c.KvRows()
    ensures QkvShard(c, x, tp, i)
         == Chunk(x[..c.QueryRows()], QueryChunkRows(c, tp), i)
            + Chunk(x[c.QueryRows()..c.QueryRows() + c.KvRows()], KvChunkRows(c, tp), KvChunkOf(c, tp, i))
            + Chunk(x[c.QueryRows() + c.KvRows()..], KvChunkRows(c, tp), KvChunkOf(c, tp, i))
  {
    hide Mul, Chunk, KvShard;
    var q, k := c.QueryRows(), c.KvRows();
    assert Query(x, q) == x[..q] && Key(x, q, k) == x[q..q + k] && Value(x, q, k) == x[q + k..];
    KvShardIsChunk(c, Key(x, q, k), tp, i);
    KvShardIsChunk(c, Value(x, q, k), tp, i);
  }

  /** Sharding keeps grouped-query attention: on every rank, local query head j is global head h, and the key and value
      heads that the local grouping gives it are the ones that the global grouping gives h, whether the key/value heads
      are divided over the ranks or replicated. */
  lemma AttentionPreserved<T>(c: Heads, x: seq<T>, tp: nat, i: nat, j: nat)
    requires Even(c, tp) && |x| == c.QueryRows() + c.KvRows() + c.KvRows() && i < tp && j < c.heads / tp
    ensures ShardQkv(c, x, tp).Ok? && |ShardQkv(c, x, tp).value| == tp
    ensures var (d, m, n) := (c.Dim(), c.heads / tp, LocalKvHeads(c, tp));
            var (h, l) := (Mul(i, m) + j, LocalIndex(c, tp, j));
            var g := GlobalIndex(c, h);
            var s := ShardQkv(c, x, tp).value[i];
            && |s| == Mul(m + n + n, d)
            && Head(s, d, j) == Head(x, d, h)
            && Head(s, d, m + l) == Head(x, d, c.heads + g)
            && Head(s, d, m + n + l) == Head(x, d, c.heads + c.kvHeads + g)
  {
    hide Mul, ShardQkv, Head, Stride, LocalKvHeads, Chunk, KvChunkOf, KvChunkCount;
    var d, m, n, k := c.Dim(), c.heads / tp, LocalKvHeads(c, tp), KvChunkOf(c, tp, i);
    var l, q, kv := LocalIndex(c, tp, j), c.QueryRows(), c.KvRows();
    EvenShard(c, x, tp, i);
    LocalGroup(c, tp, i, j);
    KvCover(c, tp);
    RankChunk(c, tp, i);
    var a, b, e := x[..q], x[q..q + kv], x[q + kv..];
    HeadOfChunk(a, d, m, tp, i, j);
    HeadOfChunk(b, d, n, KvChunkCount(c, tp), k, l);
    HeadOfChunk(e, d, n, KvChunkCount(c, tp), k, l);
    ShardHeads(Chunk(a, Mul(m, d), i), Chunk(b, Mul(n, d), k), Chunk(e, Mul(n, d), k), d, m, n, j, l);
    MulCommutes(c, tp);
    WithinMultiple(i, tp, m, j);
    WithinMultiple(k, KvChunkCount(c, tp), n, l);
    WholeHeads(a, b, e, d, c.heads, c.kvHeads, Mul(i, m) + j, Mul(k, n) + l);
    CutJoin(x, q, kv);
  }

  /** The heads of a shard, and of the whole tensor, by part. */
  lemma ShardHeads<T>(a: seq<T>, b: seq<T>, e: seq<T>, d: nat, m: nat, n: nat, j: nat, l: nat)
    requires |a| == Mul(m, d) && |b| == Mul(n, d) && |e| == Mul(n, d) && j < m && l < n
    ensures |a + b + e| == Mul(m + n + n, d)
    ensures Head(a + b + e, d, j) == Head(a, d, j)
    ensures Head(a + b + e, d, m + l) == Head(b, d, l)
    ensures Head(a + b + e, d, m + n + l) == Head(e, d, l)
  {
    hide Mul, Head;
    Dist(m, n, d);
    Dist(m + n, n, d);
    HeadOfPrefix(a + b, e, d, m + n, j);
    HeadOfPrefix(a, b, d, m, j);
    HeadOfPrefix(a + b, e, d, m + n, m + l);
    HeadOfSuffix(a, b, d, m, n, l);
    HeadOfSuffix(a + b, e, d, m + n, n, l);
  }

  lemma WholeHeads<T>(a: seq<T>, b: seq<T>, e: seq<T>, d: nat, heads: nat, kv: nat, h: nat, g: nat)
    requires |a| == Mul(heads, d) && |b| == Mul(kv, d) && |e| == Mul(kv, d) && h < heads && g < kv
    ensures Head(a + b + e, d, h) == Head(a, d, h)
    ensures Head(a + b + e, d, heads + g) == Head(b, d, g)
    ensures Head(a + b + e, d, heads + kv + g) == Head(e, d, g)
  {
    ShardHeads(a, b, e, d, heads, kv, h, g);
  }

  /** The code checks that the query rows divide by the ranks, not the query heads: a rank's query rows start at a head
      boundary on every rank exactly when the heads divide. */
  lemma WholeHeadsIff(c: Heads, tp: nat)
    requires tp > 0 && c.heads > 0 && c.Dim() > 0 && c.QueryRows() % tp == 0
    ensures (forall i: nat :: i < tp ==> Mul(i, c.QueryRows() / tp) % c.Dim() == 0) <==> c.heads % tp == 0
  {
    hide Mul;
    var d, s := c.Dim(), c.QueryRows() / tp;
    DivMul(c.QueryRows(), tp);
    if c.heads % tp == 0 {
      var m := c.heads / tp;
      DivMul(c.heads, tp);
      MulAssoc(1, m, tp);
      MulAssoc(d, m, tp);
      MulAssoc(1, d, Mul(m, tp));
      MulAssoc(1, d, m);
      DivExact(c.QueryRows(), tp, Mul(m, d));
      forall i: nat | i < tp ensures Mul(i, s) % d == 0 {
        MulAssoc(i, m, d);
        DivExact(Mul(i, s), d, Mul(i, m));
      }
    } else if forall i: nat :: i < tp ==> Mul(i, s) % d == 0 {
      assert tp > 1;
      assert Mul(1, s) % d == 0;
      MulOne(s);
      var m := s / d;
      DivMul(s, d);
      MulAssoc(m, d, tp);
      MulCancel(c.heads, Mul(m, tp), d);
      DivExact(c.heads, tp, m);
      assert false;
    }
  }

  // ----- Every row is recoverable -----

  /** Every stride-th of the pieces. */
  function Every<T>(xs: seq<T>, stride: nat, n: nat): (r: seq<T>)
    requires Mul(n, stride) <= |xs| && stride > 0
    ensures |r| == n
  {
    seq(n, i requires 0 <= i < n => (MulMono(i + 1, n, stride); Dist(i, 1, stride); MulOne(stride); xs[Mul(i, stride)]))
  }

  /** Undoes ShardQkv for a tensor of the given number of rows. */
  function UnshardQkv<T>(c: Heads, shards: seq<seq<T>>, rows: nat, tp: nat): seq<T>
    requires tp > 0 && shards != []
    requires QkvMode(c, rows, tp).Split? || QkvMode(c, rows, tp).Replicas? ==> |shards| == tp
  {
    match QkvMode(c, rows, tp)
    case Copies => shards[0]
    case Undefined => []
    case Column => UnshardColumn(shards, rows, tp)
    case _ => Join(c, shards, tp)
  }

  function Join<T>(c: Heads, shards: seq<seq<T>>, tp: nat): seq<T>
    requires Splittable(c, tp) && |shards| == tp
  {
    var q, kv := QueryChunkRows(c, tp), KvChunkRows(c, tp);
    Flatten(Parts(shards, 0, q)) + Gathered(c, Parts(shards, q, q + kv), tp)
    + Gathered(c, Parts(shards, q + kv, q + kv + kv), tp)
  }

  /** The key/value chunks, each from the first of the ranks that hold it. */
  function Gathered<T>(c: Heads, pieces: seq<seq<T>>, tp: nat): seq<T>
    requires Splittable(c, tp) && |pieces| == tp
  {
    KvCover(c, tp);
    Flatten(Every(pieces, Stride(c, tp), KvChunkCount(c, tp)))
  }

  function Parts<T>(shards: seq<seq<T>>, lo: nat, hi: nat): (r: seq<seq<T>>)
    ensures |r| == |shards|
  {
    seq(|shards|, i requires 0 <= i < |shards| => Slice(shards[i], lo, hi))
  }

  /** The parts of one shard. */
  lemma ShardPieces<T>(c: Heads, x: seq<T>, tp: nat, i: nat)
    requires Splittable(c, tp) && i < tp && |x| == c.QueryRows() + c.KvRows() + c.KvRows() && c.QueryRows() % tp == 0
    ensures var (q, kv, k) := (QueryChunkRows(c, tp), KvChunkRows(c, tp), KvChunkOf(c, tp, i));
            var s := QkvShard(c, x, tp, i);
            && Slice(s, 0, q) == Chunk(x[..c.QueryRows()], q, i)
            && Slice(s, q, q + kv) == Chunk(x[c.QueryRows()..c.QueryRows() + c.KvRows()], kv, k)
            && Slice(s, q + kv, q + kv + kv) == Chunk(x[c.QueryRows() + c.KvRows()..], kv, k)
  {
    QueryCover(c, tp);
    KvCover(c, tp);
    RankChunk(c, tp, i);
    Thirds(c, x, tp, i);
    hide Mul, KvShard, Stride, LocalKvHeads, QueryChunkRows, KvChunkRows, KvChunkOf, KvChunkCount, Chunk, QkvShard,
         Splittable, Slice;
    var q, kv, k := QueryChunkRows(c, tp), KvChunkRows(c, tp), KvChunkOf(c, tp, i);
    var a, b, e := x[..c.QueryRows()], x[c.QueryRows()..c.QueryRows() + c.KvRows()], x[c.QueryRows() + c.KvRows()..];
    ChunkLength(a, q, tp, i);
    ChunkLength(b, kv, KvChunkCount(c, tp), k);
    ChunkLength(e, kv, KvChunkCount(c, tp), k);
    ThreeParts(Chunk(a, q, i), Chunk(b, kv, k), Chunk(e, kv, k));
  }

  lemma QueryCover(c: Heads, tp: nat)
    requires tp > 0 && c.heads > 0 && c.QueryRows() % tp == 0
    ensures Mul(tp, QueryChunkRows(c, tp)) == c.QueryRows()
  {
    hide Mul;
    DivMul(c.QueryRows(), tp);
    MulAssoc(1, c.QueryRows() / tp, tp);
  }

  lemma ThreeParts<T>(a: seq<T>, b: seq<T>, e: seq<T>)
    ensures Slice(a + b + e, 0, |a|) == a && Slice(a + b + e, |a|, |a| + |b|) == b
    ensures Slice(a + b + e, |a| + |b|, |a| + |b| + |e|) == e
  {
  }

  /** Taking every stride-th of chunks that stride ranks share gives each chunk once. */
  lemma EveryChunk<T>(x: seq<T>, pieces: seq<seq<T>>, size: nat, stride: nat, n: nat)
    requires stride > 0 && |pieces| == Mul(n, stride) && |x| == Mul(n, size)
    requires forall i :: 0 <= i < |pieces| ==> pieces[i] == Chunk(x, size, Quot(i, stride))
    ensures Flatten(Every(pieces, stride, n)) == x
  {
    hide Mul, Chunk;
    forall i | 0 <= i < n ensures Every(pieces, stride, n)[i] == Chunk(x, size, i) {
      MulMono(i + 1, n, stride);
      Dist(i, 1, stride);
      MulOne(stride);
      DivExact(Mul(i, stride), stride, i);
    }
    assert Every(pieces, stride, n) == Chunks(x, size, n);
    FlattenChunks(x, size, n);
    assert x[..|x|] == x;
  }

  /** Nothing is lost: from the shards of any tensor that can be sharded at all, every query, key and value row comes
      back in place, in every mode. */
  lemma QkvRoundTrip<T>(c: Heads, x: seq<T>, tp: nat)
    requires tp > 0 && ShardQkv(c, x, tp).Ok?
    ensures ShardQkv(c, x, tp).value != []
    ensures QkvMode(c, |x|, tp).Split? || QkvMode(c, |x|, tp).Replicas? ==> |ShardQkv(c, x, tp).value| == tp
    ensures UnshardQkv(c, ShardQkv(c, x, tp).value, |x|, tp) == x
  {
    hide Mul;
    match QkvMode(c, |x|, tp)
    case Copies =>
    case Column => ColumnRoundTrip(x, tp);
    case _ => SplitRoundTrip(c, x, tp);
  }

  lemma SplitRoundTrip<T>(c: Heads, x: seq<T>, tp: nat)
    requires tp > 0 && (QkvMode(c, |x|, tp).Split? || QkvMode(c, |x|, tp).Replicas?)
    ensures UnshardQkv(c, ShardQkv(c, x, tp).value, |x|, tp) == x
  {
    hide Mul, Quot;
    var shards := ShardQkv(c, x, tp).value;
    assert |shards| == tp && forall i :: 0 <= i < tp ==> shards[i] == QkvShard(c, x, tp, i);
    assert |x| == c.QueryRows() + c.KvRows() + c.KvRows() && c.QueryRows() % tp == 0;
    hide ShardQkv, QkvShard, Join;
    ShardsJoin(c, x, tp, shards);
  }

  lemma ShardsJoin<T>(c: Heads, x: seq<T>, tp: nat, shards: seq<seq<T>>)
    requires Splittable(c, tp) && |x| == c.QueryRows() + c.KvRows() + c.KvRows() && c.QueryRows() % tp == 0
    requires |shards| == tp && forall i :: 0 <= i < tp ==> shards[i] == QkvShard(c, x, tp, i)
    ensures Join(c, shards, tp) == x
  {
    hide QkvShard, Gathered, Parts, Flatten, QueryChunkRows, KvChunkRows, Chunk, Quot, Mul, Stride;
    var q, kv := QueryChunkRows(c, tp), KvChunkRows(c, tp);
    var p0, p1, p2 := Parts(shards, 0, q), Parts(shards, q, q + kv), Parts(shards, q + kv, q + kv + kv);
    var a, b, e := x[..c.QueryRows()], x[c.QueryRows()..c.QueryRows() + c.KvRows()], x[c.QueryRows() + c.KvRows()..];
    PartsAreChunks(c, x, tp, shards, a, b, e, p0, p1, p2);
    QueriesJoin(c, a, p0, tp);
    KvJoin(c, b, p1, tp);
    KvJoin(c, e, p2, tp);
    CutJoin(x, c.QueryRows(), c.KvRows());
  }

  lemma KvJoin<T>(c: Heads, part: seq<T>, pieces: seq<seq<T>>, tp: nat)
    requires Splittable(c, tp) && |part| == c.KvRows() && |pieces| == tp
    requires forall i :: 0 <= i < tp ==> pieces[i] == Chunk(part, KvChunkRows(c, tp), Quot(i, Stride(c, tp)))
    ensures Gathered(c, pieces, tp) == part
  {
    KvCover(c, tp);
    hide Mul, Quot, Chunk, Stride, KvChunkRows, KvChunkCount, Every, Flatten;
    EveryChunk(part, pieces, KvChunkRows(c, tp), Stride(c, tp), KvChunkCount(c, tp));
  }

  lemma CutJoin<T>(x: seq<T>, q: nat, k: nat)
    requires q + k <= |x|
    ensures x[..q] + x[q..q + k] + x[q + k..] == x
  {
  }

  lemma {:induction false} QueriesJoin<T>(c: Heads, a: seq<T>, pieces: seq<seq<T>>, tp: nat)
    requires tp > 0 && c.heads > 0 && c.QueryRows() % tp == 0 && |a| == c.QueryRows() && |pieces| == tp
    requires forall i :: 0 <= i < tp ==> pieces[i] == Chunk(a, QueryChunkRows(c, tp), i)
    ensures Flatten(pieces) == a
  {
    QueryCover(c, tp);
    hide Mul, Chunk, QueryChunkRows;
    FlattenChunks(a, QueryChunkRows(c, tp), tp);
    assert pieces == Chunks(a, QueryChunkRows(c, tp), tp) && a[..|a|] == a;
  }

  lemma PartsAreChunks<T>(c: Heads, x: seq<T>, tp: nat, shards: seq<seq<T>>, a: seq<T>, b: seq<T>, e: seq<T>,
                          p0: seq<seq<T>>, p1: seq<seq<T>>, p2: seq<seq<T>>)
    requires Splittable(c, tp) && |x| == c.QueryRows() + c.KvRows() + c.KvRows() && c.QueryRows() % tp == 0
    requires |shards| == tp && forall i :: 0 <= i < tp ==> shards[i] == QkvShard(c, x, tp, i)
    requires a == x[..c.QueryRows()] && b == x[c.QueryRows()..c.QueryRows() + c.KvRows()]
             && e == x[c.QueryRows() + c.KvRows()..]
    requires p0 == Parts(shards, 0, QueryChunkRows(c, tp))
    requires p1 == Parts(shards, QueryChunkRows(c, tp), QueryChunkRows(c, tp) + KvChunkRows(c, tp))
    requires p2 == Parts(shards, QueryChunkRows(c, tp) + KvChunkRows(c, tp),
                         QueryChunkRows(c, tp) + KvChunkRows(c, tp) + KvChunkRows(c, tp))
    ensures forall i :: 0 <= i < tp ==> p0[i] == Chunk(a, QueryChunkRows(c, tp), i)
    ensures forall i :: 0 <= i < tp ==> p1[i] == Chunk(b, KvChunkRows(c, tp), Quot(i, Stride(c, tp)))
    ensures forall i :: 0 <= i < tp ==> p2[i] == Chunk(e, KvChunkRows(c, tp), Quot(i, Stride(c, tp)))
  {
    hide Mul, Chunk, Slice, LocalKvHeads, Stride, QkvShard, KvChunkRows, QueryChunkRows, Quot;
    forall i | 0 <= i < tp
      ensures p0[i] == Chunk(a, QueryChunkRows(c, tp), i)
      ensures p1[i] == Chunk(b, KvChunkRows(c, tp), Quot(i, Stride(c, tp)))
      ensures p2[i] == Chunk(e, KvChunkRows(c, tp), Quot(i, Stride(c, tp)))
    {
      ShardPieces(c, x, tp, i);
    }
  }

  /** 14 query heads of 64 rows over 4 ranks: the 896 query rows divide and the heads do not, so the tensor is split as
      fused, and the second rank starts in the middle of head 3. */
  lemma FourteenHeadsTorn<T>(x: seq<T>)
    requires |x| == 1152
    ensures var c := Heads(14, 2, 0, 64);
            && c.QueryRows() == 896 && QkvMode(c, |x|, 4) == Replicas && ShardQkv(c, x, 4).Ok?
            && |ShardQkv(c, x, 4).value| == 4 && |ShardQkv(c, x, 4).value[1]| >= 224
            && ShardQkv(c, x, 4).value[1][..224] == x[224..448] && 3 * c.Dim() < 224 < 4 * c.Dim()
  {
    var c := Heads(14, 2, 0, 64);
    assert c.QueryRows() == 896 && c.KvRows() == 128 && Splittable(c, 4) && QkvMode(c, |x|, 4) == Replicas;
    assert ShardQkv(c, x, 4).value[1] == QkvShard(c, x, 4, 1);
    assert QueryChunkRows(c, 4) == 224 && Mul(1, 224) == 224 && Mul(2, 224) == 448;
    var query := Query(x, 896);
    assert query == x[..896] && Chunk(query, 224, 1) == query[224..448] == x[224..448];
    hide ShardQkv, QkvMode, Chunk, KvShard, Mul;
    assert QkvShard(c, x, 4, 1)[..224] == x[224..448];
  }
}
