/** The data path of checkpoint_engine/ps.py: registration into memory buffers, cutting into transfer
    buckets, copying a bucket's ranges and naming the tensors inside a bucket. */
module ParameterServer {
  import opened Sequences
  import opened Tensors

  // ----- Registration -----

  datatype MemoryBuffer = MemoryBuffer(metas: seq<ParameterMeta>, buffer: seq<byte>)

  const MEMORY_BUCKET_BYTES: nat := 0x1_0000_0000

  /** All bytes of a memory pool, buffer after buffer. */
  function Stream(pool: seq<seq<byte>>): seq<byte> { Flatten(pool) }

  function Buffers(pool: seq<MemoryBuffer>): (r: seq<seq<byte>>)
    ensures |r| == |pool|
  {
    seq(|pool|, k requires 0 <= k < |pool| => pool[k].buffer)
  }

  function MetaLists(pool: seq<MemoryBuffer>): (r: seq<seq<ParameterMeta>>)
    ensures |r| == |pool|
  {
    seq(|pool|, k requires 0 <= k < |pool| => pool[k].metas)
  }

  /** The first `i` parameters are packed: full buckets, then the bucket being filled. */
  ghost predicate Packed(params: seq<Tensor>, bucketSize: nat, buckets: seq<seq<Tensor>>, last: seq<Tensor>, i: nat)
  {
    && i <= |params|
    && Flatten(buckets) + last == params[..i]
    && (forall b :: b in buckets ==> b != [] && TotalSize(Metas(b)) <= bucketSize)
    && TotalSize(Metas(last)) <= bucketSize
    && (i > 0 ==> last != [])
  }

  lemma {:induction false} PackClose(params: seq<Tensor>, bucketSize: nat, buckets: seq<seq<Tensor>>,
                                     last: seq<Tensor>, i: nat)
    requires Packed(params, bucketSize, buckets, last, i) && last != []
    ensures Flatten(buckets + [last]) == params[..i]
    ensures forall b :: b in buckets + [last] ==> b != [] && TotalSize(Metas(b)) <= bucketSize
  {
    FlattenSnoc(buckets, last);
  }

  lemma {:induction false} PackAdd(params: seq<Tensor>, bucketSize: nat, buckets: seq<seq<Tensor>>, last: seq<Tensor>,
                                   i: nat)
    requires i < |params| && Flatten(buckets) + last == params[..i]
    requires forall b :: b in buckets ==> b != [] && TotalSize(Metas(b)) <= bucketSize
    requires TotalSize(Metas(last)) + AlignSize(params[i].meta) <= bucketSize
    ensures Packed(params, bucketSize, buckets, last + [params[i]], i + 1)
    ensures TotalSize(Metas(last + [params[i]])) == TotalSize(Metas(last)) + AlignSize(params[i].meta)
  {
    hide NBytes, AlignSize, TotalSize, Metas, Flatten;
    var t := params[i];
    MetasConcat(last, [t]);
    assert Metas([t]) == [t.meta];
    TotalSizeSnoc(Metas(last), t.meta);
    assert Flatten(buckets) + (last + [t]) == Flatten(buckets) + last + [t];
  }

  lemma {:induction false} PackOpen(params: seq<Tensor>, bucketSize: nat, buckets: seq<seq<Tensor>>, last: seq<Tensor>,
                                    i: nat)
    requires Packed(params, bucketSize, buckets, last, i)
    ensures Flatten(buckets) + last == params[..i]
    ensures forall b :: b in buckets ==> b != [] && TotalSize(Metas(b)) <= bucketSize
  {
  }

  lemma {:induction false} PackClosed(params: seq<Tensor>, bucketSize: nat, buckets: seq<seq<Tensor>>,
                                      last: seq<Tensor>, i: nat)
    requires i < |params| && Packed(params, bucketSize, buckets, last, i)
    requires TotalSize(Metas(last)) + AlignSize(params[i].meta) > bucketSize >= AlignSize(params[i].meta)
    ensures last != [] && Flatten(buckets + [last]) + [] == params[..i] && TotalSize(Metas([])) == 0
    ensures forall b :: b in buckets + [last] ==> b != [] && TotalSize(Metas(b)) <= bucketSize
  {
    assert Metas([]) == [] && TotalSize([]) == 0;
    assert i > 0 ==> last != [];
    PackClose(params, bucketSize, buckets, last, i);
  }

  /** A bucket is closed only when the next parameter no longer fitted. */
  predicate Snug(buckets: seq<seq<Tensor>>, bucketSize: nat)
  {
    forall k :: 0 <= k < |buckets| - 1 && buckets[k + 1] != [] ==>
      TotalSize(Metas(buckets[k])) + AlignSize(buckets[k + 1][0].meta) > bucketSize
  }

  lemma {:induction false} SnugClose(buckets: seq<seq<Tensor>>, last: seq<Tensor>, t: Tensor, bucketSize: nat)
    requires Snug(buckets + [last], bucketSize) && TotalSize(Metas(last)) + AlignSize(t.meta) > bucketSize
    ensures Snug(buckets + [last] + [[t]], bucketSize)
  {
    hide TotalSize, AlignSize, Metas;
    var all := buckets + [last] + [[t]];
    assert forall k :: 0 <= k < |all| - 1 ==> all[k] == (buckets + [last])[k];
  }

  lemma {:induction false} SnugAdd(buckets: seq<seq<Tensor>>, last: seq<Tensor>, t: Tensor, bucketSize: nat)
    requires Snug(buckets + [last], bucketSize) && (last == [] ==> buckets == []) && forall b :: b in buckets ==>
               b != []
    ensures Snug(buckets + [last + [t]], bucketSize)
  {
    hide TotalSize, AlignSize, Metas;
    var all: seq<seq<Tensor>>, before: seq<seq<Tensor>> := buckets + [last + [t]], buckets + [last];
    forall k | 0 <= k < |all| ensures all[k] != [] && (last != [] ==> before[k] != []) {
      assert k < |buckets| ==> all[k] in buckets && before[k] == all[k];
    }
    forall k | 0 <= k < |all| - 1 ensures TotalSize(Metas(all[k])) + AlignSize(all[k + 1][0].meta) > bucketSize {
      assert before[k + 1] != [] && all[k] == before[k] && all[k + 1][0] == before[k + 1][0];
    }
  }

  /** Greedy packing of the sorted parameters into memory buckets of at most `bucketSize` bytes. */
  method PackMemoryBuckets(params: seq<Tensor>, bucketSize: nat) returns (buckets: seq<seq<Tensor>>)
    requires params != []
    requires forall t :: t in params ==> AlignSize(t.meta) <= bucketSize
    ensures Flatten(buckets) == params
    ensures forall b :: b in buckets ==> b != [] && TotalSize(Metas(b)) <= bucketSize
    ensures Snug(buckets, bucketSize)
  {
    buckets := [];
    var last, lastSize := [], 0;
    for i := 0 to |params|
      invariant Packed(params, bucketSize, buckets, last, i)
      invariant lastSize == TotalSize(Metas(last))
      invariant Snug(buckets + [last], bucketSize) && (last == [] ==> buckets == [])
    {
      hide Snug, Packed, TotalSize, AlignSize, Flatten, Metas;
      var size := AlignSize(params[i].meta);
      if lastSize + size > bucketSize {
        PackClosed(params, bucketSize, buckets, last, i);
        SnugClose(buckets, last, params[i], bucketSize);
        buckets := buckets + [last];
        last, lastSize := [], 0;
        assert [] + [params[i]] == [params[i]];
      } else {
        PackOpen(params, bucketSize, buckets, last, i);
        SnugAdd(buckets, last, params[i], bucketSize);
      }
      PackAdd(params, bucketSize, buckets, last, i);
      last, lastSize := last + [params[i]], lastSize + size;
    }
    PackClose(params, bucketSize, buckets, last, |params|);
    buckets := buckets + [last];
  }

  /** Copies one tensor into a freshly allocated buffer; other positions keep their contents. */
  method RegisterTensor(buffer: array<byte>, offset: nat, t: Tensor)
    requires offset + |t.bytes| <= buffer.Length
    modifies buffer
    ensures buffer[offset..offset + |t.bytes|] == t.bytes
    ensures buffer[..offset] == old(buffer[..offset])
    ensures buffer[offset + |t.bytes|..] == old(buffer[offset + |t.bytes|..])
  {
    for i := 0 to |t.bytes|
      invariant forall k :: 0 <= k < i ==> buffer[offset + k] == t.bytes[k]
      invariant buffer[..offset] == old(buffer[..offset])
      invariant buffer[offset + |t.bytes|..] == old(buffer[offset + |t.bytes|..])
    {
      buffer[offset + i] := t.bytes[i];
    }
  }

  /** The first i tensors stand at their places in a buffer of the right size. */
  ghost predicate Filled(data: seq<byte>, tensors: seq<Tensor>, i: nat): (ok: bool)
    requires i <= |tensors|
    ensures ok ==> |data| == TotalSize(Metas(tensors))
  {
    |data| == TotalSize(Metas(tensors)) && forall k :: 0 <= k < i ==>
      StandsAt(data, Offset(Metas(tensors), k), tensors[k])
  }

  /** Copying the i-th tensor to its place leaves the earlier ones standing. */
  lemma FillStep(before: seq<byte>, after: seq<byte>, tensors: seq<Tensor>, i: nat)
    requires i < |tensors| && tensors[i].Valid()
    requires |before| == |after| && Filled(before, tensors, i)
    requires var o := Offset(Metas(tensors), i);
             o + |tensors[i].bytes| <= |after| && before[..o] == after[..o]
             && after[o..o + |tensors[i].bytes|] == tensors[i].bytes
    ensures Filled(after, tensors, i + 1)
  {
    var ms := Metas(tensors);
    hide TotalSize, Metas, NBytes;
    forall k | 0 <= k < i ensures StandsAt(after, Offset(ms, k), tensors[k]) {
      assert StandsAt(before, Offset(ms, k), tensors[k]);
      OffsetsDisjoint(ms, k, i);
      var o, n, e := Offset(ms, k), |tensors[k].bytes|, Offset(ms, i);
      assert after[o..o + n] == after[..e][o..o + n] == before[..e][o..o + n] == before[o..o + n];
    }
  }

  lemma FillRoom(tensors: seq<Tensor>, i: nat)
    requires i < |tensors| && tensors[i].Valid()
    ensures Offset(Metas(tensors), i) + |tensors[i].bytes| <= TotalSize(Metas(tensors))
    ensures Offset(Metas(tensors), i + 1) == Offset(Metas(tensors), i) + AlignSize(tensors[i].meta)
  {
    OffsetStep(Metas(tensors), i);
  }

  /** Copies the i-th tensor to its place; returns where the next one goes. */
  method FillNext(buffer: array<byte>, tensors: seq<Tensor>, i: nat, offset: nat) returns (next: nat)
    requires i < |tensors| && tensors[i].Valid() && offset == Offset(Metas(tensors), i)
             && Filled(buffer[..], tensors, i)
    modifies buffer
    ensures next == Offset(Metas(tensors), i + 1) && Filled(buffer[..], tensors, i + 1)
  {
    FillRoom(tensors, i);
    hide TotalSize, Metas, NBytes, Offset, Filled, AlignSize;
    ghost var before := buffer[..];
    RegisterTensor(buffer, offset, tensors[i]);
    FillStep(before, buffer[..], tensors, i);
    next := offset + AlignSize(tensors[i].meta);
  }

  /** Allocates one memory bucket's buffer, uninitialised, and copies its tensors to their offsets. */
  method FillBuffer(tensors: seq<Tensor>) returns (data: seq<byte>)
    requires forall t :: t in tensors ==> t.Valid()
    ensures Holds(data, tensors)
  {
    var size := TotalSize(Metas(tensors));
    var buffer := new byte[size];
    var offset := 0;
    for i := 0 to |tensors|
      invariant offset == Offset(Metas(tensors), i)
      invariant Filled(buffer[..], tensors, i)
    {
      hide *;
      offset := FillNext(buffer, tensors, i, offset);
    }
    data := buffer[..];
  }

  /** Registers the parameters, given in sorted order: the pool's metadata is theirs and its bytes hold them all. */
  method RegisterCheckpoint(params: seq<Tensor>) returns (pool: seq<MemoryBuffer>)
    requires forall t :: t in params ==> t.Valid()
    ensures pool == [] <==> params == []
    ensures forall k :: 0 <= k < |pool| ==> |pool[k].buffer| == TotalSize(pool[k].metas) && pool[k].metas != []
    ensures Flatten(MetaLists(pool)) == Metas(params)
    ensures Holds(Stream(Buffers(pool)), params)
    ensures PoolCapped(pool, params) && PoolSnug(pool)
  {
    pool := [];
    if params == [] {
      return;
    }
    var bucketSize := MEMORY_BUCKET_BYTES;
    for i := 0 to |params|
      invariant forall k :: 0 <= k < i ==> AlignSize(params[k].meta) <= bucketSize
      invariant bucketSize >= MEMORY_BUCKET_BYTES
      invariant bucketSize == MEMORY_BUCKET_BYTES || exists k :: 0 <= k < i && bucketSize == AlignSize(params[k].meta)
    {
      if AlignSize(params[i].meta) > bucketSize {
        bucketSize := AlignSize(params[i].meta);
      }
    }
    var buckets := PackMemoryBuckets(params, bucketSize);
    ValidGroups(buckets, params);
    RegisteredNone(buckets);
    for idx := 0 to |buckets|
      invariant Registered(pool, buckets[..idx])
    {
      var data := FillBuffer(buckets[idx]);
      RegisteredStep(pool, buckets, idx, data);
      pool := pool + [MemoryBuffer(Metas(buckets[idx]), data)];
    }
    assert buckets[..|buckets|] == buckets;
    PoolSized(pool, buckets, bucketSize, params);
  }

  /** No memory buffer is larger than 4 GiB, or than the largest tensor needs. */
  ghost predicate PoolCapped(pool: seq<MemoryBuffer>, params: seq<Tensor>)
  {
    forall k :: 0 <= k < |pool| ==>
      |pool[k].buffer| <= 0x1_0000_0000
      || exists i :: 0 <= i < |params| && |pool[k].buffer| <= AlignSize(params[i].meta)
  }

  /** No two neighbouring memory buffers could have been one: the next one's first tensor no longer fitted. */
  ghost predicate PoolSnug(pool: seq<MemoryBuffer>)
  {
    forall k, next :: 0 <= k < next < |pool| && next == k + 1 ==>
      pool[next].metas != [] && |pool[k].buffer| + AlignSize(pool[next].metas[0]) > 0x1_0000_0000
  }

  lemma {:induction false} PoolSized(pool: seq<MemoryBuffer>, buckets: seq<seq<Tensor>>, bucketSize: nat,
                                     params: seq<Tensor>)
    requires Registered(pool, buckets) && Snug(buckets, bucketSize) && bucketSize >= MEMORY_BUCKET_BYTES
    requires forall b :: b in buckets ==> b != [] && TotalSize(Metas(b)) <= bucketSize
    requires bucketSize == MEMORY_BUCKET_BYTES
             || exists k :: 0 <= k < |params| && bucketSize == AlignSize(params[k].meta)
    ensures PoolCapped(pool, params) && PoolSnug(pool)
    ensures forall k :: 0 <= k < |pool| ==> pool[k].metas != []
  {
    hide TotalSize, AlignSize, Holds, Flatten;
    forall k | 0 <= k < |pool| ensures buckets[k] != [] && |pool[k].buffer| <= bucketSize {
      assert buckets[k] in buckets;
    }
  }

  ghost predicate Registered(pool: seq<MemoryBuffer>, groups: seq<seq<Tensor>>)
  {
    && |pool| == |groups|
    && (forall k :: 0 <= k < |pool| ==>
         |pool[k].buffer| == TotalSize(pool[k].metas) && pool[k].metas == Metas(groups[k]))
    && Flatten(MetaLists(pool)) == Metas(Flatten(groups))
    && Holds(Stream(Buffers(pool)), Flatten(groups))
  }

  lemma RegisteredNone(groups: seq<seq<Tensor>>)
    ensures Registered([], groups[..0])
  {
    assert Buffers([]) == [] && MetaLists([]) == [];
  }

  lemma RegisteredStep(pool: seq<MemoryBuffer>, groups: seq<seq<Tensor>>, idx: nat, data: seq<byte>)
    requires idx < |groups| && Registered(pool, groups[..idx]) && Holds(data, groups[idx])
    ensures Registered(pool + [MemoryBuffer(Metas(groups[idx]), data)], groups[..idx + 1])
  {
    var next := MemoryBuffer(Metas(groups[idx]), data);
    hide Flatten, Holds, TotalSize;
    assert |data| == TotalSize(next.metas) by { HoldsSize(data, groups[idx]); }
    assert Buffers(pool + [next]) == Buffers(pool) + [data];
    assert MetaLists(pool + [next]) == MetaLists(pool) + [next.metas];
    FlattenSnoc(Buffers(pool), data);
    FlattenSnoc(MetaLists(pool), next.metas);
    assert groups[..idx + 1] == groups[..idx] + [groups[idx]];
    FlattenSnoc(groups[..idx], groups[idx]);
    MetasConcat(Flatten(groups[..idx]), groups[idx]);
    HoldsConcat(Stream(Buffers(pool)), Flatten(groups[..idx]), data, groups[idx]);
  }

  lemma HoldsSize(data: seq<byte>, tensors: seq<Tensor>)
    requires Holds(data, tensors)
    ensures |data| == TotalSize(Metas(tensors))
  {
  }

  lemma {:induction false} ValidGroups(groups: seq<seq<Tensor>>, params: seq<Tensor>)
    requires Flatten(groups) == params && forall t :: t in params ==> t.Valid()
    ensures forall k, t :: 0 <= k < |groups| && t in groups[k] ==> t.Valid()
  {
    forall k, t | 0 <= k < |groups| && t in groups[k] ensures t.Valid() {
      FlattenAt(groups, k);
      assert t in params;
    }
  }

  // ----- Cutting into transfer buckets -----

  datatype BucketRange = BucketRange(idx: nat, offset: nat, size: nat)

  datatype H2DBucket = H2DBucket(size: nat, ranges: seq<BucketRange>, items: seq<ParameterMeta>)

  /** Position in the stream at which memory buffer `i` starts. */
  function Base(bufs: seq<seq<ParameterMeta>>, i: nat): nat
    requires i <= |bufs|
  {
    TotalSize(Flatten(bufs[..i]))
  }

  lemma BaseStep(bufs: seq<seq<ParameterMeta>>, i: nat)
    requires i < |bufs|
    ensures Base(bufs, i + 1) == Base(bufs, i) + TotalSize(bufs[i])
  {
    assert bufs[..i + 1] == bufs[..i] + [bufs[i]];
    FlattenSnoc(bufs[..i], bufs[i]);
    TotalSizeConcat(Flatten(bufs[..i]), bufs[i]);
  }

  ghost predicate RangeOk(bufs: seq<seq<ParameterMeta>>, r: BucketRange)
  {
    r.idx < |bufs| && r.offset + r.size <= TotalSize(bufs[r.idx])
  }

  /** The ranges lie inside their buffers and, laid end to end, cover the stream from `a` to `b` without gap or
      overlap. */
  ghost predicate Contiguous(bufs: seq<seq<ParameterMeta>>, rs: seq<BucketRange>, a: nat, b: nat)
  {
    if rs == [] then a == b
    else
      var r := rs[|rs| - 1];
      && RangeOk(bufs, r)
      && Base(bufs, r.idx) + r.offset + r.size == b
      && Contiguous(bufs, rs[..|rs| - 1], a, Base(bufs, r.idx) + r.offset)
  }

  /** The buckets cut the first `items` of the owner's parameters, in order, into consecutive pieces; the ranges
      of each bucket cover the piece of the stream that its items occupy. */
  ghost predicate CutUpTo(bufs: seq<seq<ParameterMeta>>, bucketSize: nat, buckets: seq<H2DBucket>,
                          items: seq<ParameterMeta>, pos: nat)
    decreases |buckets|
  {
    if buckets == [] then items == [] && pos == 0
    else
      var b := buckets[|buckets| - 1];
      && |b.items| <= |items| && items[|items| - |b.items|..] == b.items != []
      && 0 < b.size == TotalSize(b.items) <= bucketSize && b.size <= pos
      && Contiguous(bufs, b.ranges, pos - b.size, pos)
      && CutUpTo(bufs, bucketSize, buckets[..|buckets| - 1], items[..|items| - |b.items|], pos - b.size)
  }

  ghost predicate IsCut(bufs: seq<seq<ParameterMeta>>, bucketSize: nat, buckets: seq<H2DBucket>)
  {
    CutUpTo(bufs, bucketSize, buckets, Flatten(bufs), TotalSize(Flatten(bufs)))
  }

  lemma CutSnoc(bufs: seq<seq<ParameterMeta>>, bucketSize: nat, buckets: seq<H2DBucket>,
                items: seq<ParameterMeta>, pos: nat, b: H2DBucket)
    requires CutUpTo(bufs, bucketSize, buckets, items, pos)
    requires 0 < b.size == TotalSize(b.items) <= bucketSize && b.items != []
    requires Contiguous(bufs, b.ranges, pos, pos + b.size)
    ensures CutUpTo(bufs, bucketSize, buckets + [b], items + b.items, pos + b.size)
  {
    var all := items + b.items;
    assert (buckets + [b])[..|buckets|] == buckets;
    assert all[|all| - |b.items|..] == b.items && all[..|all| - |b.items|] == items;
  }

  lemma ContiguousSnoc(bufs: seq<seq<ParameterMeta>>, rs: seq<BucketRange>, a: nat, r: BucketRange)
    requires RangeOk(bufs, r) && Contiguous(bufs, rs, a, Base(bufs, r.idx) + r.offset)
    ensures Contiguous(bufs, rs + [r], a, Base(bufs, r.idx) + r.offset + r.size)
  {
    assert (rs + [r])[..|rs|] == rs;
  }

  /** State of the cutting loops: full buckets up to stream position `from`, the bucket being filled, whose ranges
      reach `closedTo`, and `items` the parameters consumed so far. */
  ghost predicate Cutting(bufs: seq<seq<ParameterMeta>>, bucketSize: nat, buckets: seq<H2DBucket>, last: H2DBucket,
                          items: seq<ParameterMeta>, closedTo: nat, pos: nat)
  {
    && last.size == TotalSize(last.items) <= bucketSize && last.size <= pos
    && |last.items| <= |items| && items[|items| - |last.items|..] == last.items
    && CutUpTo(bufs, bucketSize, buckets, items[..|items| - |last.items|], pos - last.size)
    && Contiguous(bufs, last.ranges, pos - last.size, closedTo)
    && (buckets != [] ==> last.size > 0)
  }

  lemma CuttingStart(bufs: seq<seq<ParameterMeta>>, bucketSize: nat)
    ensures Cutting(bufs, bucketSize, [], H2DBucket(0, [], []), Flatten(bufs[..0]), Base(bufs, 0), Base(bufs, 0))
  {
  }

  /** Recording the pending range brings the ranges up to the consumed items. */
  lemma CuttingRange(bufs: seq<seq<ParameterMeta>>, bucketSize: nat, buckets: seq<H2DBucket>, last: H2DBucket,
                     items: seq<ParameterMeta>, r: BucketRange)
    requires RangeOk(bufs, r)
    requires Cutting(bufs, bucketSize, buckets, last, items,
                     Base(bufs, r.idx) + r.offset, Base(bufs, r.idx) + r.offset + r.size)
    ensures var pos := Base(bufs, r.idx) + r.offset + r.size;
            Cutting(bufs, bucketSize, buckets, last.(ranges := last.ranges + [r]), items, pos, pos)
  {
    var pos := Base(bufs, r.idx) + r.offset + r.size;
    ContiguousSnoc(bufs, last.ranges, pos - last.size, r);
  }

  lemma CuttingAdd(bufs: seq<seq<ParameterMeta>>, bucketSize: nat, buckets: seq<H2DBucket>, last: H2DBucket,
                   items: seq<ParameterMeta>, closedTo: nat, pos: nat, m: ParameterMeta)
    requires Cutting(bufs, bucketSize, buckets, last, items, closedTo, pos)
    requires last.size + AlignSize(m) <= bucketSize
    ensures Cutting(bufs, bucketSize, buckets, last.(size := last.size + AlignSize(m), items := last.items + [m]),
                    items + [m], closedTo, pos + AlignSize(m))
  {
    hide CutUpTo, Contiguous, TotalSize, AlignSize;
    TotalSizeSnoc(last.items, m);
    var n := |items| - |last.items|;
    assert (items + [m])[..n] == items[..n];
    assert (items + [m])[n..] == items[n..] + [m];
  }

  lemma {:induction false} TotalSizeNil(items: seq<ParameterMeta>)
    ensures items == [] ==> TotalSize(items) == 0
  {
  }

  lemma {:induction false} ContiguousNil(bufs: seq<seq<ParameterMeta>>, pos: nat)
    ensures Contiguous(bufs, [], pos, pos)
  {
  }

  /** Closing the bucket being filled once its ranges have caught up, and opening the next one with a first item. */
  lemma CuttingOpen(bufs: seq<seq<ParameterMeta>>, bucketSize: nat, buckets: seq<H2DBucket>, last: H2DBucket,
                    items: seq<ParameterMeta>, pos: nat, m: ParameterMeta)
    requires Cutting(bufs, bucketSize, buckets, last, items, pos, pos)
    requires last.size + AlignSize(m) > bucketSize >= AlignSize(m)
    ensures Cutting(bufs, bucketSize, buckets + [last], H2DBucket(AlignSize(m), [], [m]),
                    items + [m], pos, pos + AlignSize(m))
  {
    assert last.size > 0 by { TotalSizeNil(last.items); }
    hide CutUpTo, Contiguous, AlignSize, Cutting, TotalSize;
    CuttingLast(bufs, bucketSize, buckets, last, items, pos);
    CuttingFirst(bufs, bucketSize, buckets + [last], items, pos, m);
  }

  lemma OneSize(m: ParameterMeta)
    ensures TotalSize([m]) == AlignSize(m)
  {
    TotalSizeSnoc([], m);
    assert [] + [m] == [m];
  }

  /** A bucket with a single item and no range yet. */
  lemma {:induction false} CuttingFirst(bufs: seq<seq<ParameterMeta>>, bucketSize: nat, buckets: seq<H2DBucket>,
                                        items: seq<ParameterMeta>,
                     pos: nat, m: ParameterMeta)
    requires CutUpTo(bufs, bucketSize, buckets, items, pos) && 0 < AlignSize(m) <= bucketSize
    ensures Cutting(bufs, bucketSize, buckets, H2DBucket(AlignSize(m), [], [m]), items + [m], pos, pos + AlignSize(m))
  {
    hide CutUpTo, Contiguous, AlignSize, TotalSize;
    OneSize(m);
    ContiguousNil(bufs, pos);
    assert (items + [m])[..|items|] == items && (items + [m])[|items|..] == [m];
  }

  lemma {:induction false} CuttingEnd(bufs: seq<seq<ParameterMeta>>, bucketSize: nat, buckets: seq<H2DBucket>,
                                      last: H2DBucket)
    requires var n := TotalSize(Flatten(bufs));
             Cutting(bufs, bucketSize, buckets, last, Flatten(bufs), n, n)
    ensures last.size > 0 <==> TotalSize(Flatten(bufs)) > 0
    ensures last.size > 0 ==> IsCut(bufs, bucketSize, buckets + [last])
  {
    var items := Flatten(bufs);
    if last.size > 0 {
      CuttingLast(bufs, bucketSize, buckets, last, items, TotalSize(items));
    }
  }

  lemma {:induction false} CuttingLast(bufs: seq<seq<ParameterMeta>>, bucketSize: nat, buckets: seq<H2DBucket>,
                                       last: H2DBucket,
                    items: seq<ParameterMeta>, pos: nat)
    requires Cutting(bufs, bucketSize, buckets, last, items, pos, pos) && last.size > 0
    ensures CutUpTo(bufs, bucketSize, buckets + [last], items, pos)
  {
    hide CutUpTo, Contiguous, Flatten, Base;
    assert last.items != [] by { TotalSizeNil(last.items); }
    hide TotalSize;
    var n := |items| - |last.items|;
    CutSnoc(bufs, bucketSize, buckets, items[..n], pos - last.size, last);
    assert items[..n] + last.items == items;
  }

  /** A transfer bucket is closed only when the next parameter no longer fitted. */
  predicate SnugCut(cut: seq<H2DBucket>, bucketSize: nat)
  {
    forall k :: 0 <= k < |cut| - 1 && cut[k + 1].items != [] ==>
      cut[k].size + AlignSize(cut[k + 1].items[0]) > bucketSize
  }

  lemma SnugCutOpen(buckets: seq<H2DBucket>, last: H2DBucket, closed: H2DBucket, next: H2DBucket, bucketSize: nat)
    requires SnugCut(buckets + [last], bucketSize) && closed.size == last.size && closed.items == last.items
    requires next.items != [] ==> last.size + AlignSize(next.items[0]) > bucketSize
    ensures SnugCut(buckets + [closed] + [next], bucketSize)
  {
    hide AlignSize;
    var all, before := buckets + [closed] + [next], buckets + [last];
    assert forall k :: 0 <= k < |all| - 1 ==> all[k].size == before[k].size && all[k].items == before[k].items;
  }

  /** More items at the end of the last bucket, or other ranges of it, change nothing. */
  lemma SnugCutAdd(buckets: seq<H2DBucket>, last: H2DBucket, next: H2DBucket, bucketSize: nat)
    requires SnugCut(buckets + [last], bucketSize) && last.items <= next.items && (last.items == [] ==> buckets == [])
    ensures SnugCut(buckets + [next], bucketSize)
  {
    hide AlignSize;
    var all, before := buckets + [next], buckets + [last];
    forall k | 0 <= k < |all| - 1 && all[k + 1].items != []
      ensures all[k].size + AlignSize(all[k + 1].items[0]) > bucketSize
    {
      assert before[k + 1].items != [] ==> all[k + 1].items[0] == before[k + 1].items[0];
      assert all[k] == before[k];
      if k + 1 < |buckets| {
        assert all[k + 1] == before[k + 1];
      }
    }
  }

  ghost predicate TensorsFit(bufs: seq<seq<ParameterMeta>>, bucketSize: nat)
  {
    forall i, m :: 0 <= i < |bufs| && m in bufs[i] ==> AlignSize(m) <= bucketSize
  }

  /** Cuts one memory buffer, continuing the bucket being filled. */
  method CutBuffer(bufs: seq<seq<ParameterMeta>>, idx: nat, bucketSize: nat, full: seq<H2DBucket>, open: H2DBucket)
    returns (buckets: seq<H2DBucket>, last: H2DBucket)
    requires idx < |bufs|
    requires forall m :: m in bufs[idx] ==> AlignSize(m) <= bucketSize
    requires Cutting(bufs, bucketSize, full, open, Flatten(bufs[..idx]), Base(bufs, idx), Base(bufs, idx))
    requires SnugCut(full + [open], bucketSize)
    ensures Cutting(bufs, bucketSize, buckets, last, Flatten(bufs[..idx + 1]), Base(bufs, idx + 1), Base(bufs, idx + 1))
    ensures SnugCut(buckets + [last], bucketSize)
  {
    hide Cutting, Base, TotalSize, AlignSize, Flatten, SnugCut;
    buckets, last := full, open;
    var metas := bufs[idx];
    var start, offset := 0, 0;
    ghost var items := Flatten(bufs[..idx]);
    MetasStart(items, metas);
    for j := 0 to |metas|
      invariant start <= offset == Offset(metas, j)
      invariant Cutting(bufs, bucketSize, buckets, last, items + metas[..j], Base(bufs, idx) + start,
                        Base(bufs, idx) + offset)
      invariant SnugCut(buckets + [last], bucketSize)
    {
      NoBucketsYet(bufs, bucketSize, buckets, last, items + metas[..j], Base(bufs, idx) + start,
                   Base(bufs, idx) + offset);
      ghost var was := last;
      var m := metas[j];
      var s := AlignSize(m);
      MetasStep(items, metas, j);
      if last.size + s > bucketSize {
        if offset - start > 0 {
          var r := BucketRange(idx, start, offset - start);
          CuttingRange(bufs, bucketSize, buckets, last, items + metas[..j], r);
          last := last.(ranges := last.ranges + [r]);
        }
        start := offset;
        CuttingOpen(bufs, bucketSize, buckets, last, items + metas[..j], Base(bufs, idx) + offset, m);
        SnugCutOpen(buckets, was, last, H2DBucket(s, [], [m]), bucketSize);
        buckets, last := buckets + [last], H2DBucket(s, [], [m]);
      } else {
        CuttingAdd(bufs, bucketSize, buckets, last, items + metas[..j], Base(bufs, idx) + start,
                   Base(bufs, idx) + offset, m);
        last := last.(size := last.size + s, items := last.items + [m]);
        SnugCutAdd(buckets, was, last, bucketSize);
      }
      offset := offset + s;
    }
    MetasEnd(bufs, idx);
    var r := BucketRange(idx, start, offset - start);
    CuttingRange(bufs, bucketSize, buckets, last, items + metas, r);
    NoBucketsYet(bufs, bucketSize, buckets, last, items + metas, Base(bufs, idx) + start, Base(bufs, idx) + offset);
    SnugCutAdd(buckets, last, last.(ranges := last.ranges + [r]), bucketSize);
    last := last.(ranges := last.ranges + [r]);
  }

  lemma {:induction false} NoBucketsYet(bufs: seq<seq<ParameterMeta>>, bucketSize: nat, buckets: seq<H2DBucket>,
                                        last: H2DBucket, items: seq<ParameterMeta>, closedTo: nat, pos: nat)
    requires Cutting(bufs, bucketSize, buckets, last, items, closedTo, pos)
    ensures last.items == [] ==> buckets == []
  {
    TotalSizeNil(last.items);
  }

  /** Cuts one owner's memory buffers. `last` is the bucket being filled. The result is a cut exactly when the owner
      has any bytes at all; otherwise the final size assertion fails and `ok` is false. */
  method CutOwner(bufs: seq<seq<ParameterMeta>>, bucketSize: nat) returns (ok: bool, buckets: seq<H2DBucket>)
    requires TensorsFit(bufs, bucketSize)
    ensures ok <==> TotalSize(Flatten(bufs)) > 0
    ensures ok ==> IsCut(bufs, bucketSize, buckets) && SnugCut(buckets, bucketSize)
  {
    buckets := [];
    var last := H2DBucket(0, [], []);
    CuttingStart(bufs, bucketSize);
    for idx := 0 to |bufs|
      invariant SnugCut(buckets + [last], bucketSize)
      invariant Cutting(bufs, bucketSize, buckets, last, Flatten(bufs[..idx]), Base(bufs, idx), Base(bufs, idx))
    {
      buckets, last := CutBuffer(bufs, idx, bucketSize, buckets, last);
    }
    assert bufs[..|bufs|] == bufs;
    CuttingEnd(bufs, bucketSize, buckets, last);
    ok := last.size > 0;
    buckets := buckets + [last];
  }

  lemma MetasStart(items: seq<ParameterMeta>, metas: seq<ParameterMeta>)
    ensures Offset(metas, 0) == 0 && items + metas[..0] == items
  {
  }

  lemma {:induction false} MetasStep(items: seq<ParameterMeta>, metas: seq<ParameterMeta>, j: nat)
    requires j < |metas|
    ensures items + metas[..j + 1] == items + metas[..j] + [metas[j]]
    ensures Offset(metas, j + 1) == Offset(metas, j) + AlignSize(metas[j]) <= TotalSize(metas)
  {
    hide *;
    OffsetStep(metas, j);
    ExtendPrefix(items, metas, j);
  }

  lemma MetasEnd(bufs: seq<seq<ParameterMeta>>, idx: nat)
    requires idx < |bufs|
    ensures Flatten(bufs[..idx + 1]) == Flatten(bufs[..idx]) + bufs[idx]
    ensures Flatten(bufs[..idx]) + bufs[idx] == Flatten(bufs[..idx]) + bufs[idx][..|bufs[idx]|]
    ensures Base(bufs, idx + 1) == Base(bufs, idx) + TotalSize(bufs[idx])
    ensures Offset(bufs[idx], |bufs[idx]|) == TotalSize(bufs[idx])
  {
    assert bufs[..idx + 1] == bufs[..idx] + [bufs[idx]];
    FlattenSnoc(bufs[..idx], bufs[idx]);
    BaseStep(bufs, idx);
    assert bufs[idx][..|bufs[idx]|] == bufs[idx];
  }

  // ----- Copying a bucket and naming its tensors -----

  ghost predicate RangesIn(pool: seq<seq<byte>>, rs: seq<BucketRange>)
  {
    forall r :: r in rs ==> r.idx < |pool| && r.offset + r.size <= |pool[r.idx]|
  }

  function RangesSize(rs: seq<BucketRange>): nat
  {
    if rs == [] then 0 else RangesSize(rs[..|rs| - 1]) + rs[|rs| - 1].size
  }

  /** The bytes that a bucket's ranges select from the owner's memory pool, end to end. */
  function Payload(pool: seq<seq<byte>>, rs: seq<BucketRange>): (data: seq<byte>)
    requires RangesIn(pool, rs)
    ensures |data| == RangesSize(rs)
  {
    if rs == [] then []
    else
      var r := rs[|rs| - 1];
      Payload(pool, rs[..|rs| - 1]) + pool[r.idx][r.offset..r.offset + r.size]
  }

  lemma {:induction false} ContiguousSize(bufs: seq<seq<ParameterMeta>>, rs: seq<BucketRange>, a: nat, b: nat)
    requires Contiguous(bufs, rs, a, b)
    ensures RangesSize(rs) == b - a
    decreases |rs|
  {
    hide Base;
    if rs != [] {
      var r := rs[|rs| - 1];
      ContiguousSize(bufs, rs[..|rs| - 1], a, Base(bufs, r.idx) + r.offset);
    }
  }

  /** The ranges of a bucket add up to its size, which its items fill. */
  ghost predicate Sized(bucketSize: nat, b: H2DBucket)
  {
    0 < b.size == RangesSize(b.ranges) == TotalSize(b.items) <= bucketSize
  }

  lemma {:induction false} CutSized(bufs: seq<seq<ParameterMeta>>, bucketSize: nat, cut: seq<H2DBucket>,
                                    items: seq<ParameterMeta>, pos: nat)
    requires CutUpTo(bufs, bucketSize, cut, items, pos)
    ensures forall k :: 0 <= k < |cut| ==> Sized(bucketSize, cut[k])
    decreases |cut|
  {
    if cut != [] {
      var b := cut[|cut| - 1];
      ContiguousSize(bufs, b.ranges, pos - b.size, pos);
      CutSized(bufs, bucketSize, cut[..|cut| - 1], items[..|items| - |b.items|], pos - b.size);
      hide Contiguous, TotalSize, RangesSize;
      forall k | 0 <= k < |cut| ensures Sized(bucketSize, cut[k]) {
        assert k < |cut| - 1 ==> cut[k] == cut[..|cut| - 1][k];
      }
    }
  }

  ghost predicate PoolFits(bufs: seq<seq<ParameterMeta>>, pool: seq<seq<byte>>)
  {
    |pool| == |bufs| && forall i :: 0 <= i < |pool| ==> |pool[i]| == TotalSize(bufs[i])
  }

  lemma {:induction false} BaseIsLength(bufs: seq<seq<ParameterMeta>>, pool: seq<seq<byte>>, i: nat)
    requires PoolFits(bufs, pool) && i <= |bufs|
    ensures |Flatten(pool[..i])| == Base(bufs, i)
  {
    if i > 0 {
      BaseIsLength(bufs, pool, i - 1);
      BaseStep(bufs, i - 1);
      assert pool[..i] == pool[..i - 1] + [pool[i - 1]];
      FlattenSnoc(pool[..i - 1], pool[i - 1]);
    }
  }

  lemma RangeInStream(bufs: seq<seq<ParameterMeta>>, pool: seq<seq<byte>>, r: BucketRange)
    requires PoolFits(bufs, pool) && RangeOk(bufs, r)
    ensures var p := Base(bufs, r.idx) + r.offset;
            p + r.size <= |Stream(pool)| && Stream(pool)[p..p + r.size] == pool[r.idx][r.offset..r.offset + r.size]
  {
    BaseIsLength(bufs, pool, r.idx);
    FlattenAt(pool, r.idx);
    var pre, mid, post := Flatten(pool[..r.idx]), pool[r.idx], Flatten(pool[r.idx + 1..]);
    var p := |pre| + r.offset;
    var x, y := (pre + mid + post)[p..p + r.size], mid[r.offset..r.offset + r.size];
    assert forall i :: 0 <= i < r.size ==> x[i] == y[i];
  }

  /** Ranges that cover the stream from `a` to `b` select exactly that part of it. */
  lemma {:induction false} ContiguousPayload(bufs: seq<seq<ParameterMeta>>, pool: seq<seq<byte>>, rs: seq<BucketRange>,
                                             a: nat, b: nat)
    requires PoolFits(bufs, pool) && Contiguous(bufs, rs, a, b) && a <= |Stream(pool)|
    ensures RangesIn(pool, rs) && a <= b <= |Stream(pool)| && Payload(pool, rs) == Stream(pool)[a..b]
    decreases |rs|
  {
    if rs != [] {
      var r := rs[|rs| - 1];
      var m := Base(bufs, r.idx) + r.offset;
      assert PoolFits(bufs, pool) && RangeOk(bufs, r) && b == m + r.size && r.idx < |pool|
             && r.offset + r.size <= |pool[r.idx]|;
      hide *;
      ContiguousPayload(bufs, pool, rs[..|rs| - 1], a, m);
      RangeInStream(bufs, pool, r);
      PayloadGrows(pool, rs, Stream(pool), a, m, b);
    }
  }

  lemma {:induction false} PayloadGrows(pool: seq<seq<byte>>, rs: seq<BucketRange>, stream: seq<byte>, a: nat, m: nat,
                                        b: nat)
    requires rs != [] && a <= m <= b <= |stream|
    requires RangesIn(pool, rs[..|rs| - 1]) && Payload(pool, rs[..|rs| - 1]) == stream[a..m]
    requires var r := rs[|rs| - 1];
             r.idx < |pool| && r.offset + r.size <= |pool[r.idx]|
             && pool[r.idx][r.offset..r.offset + r.size] == stream[m..b]
    ensures RangesIn(pool, rs) && Payload(pool, rs) == stream[a..b]
  {
    hide *;
    var r := rs[|rs| - 1];
    assert rs == rs[..|rs| - 1] + [r];
    RangesInSnoc(pool, rs[..|rs| - 1], r, rs);
    PayloadSnoc(pool, rs);
    SliceJoin(stream, a, m, b, Payload(pool, rs[..|rs| - 1]), pool[r.idx][r.offset..r.offset + r.size],
              Payload(pool, rs));
  }

  lemma {:induction false} PayloadSnoc(pool: seq<seq<byte>>, rs: seq<BucketRange>)
    requires RangesIn(pool, rs) && rs != []
    ensures RangesIn(pool, rs[..|rs| - 1])
    ensures var r := rs[|rs| - 1];
            Payload(pool, rs) == Payload(pool, rs[..|rs| - 1]) + pool[r.idx][r.offset..r.offset + r.size]
  {
  }

  lemma SliceJoin<T>(xs: seq<T>, a: nat, m: nat, b: nat, left: seq<T>, right: seq<T>, both: seq<T>)
    requires a <= m <= b <= |xs| && left == xs[a..m] && right == xs[m..b] && both == left + right
    ensures both == xs[a..b]
  {
  }

  lemma RangesInSnoc(pool: seq<seq<byte>>, init: seq<BucketRange>, r: BucketRange, rs: seq<BucketRange>)
    requires rs == init + [r] && RangesIn(pool, init) && r.idx < |pool| && r.offset + r.size <= |pool[r.idx]|
    ensures RangesIn(pool, rs)
  {
  }

  method CopyRange(buffer: array<byte>, offset: nat, source: seq<byte>)
    requires offset + |source| <= buffer.Length
    modifies buffer
    ensures buffer[..] == old(buffer[..offset]) + source + old(buffer[offset + |source|..])
  {
    forall k | 0 <= k < |source| {
      buffer[offset + k] := source[k];
    }
  }

  lemma {:induction false} PayloadStep(pool: seq<seq<byte>>, rs: seq<BucketRange>, i: nat)
    requires RangesIn(pool, rs) && i < |rs|
    ensures RangesIn(pool, rs[..i + 1]) && rs[i].idx < |pool| && rs[i].offset + rs[i].size <= |pool[rs[i].idx]|
    ensures Payload(pool, rs[..i + 1])
            == Payload(pool, rs[..i]) + pool[rs[i].idx][rs[i].offset..rs[i].offset + rs[i].size]
    ensures RangesSize(rs[..i + 1]) == RangesSize(rs[..i]) + rs[i].size <= RangesSize(rs)
  {
    assert rs[..i + 1][..i] == rs[..i];
    RangesSizeMonotone(rs, i + 1);
  }

  /** Copies a bucket's ranges into the front of `buffer`. The two size assertions of the source are checked here:
      they hold when the bucket's size is the sum of its ranges. */
  method CopyToBuffer(pool: seq<seq<byte>>, bucket: H2DBucket, buffer: array<byte>)
    requires RangesIn(pool, bucket.ranges) && bucket.size == RangesSize(bucket.ranges) <= buffer.Length
    modifies buffer
    ensures buffer[..] == Payload(pool, bucket.ranges) + old(buffer[bucket.size..])
  {
    var offset := 0;
    for i := 0 to |bucket.ranges|
      invariant offset == RangesSize(bucket.ranges[..i]) <= bucket.size
      invariant buffer[..] == Payload(pool, bucket.ranges[..i]) + old(buffer[offset..])
    {
      hide Payload, RangesSize, RangesIn;
      offset := CopyOneRange(pool, bucket.ranges, i, buffer, offset, old(buffer[..]));
    }
    assert bucket.ranges[..|bucket.ranges|] == bucket.ranges;
    assert offset == bucket.size;
  }

  /** One turn of the copying loop, starting from a buffer with the first i ranges in place. */
  method CopyOneRange(pool: seq<seq<byte>>, rs: seq<BucketRange>, i: nat, buffer: array<byte>, offset: nat,
                      ghost start: seq<byte>)
    returns (next: nat)
    requires RangesIn(pool, rs) && i < |rs| && RangesSize(rs) <= buffer.Length == |start|
    requires offset == RangesSize(rs[..i]) && RangesIn(pool, rs[..i]) && offset <= |start|
    requires buffer[..] == Payload(pool, rs[..i]) + start[offset..]
    modifies buffer
    ensures RangesIn(pool, rs[..i + 1]) && next == RangesSize(rs[..i + 1]) <= RangesSize(rs)
    ensures buffer[..] == Payload(pool, rs[..i + 1]) + start[next..]
  {
    hide Payload, RangesSize, RangesIn;
    var r := rs[i];
    PayloadStep(pool, rs, i);
    next := offset + r.size;
    ghost var before, data := Payload(pool, rs[..i]), pool[r.idx][r.offset..r.offset + r.size];
    ghost var was := buffer[..];
    CopyRange(buffer, offset, pool[r.idx][r.offset..r.offset + r.size]);
    Spliced(was, before, start, offset, data, next, buffer[..]);
  }

  lemma Spliced<T>(was: seq<T>, before: seq<T>, start: seq<T>, offset: nat, data: seq<T>, next: nat, now: seq<T>)
    requires offset == |before| <= |start| && was == before + start[offset..] && next == offset + |data| <= |was|
    requires now == was[..offset] + data + was[next..]
    ensures next <= |start| && now == before + data + start[next..]
  {
    assert was[..offset] == before && was[next..] == start[next..];
  }

  lemma {:induction false} RangesSizeMonotone(rs: seq<BucketRange>, i: nat)
    requires i <= |rs|
    ensures RangesSize(rs[..i]) <= RangesSize(rs)
    decreases |rs|
  {
    if i == |rs| {
      assert rs[..i] == rs;
    } else {
      RangesSizeMonotone(rs[..|rs| - 1], i);
      assert rs[..|rs| - 1][..i] == rs[..i];
    }
  }

  datatype NamedTensor = NamedTensor(meta: ParameterMeta, offset: nat)

  /** The names and positions that the payload message announces for consecutive aligned tensors from `offset` on. */
  function Named(metas: seq<ParameterMeta>, offset: nat): (ret: seq<NamedTensor>)
    ensures |ret| == |metas|
  {
    seq(|metas|, k requires 0 <= k < |metas| => NamedTensor(metas[k], offset + Offset(metas, k)))
  }

  method ToNamedTensor(metas: seq<ParameterMeta>, start: nat) returns (ret: seq<NamedTensor>)
    ensures ret == Named(metas, start)
  {
    ret := [];
    var offset := start;
    for i := 0 to |metas|
      invariant offset == start + Offset(metas, i)
      invariant |ret| == i
      invariant forall k :: 0 <= k < i ==> ret[k] == NamedTensor(metas[k], start + Offset(metas, k))
    {
      OffsetStep(metas, i);
      ret := ret + [NamedTensor(metas[i], offset)];
      offset := offset + AlignSize(metas[i]);
    }
  }
}
