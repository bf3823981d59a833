/** Parameter metadata and byte layout (checkpoint_engine/ps.py). */
module Tensors {
  import opened Sequences

  type byte = b: int | 0 <= b < 256

  datatype DType = DType(name: string, itemsize: nat)

  datatype ParameterMeta = ParameterMeta(name: string, dtype: DType, shape: seq<nat>)

  /** A tensor is its metadata and its raw bytes. */
  datatype Tensor = Tensor(meta: ParameterMeta, bytes: seq<byte>)
  {
    predicate Valid() { |bytes| == NBytes(meta) }
  }

  const ALIGN_SIZE: nat := 256

  function Numel(shape: seq<nat>): (n: nat)
  {
    if shape == [] then 1 else shape[0] * Numel(shape[1..])
  }

  function NBytes(meta: ParameterMeta): (n: nat)
  {
    meta.dtype.itemsize * Numel(meta.shape)
  }

  /** A scalar takes the bytes of one element, and n tensors in a further dimension take n times those of one. */
  lemma BytesOfShape(meta: ParameterMeta, n: nat)
    ensures NBytes(meta.(shape := [])) == meta.dtype.itemsize
    ensures NBytes(meta.(shape := [n] + meta.shape)) == n * NBytes(meta)
  {
    var e, k := meta.dtype.itemsize, Numel(meta.shape);
    assert ([n] + meta.shape)[1..] == meta.shape;
    assert Numel([n] + meta.shape) == n * k;
    assert e * (n * k) == n * (e * k);
  }

  /** The least multiple of 256 that holds the tensor. */
  function AlignSize(meta: ParameterMeta): (size: nat)
    ensures NBytes(meta) <= size < NBytes(meta) + ALIGN_SIZE
  {
    (NBytes(meta) + ALIGN_SIZE - 1) / ALIGN_SIZE * ALIGN_SIZE
  }

  /** Bytes taken by consecutive aligned tensors. */
  function TotalSize(metas: seq<ParameterMeta>): (size: nat)
  {
    if metas == [] then 0 else AlignSize(metas[0]) + TotalSize(metas[1..])
  }

  lemma AlignSizeAligned(meta: ParameterMeta)
    ensures AlignSize(meta) % ALIGN_SIZE == 0
  {
  }

  /** Every offset that is a sum of aligned sizes is a multiple of 256. */
  lemma {:induction false} TotalSizeAligned(metas: seq<ParameterMeta>)
    ensures TotalSize(metas) % ALIGN_SIZE == 0
  {
    if metas != [] {
      TotalSizeAligned(metas[1..]);
      AlignSizeAligned(metas[0]);
      hide AlignSize;
    }
  }

  lemma {:induction false} TotalSizeConcat(a: seq<ParameterMeta>, b: seq<ParameterMeta>)
    ensures TotalSize(a + b) == TotalSize(a) + TotalSize(b)
  {
    if a == [] {
      assert a + b == b;
    } else {
      TotalSizeConcat(a[1..], b);
      assert (a + b)[1..] == a[1..] + b;
    }
  }

  lemma {:induction false} TotalSizeSnoc(metas: seq<ParameterMeta>, m: ParameterMeta)
    ensures TotalSize(metas + [m]) == TotalSize(metas) + AlignSize(m)
  {
    TotalSizeConcat(metas, [m]);
    assert [m][1..] == [];
    assert TotalSize([m]) == AlignSize(m);
  }

  /** Where the k-th of consecutive aligned tensors starts. */
  function Offset(metas: seq<ParameterMeta>, k: nat): (o: nat)
    requires k <= |metas|
  {
    TotalSize(metas[..k])
  }

  lemma {:induction false} OffsetStep(metas: seq<ParameterMeta>, k: nat)
    requires k < |metas|
    ensures Offset(metas, k + 1) == Offset(metas, k) + AlignSize(metas[k])
    ensures Offset(metas, k + 1) <= TotalSize(metas)
  {
    hide NBytes, AlignSize, TotalSize, Metas;
    assert metas[..k + 1] == metas[..k] + [metas[k]];
    TotalSizeSnoc(metas[..k], metas[k]);
    assert metas == metas[..k + 1] + metas[k + 1..];
    TotalSizeConcat(metas[..k + 1], metas[k + 1..]);
  }

  /** An earlier tensor ends before a later one starts. */
  lemma OffsetsDisjoint(metas: seq<ParameterMeta>, i: nat, k: nat)
    requires i < k <= |metas|
    ensures Offset(metas, i) + AlignSize(metas[i]) <= Offset(metas, k)
  {
    hide NBytes, AlignSize, TotalSize, Metas;
    OffsetStep(metas, i);
    assert metas[..k] == metas[..i + 1] + metas[i + 1..k];
    TotalSizeConcat(metas[..i + 1], metas[i + 1..k]);
  }

  function Metas(tensors: seq<Tensor>): (ms: seq<ParameterMeta>)
    ensures |ms| == |tensors|
    ensures forall k :: 0 <= k < |ms| ==> ms[k] == tensors[k].meta
  {
    seq(|tensors|, k requires 0 <= k < |tensors| => tensors[k].meta)
  }

  lemma MetasConcat(a: seq<Tensor>, b: seq<Tensor>)
    ensures Metas(a + b) == Metas(a) + Metas(b)
  {
  }

  /** The bytes of `t` stand at position `o` of `data`. */
  ghost predicate StandsAt(data: seq<byte>, o: nat, t: Tensor)
  {
    && t.Valid()
    && o + |t.bytes| <= |data|
    && data[o..o + |t.bytes|] == t.bytes
  }

  /** `data` holds the k-th tensor from its offset on; the padding after each tensor is arbitrary. */
  ghost predicate Holds(data: seq<byte>, tensors: seq<Tensor>)
  {
    && |data| == TotalSize(Metas(tensors))
    && forall k :: 0 <= k < |tensors| ==> StandsAt(data, Offset(Metas(tensors), k), tensors[k])
  }

  lemma StandsAtShift(pre: seq<byte>, data: seq<byte>, post: seq<byte>, o: nat, t: Tensor)
    requires StandsAt(data, o, t)
    ensures StandsAt(pre + data + post, |pre| + o, t)
  {
    assert (pre + data + post)[|pre| + o..|pre| + o + |t.bytes|] == data[o..o + |t.bytes|];
  }

  lemma HoldsConcat(d1: seq<byte>, t1: seq<Tensor>, d2: seq<byte>, t2: seq<Tensor>)
    requires Holds(d1, t1) && Holds(d2, t2)
    ensures Holds(d1 + d2, t1 + t2)
  {
    hide NBytes, AlignSize, TotalSize, Metas;
    MetasConcat(t1, t2);
    TotalSizeConcat(Metas(t1), Metas(t2));
    forall k | 0 <= k < |t1 + t2|
      ensures StandsAt(d1 + d2, Offset(Metas(t1 + t2), k), (t1 + t2)[k])
    {
      HoldsConcatAt(d1, t1, d2, t2, k);
    }
  }

  lemma HoldsConcatAt(d1: seq<byte>, t1: seq<Tensor>, d2: seq<byte>, t2: seq<Tensor>, k: nat)
    requires Holds(d1, t1) && Holds(d2, t2) && k < |t1 + t2|
    ensures StandsAt(d1 + d2, Offset(Metas(t1 + t2), k), (t1 + t2)[k])
  {
    hide NBytes, AlignSize, TotalSize, Metas;
    var m1, m2, ms := Metas(t1), Metas(t2), Metas(t1 + t2);
    MetasConcat(t1, t2);
    if k < |t1| {
      assert ms[..k] == m1[..k];
      StandsAtShift([], d1, d2, Offset(m1, k), t1[k]);
      assert [] + d1 + d2 == d1 + d2;
    } else {
      var i := k - |t1|;
      assert ms[..k] == m1 + m2[..i];
      TotalSizeConcat(m1, m2[..i]);
      StandsAtShift(d1, d2, [], Offset(m2, i), t2[i]);
      assert d1 + d2 + [] == d1 + d2;
    }
  }

  /** A run of consecutive tensors is held by the matching slice of the data. */
  lemma HoldsSlice(data: seq<byte>, tensors: seq<Tensor>, lo: nat, hi: nat)
    requires Holds(data, tensors) && lo <= hi <= |tensors|
    ensures Offset(Metas(tensors), lo) <= Offset(Metas(tensors), hi) <= |data|
    ensures Holds(data[Offset(Metas(tensors), lo)..Offset(Metas(tensors), hi)], tensors[lo..hi])
  {
    hide NBytes, AlignSize, TotalSize, Metas;
    var ms := Metas(tensors);
    var part := Metas(tensors[lo..hi]);
    assert part == ms[lo..hi];
    assert ms[..hi] == ms[..lo] + part;
    TotalSizeConcat(ms[..lo], part);
    assert ms == ms[..hi] + ms[hi..];
    TotalSizeConcat(ms[..hi], ms[hi..]);
    var a, b := Offset(ms, lo), Offset(ms, hi);
    forall k | 0 <= k < hi - lo
      ensures StandsAt(data[a..b], Offset(part, k), tensors[lo..hi][k])
    {
      assert ms[..lo + k] == ms[..lo] + part[..k];
      TotalSizeConcat(ms[..lo], part[..k]);
      OffsetStep(part, k);
      StandsAtSlice(data, a, b, Offset(part, k), tensors[lo + k]);
    }
  }

  lemma StandsAtSlice(data: seq<byte>, a: nat, b: nat, o: nat, t: Tensor)
    requires a <= b <= |data| && StandsAt(data, a + o, t) && o + |t.bytes| <= b - a
    ensures StandsAt(data[a..b], o, t)
  {
    var n := |t.bytes|;
    var x, y := data[a..b][o..o + n], data[a + o..a + o + n];
    assert forall i :: 0 <= i < n ==> x[i] == y[i];
  }
}
