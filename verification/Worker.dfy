/** Re-extraction of named tensors from the shared buffer (checkpoint_engine/worker.py). */
module Worker {
  import opened Sequences
  import opened Tensors
  import opened ParameterServer

  ghost predicate InBuffer(payload: seq<NamedTensor>, buffer: seq<byte>)
  {
    forall item :: item in payload ==> item.offset + NBytes(item.meta) <= |buffer|
  }

  /** What the worker reads out of the buffer for one payload message. */
  function Extracted(payload: seq<NamedTensor>, buffer: seq<byte>): (weights: seq<Tensor>)
    requires InBuffer(payload, buffer)
    ensures |weights| == |payload|
  {
    seq(|payload|, k requires 0 <= k < |payload| =>
        Tensor(payload[k].meta, buffer[payload[k].offset..payload[k].offset + NBytes(payload[k].meta)]))
  }

  method ExtractWeights(payload: seq<NamedTensor>, buffer: seq<byte>) returns (weights: seq<Tensor>)
    requires InBuffer(payload, buffer)
    ensures weights == Extracted(payload, buffer)
  {
    weights := [];
    for i := 0 to |payload|
      invariant |weights| == i
      invariant forall k :: 0 <= k < i ==>
        weights[k] == Tensor(payload[k].meta, buffer[payload[k].offset..payload[k].offset + NBytes(payload[k].meta)])
    {
      var item := payload[i];
      var size := NBytes(item.meta);
      weights := weights + [Tensor(item.meta, buffer[item.offset..item.offset + size])];
    }
  }

  /** Naming and extraction are inverse: whatever stands around it, a block of the buffer that holds some tensors gives
      back exactly those tensors, with their names, types, shapes and bytes. */
  lemma ExtractNamed(data: seq<byte>, tensors: seq<Tensor>, buffer: seq<byte>, at: nat)
    requires Holds(data, tensors)
    requires at + |data| <= |buffer| && buffer[at..at + |data|] == data
    ensures InBuffer(Named(Metas(tensors), at), buffer)
    ensures Extracted(Named(Metas(tensors), at), buffer) == tensors
  {
    var ms := Metas(tensors);
    hide TotalSize, NBytes;
    forall k | 0 <= k < |tensors|
      ensures at + Offset(ms, k) + |tensors[k].bytes| <= |buffer|
      ensures buffer[at + Offset(ms, k)..at + Offset(ms, k) + |tensors[k].bytes|] == tensors[k].bytes
    {
      assert StandsAt(data, Offset(ms, k), tensors[k]);
      SliceOfSlice(buffer, at, |data|, Offset(ms, k), |tensors[k].bytes|);
    }
    TensorsValid(data, tensors);
    assert forall item :: item in Named(ms, at) ==> item.offset + NBytes(item.meta) <= |buffer|;
    assert forall k :: 0 <= k < |tensors| ==> Extracted(Named(ms, at), buffer)[k] == tensors[k];
  }

  /** Any bytes of the right size are tensors of the named types and shapes, laid out by their offsets. */
  lemma {:induction false} AnyBytesHold(metas: seq<ParameterMeta>, data: seq<byte>)
    requires |data| == TotalSize(metas)
    ensures InBuffer(Named(metas, 0), data)
    ensures var ts := Extracted(Named(metas, 0), data); Metas(ts) == metas && Holds(data, ts)
  {
    hide TotalSize, NBytes, AlignSize;
    var named := Named(metas, 0);
    forall k | 0 <= k < |metas| ensures Offset(metas, k) + NBytes(metas[k]) <= |data| {
      hide *;
      ItemInside(metas, k);
    }
    assert forall k :: 0 <= k < |named| ==> named[k].offset + NBytes(named[k].meta) <= |data|;
    assert InBuffer(named, data);
    var ts := Extracted(named, data);
    assert Metas(ts) == metas;
    forall k | 0 <= k < |ts| ensures StandsAt(data, Offset(metas, k), ts[k]) {
    }
  }

  lemma {:induction false} ItemInside(metas: seq<ParameterMeta>, k: nat)
    requires k < |metas|
    ensures Offset(metas, k) + NBytes(metas[k]) <= TotalSize(metas)
  {
    OffsetStep(metas, k);
    hide TotalSize;
  }

  lemma TensorsValid(data: seq<byte>, tensors: seq<Tensor>)
    requires Holds(data, tensors)
    ensures forall k :: 0 <= k < |tensors| ==> |tensors[k].bytes| == NBytes(Metas(tensors)[k])
  {
    forall k | 0 <= k < |tensors| ensures |tensors[k].bytes| == NBytes(Metas(tensors)[k]) {
      assert StandsAt(data, Offset(Metas(tensors), k), tensors[k]);
    }
  }

  lemma SliceOfSlice(buffer: seq<byte>, at: nat, size: nat, o: nat, n: nat)
    requires at + size <= |buffer| && o + n <= size
    ensures buffer[at + o..at + o + n] == buffer[at..at + size][o..o + n]
  {
    var x, y := buffer[at + o..at + o + n], buffer[at..at + size][o..o + n];
    assert forall i :: 0 <= i < n ==> x[i] == y[i];
  }
}
