/** Placing the weights of a checkpoint on pipeline and tensor-parallel ranks, as `reshard_weights` of persistent_ps.py
    does. */
module Resharding {
  import opened Sequences
  import opened QkvSharding
  import opened TensorParallel
  import opened ShardLayout
  import opened Packing

  // ----- Pipeline boundaries -----

  /** The layers of a pipeline rank, from start up to end. */
  datatype Span = Span(start: nat, end: nat)
  {
    predicate Has(layer: nat) { start <= layer < end }
  }

  function PpSpan(layers: nat, pp: nat, rank: nat): Span
    requires rank < pp
  {
    if pp == 1 || layers == 0 then Span(0, layers)
    else Span(Mul(rank, layers / pp), if rank < pp - 1 then Mul(rank + 1, layers / pp) else layers)
  }

  function PpBoundaries(layers: nat, pp: nat): (r: seq<Span>)
    ensures |r| == pp && forall k :: 0 <= k < pp ==> r[k] == PpSpan(layers, pp, k)
  {
    seq(pp, k requires 0 <= k < pp => PpSpan(layers, pp, k))
  }

  method ComputePpBoundaries(layers: nat, pp: nat) returns (boundaries: seq<Span>)
    requires pp > 0
    ensures boundaries == PpBoundaries(layers, pp)
  {
    if pp == 1 || layers == 0 {
      return seq(pp, k => Span(0, layers));
    }
    var perRank := layers / pp;
    boundaries := [];
    for rank := 0 to pp
      invariant |boundaries| == rank
      invariant forall k :: 0 <= k < rank ==> boundaries[k] == PpSpan(layers, pp, k)
    {
      var end := if rank < pp - 1 then Mul(rank + 1, perRank) else layers;
      boundaries := boundaries + [Span(Mul(rank, perRank), end)];
    }
  }

  /** The boundaries follow each other without gap or overlap, from layer 0 to the last. */
  lemma BoundariesTile(layers: nat, pp: nat)
    requires pp > 0
    ensures PpSpan(layers, pp, 0).start == 0 && PpSpan(layers, pp, pp - 1).end == layers
    ensures forall k :: 0 <= k < pp ==> PpSpan(layers, pp, k).start <= PpSpan(layers, pp, k).end
    ensures layers > 0 ==> forall k :: 0 <= k < pp - 1 ==> PpSpan(layers, pp, k).end == PpSpan(layers, pp, k + 1).start
  {
    DivMul(layers, pp);
    MulOne(layers / pp);
    MulAssoc(1, layers / pp, pp);
    MulOne(pp);
    hide Mul;
    forall k | 0 <= k < pp ensures PpSpan(layers, pp, k).start <= PpSpan(layers, pp, k).end {
      MulMono(k, k + 1, layers / pp);
      MulMono(k, pp, layers / pp);
    }
  }

  /** Later ranks start where earlier ones have ended. */
  lemma {:induction false} SpansOrdered(layers: nat, pp: nat, a: nat, b: nat)
    requires layers > 0 && a < b < pp
    ensures PpSpan(layers, pp, a).end <= PpSpan(layers, pp, b).start
    decreases b
  {
    BoundariesTile(layers, pp);
    if a < b - 1 {
      SpansOrdered(layers, pp, a, b - 1);
    }
  }

  /** The loop that looks for the rank of a layer; none for a layer past the last. */
  function OwnerFrom(layers: nat, pp: nat, layer: nat, k: nat): (r: Option<nat>)
    requires k <= pp
    ensures r.Some? ==> k <= r.value < pp && PpSpan(layers, pp, r.value).Has(layer)
    ensures r.None? ==> forall j :: k <= j < pp ==> !PpSpan(layers, pp, j).Has(layer)
    decreases pp - k
  {
    if k == pp then None
    else if PpSpan(layers, pp, k).Has(layer) then Some(k)
    else OwnerFrom(layers, pp, layer, k + 1)
  }

  lemma {:induction false} CoversUpTo(layers: nat, pp: nat, layer: nat, k: nat)
    requires k < pp && layer < PpSpan(layers, pp, k).end && layers > 0
    ensures exists j :: 0 <= j <= k && PpSpan(layers, pp, j).Has(layer)
  {
    BoundariesTile(layers, pp);
    if layer >= PpSpan(layers, pp, k).start {
      assert PpSpan(layers, pp, k).Has(layer);
    } else {
      CoversUpTo(layers, pp, layer, k - 1);
    }
  }

  /** Pipeline boundaries partition the layers: a layer number below the count is on exactly one rank, others
      on none. */
  lemma {:induction false} LayerOnOneRank(layers: nat, pp: nat, layer: nat)
    requires pp > 0
    ensures OwnerFrom(layers, pp, layer, 0).Some? <==> layer < layers
    ensures forall k :: 0 <= k < pp && PpSpan(layers, pp, k).Has(layer) ==> OwnerFrom(layers, pp, layer, 0) == Some(k)
  {
    if layer < layers {
      BoundariesTile(layers, pp);
      CoversUpTo(layers, pp, layer, pp - 1);
      var j :| 0 <= j < pp && PpSpan(layers, pp, j).Has(layer);
      forall k | 0 <= k < pp && PpSpan(layers, pp, k).Has(layer) ensures OwnerFrom(layers, pp, layer, 0) == Some(k) {
        var r := OwnerFrom(layers, pp, layer, 0).value;
        if r < k {
          SpansOrdered(layers, pp, r, k);
        } else if k < r {
          SpansOrdered(layers, pp, k, r);
        }
      }
    } else {
      forall k | 0 <= k < pp ensures !PpSpan(layers, pp, k).Has(layer) {
        BoundariesTile(layers, pp);
        if layers > 0 && k < pp - 1 {
          SpansOrdered(layers, pp, k, pp - 1);
        }
      }
    }
  }

  /** The layers are dealt out in equal numbers; what does not divide is left to the last rank. Without pipeline ranks,
      and without layers, every rank has all there is. */
  lemma SpanSizes(layers: nat, pp: nat, rank: nat)
    requires rank < pp
    ensures var s := PpSpan(layers, pp, rank);
            && s.start <= s.end
            && s.end - s.start == if rank < pp - 1 then layers / pp else layers - (pp - 1) * (layers / pp)
  {
    DivMul(layers, pp);
    Dist(rank, 1, layers / pp);
    MulOne(layers / pp);
    BoundariesTile(layers, pp);
    assert layers == 0 ==> layers / pp == 0;
  }

  // ----- Placement -----

  datatype Layout = Layout(heads: Heads, layers: nat, tp: nat, pp: nat)
  {
    predicate Valid() { tp > 0 && pp > 0 }
  }

  /** Whether a weight goes to a pipeline rank; without parallelism everything stays on the one rank. */
  predicate OnRank(l: Layout, n: Name, rank: nat)
    requires rank < l.pp
  {
    n.layer.None? || (l.tp == 1 && l.pp == 1) || OwnerFrom(l.layers, l.pp, n.layer.value.1, 0) == Some(rank)
  }

  /** Every weight that is placed has a shard for every tensor-parallel rank. */
  predicate Shardable(l: Layout, w: Weights)
    requires l.Valid()
  {
    forall n :: n in w && (exists rank :: 0 <= rank < l.pp && OnRank(l, n, rank)) ==>
      Sharded(l.heads, l.tp, n.kind, w[n])
  }

  function Shard(l: Layout, n: Name, t: Tensor, tpRank: nat): Tensor
    requires l.Valid() && tpRank < l.tp && Sharded(l.heads, l.tp, n.kind, t)
  {
    ShardForTp(l.heads, l.tp, n.kind, t).value[tpRank]
  }

  /** The weights of one rank pair. */
  function Placed(l: Layout, w: Weights, rank: nat, tpRank: nat): (r: Weights)
    requires l.Valid() && rank < l.pp && tpRank < l.tp && Shardable(l, w)
  {
    map n | n in w && OnRank(l, n, rank) :: Shard(l, n, w[n], tpRank)
  }

  /** Packs, then gives every weight's shards to the ranks that need it; a weight that cannot be sharded is an error. */
  method ReshardWeights(l: Layout, w: Weights) returns (ok: bool, shards: map<(nat, nat), Weights>)
    requires l.Valid()
    ensures var p := Packed(w, Layers(w));
            && ok == Shardable(l, p)
            && (ok ==> shards.Keys == RankPairs(l))
            && (ok ==> forall rank, tpRank :: (rank, tpRank) in shards ==>
                 shards[(rank, tpRank)] == Placed(l, p, rank, tpRank))
  {
    var dict := new TensorDict(w);
    dict.PackLayers();
    ok, shards := PlaceAll(l, dict.tensors);
  }

  method PlaceAll(l: Layout, p: Weights) returns (ok: bool, shards: map<(nat, nat), Weights>)
    requires l.Valid()
    ensures ok == Shardable(l, p)
    ensures ok ==> shards.Keys == RankPairs(l)
    ensures ok ==> forall rank, tpRank :: (rank, tpRank) in shards ==>
              shards[(rank, tpRank)] == Placed(l, p, rank, tpRank)
  {
    shards := map r | r in RankPairs(l) :: map[];
    var todo := p.Keys;
    ghost var done: set<Name> := {};
    NothingPlaced(l, p, shards);
    hide Filled, OnRank, Sharded;
    while todo != {}
      invariant done + todo == p.Keys && done !! todo && Filled(l, p, done, shards)
      decreases todo
    {
      var n :| n in todo;
      if (exists rank :: 0 <= rank < l.pp && OnRank(l, n, rank)) && !Sharded(l.heads, l.tp, n.kind, p[n]) {
        ok := false;
        NotShardable(l, p, n);
        return;
      }
      FilledNext(l, p, done, shards, n);
      shards := map r | r in RankPairs(l) :: PlaceOne(l, shards[r], n, p[n], r.0, r.1);
      todo, done := todo - {n}, done + {n};
    }
    FilledAll(l, p, shards);
    ok := true;
  }

  /** The dictionaries of the ranks once the weights of `done` have been handled. */
  ghost predicate Filled(l: Layout, p: Weights, done: set<Name>, shards: map<(nat, nat), Weights>)
    requires l.Valid()
    ensures Filled(l, p, done, shards) ==> shards.Keys == RankPairs(l)
  {
    && shards.Keys == RankPairs(l) && Shardable(l, Only(p, done))
    && forall rank, tpRank :: (rank, tpRank) in shards ==>
         shards[(rank, tpRank)] == Placed(l, Only(p, done), rank, tpRank)
  }

  lemma NothingPlaced(l: Layout, p: Weights, shards: map<(nat, nat), Weights>)
    requires l.Valid() && shards == map r | r in RankPairs(l) :: map[]
    ensures Filled(l, p, {}, shards)
  {
  }

  lemma FilledNext(l: Layout, p: Weights, done: set<Name>, shards: map<(nat, nat), Weights>, n: Name)
    requires l.Valid() && Filled(l, p, done, shards) && n in p && n !in done
    requires (exists rank :: 0 <= rank < l.pp && OnRank(l, n, rank)) ==> Sharded(l.heads, l.tp, n.kind, p[n])
    ensures Filled(l, p, done + {n}, map r | r in RankPairs(l) :: PlaceOne(l, shards[r], n, p[n], r.0, r.1))
  {
    var before := Only(p, done);
    assert before[n := p[n]] == Only(p, done + {n});
    ShardableMore(l, before, n, p[n]);
    hide Shardable, Placed, PlaceOne, OnRank, Sharded;
  }

  lemma FilledAll(l: Layout, p: Weights, shards: map<(nat, nat), Weights>)
    requires l.Valid() && Filled(l, p, p.Keys, shards)
    ensures Shardable(l, p)
    ensures forall rank, tpRank :: (rank, tpRank) in shards ==> shards[(rank, tpRank)] == Placed(l, p, rank, tpRank)
  {
    assert Only(p, p.Keys) == p;
    hide Placed, Shardable;
  }

  function RankPairs(l: Layout): set<(nat, nat)>
  {
    set rank, tpRank | 0 <= rank < l.pp && 0 <= tpRank < l.tp :: (rank, tpRank)
  }

  function Only(w: Weights, names: set<Name>): Weights
  {
    map n | n in w && n in names :: w[n]
  }

  /** A rank's dictionary once one more weight has been handled. */
  function PlaceOne(l: Layout, placed: Weights, n: Name, t: Tensor, rank: nat, tpRank: nat): Weights
    requires l.Valid() && rank < l.pp && tpRank < l.tp && (OnRank(l, n, rank) ==> Sharded(l.heads, l.tp, n.kind, t))
  {
    if OnRank(l, n, rank) then placed[n := Shard(l, n, t, tpRank)] else placed
  }

  lemma NotShardable(l: Layout, p: Weights, n: Name)
    requires l.Valid() && n in p && (exists rank :: 0 <= rank < l.pp && OnRank(l, n, rank))
    requires !Sharded(l.heads, l.tp, n.kind, p[n])
    ensures !Shardable(l, p)
  {
  }

  lemma ShardableMore(l: Layout, w: Weights, n: Name, t: Tensor)
    requires l.Valid() && Shardable(l, w) && n !in w
    requires (exists rank :: 0 <= rank < l.pp && OnRank(l, n, rank)) ==> Sharded(l.heads, l.tp, n.kind, t)
    ensures Shardable(l, w[n := t])
    ensures forall rank, tpRank :: 0 <= rank < l.pp && 0 <= tpRank < l.tp ==>
              Placed(l, w[n := t], rank, tpRank) == PlaceOne(l, Placed(l, w, rank, tpRank), n, t, rank, tpRank)
  {
    hide OnRank, Sharded, ShardForTp;
  }

  // ----- What placement keeps -----

  /** A layer's weight is on exactly one pipeline rank if its number is below the layer count, and nowhere otherwise;
      any other weight is on all of them. */
  lemma PlacedWhere(l: Layout, w: Weights, n: Name, rank: nat, tpRank: nat)
    requires l.Valid() && rank < l.pp && tpRank < l.tp && Shardable(l, w) && n in w && (l.tp > 1 || l.pp > 1)
    ensures n in Placed(l, w, rank, tpRank)
       <==> n.layer.None? || PpSpan(l.layers, l.pp, rank).Has(n.layer.value.1)
    ensures n.layer.Some? && n.layer.value.1 >= l.layers ==> n !in Placed(l, w, rank, tpRank)
  {
    if n.layer.Some? {
      LayerOnOneRank(l.layers, l.pp, n.layer.value.1);
    }
  }

  /** Every rank pair holds its own part of each weight that is placed there. */
  lemma PlacedHolds(l: Layout, w: Weights, n: Name, rank: nat, tpRank: nat)
    requires l.Valid() && rank < l.pp && tpRank < l.tp && Shardable(l, w)
    requires n in Placed(l, w, rank, tpRank) && w[n].Valid()
    ensures RankHolds(l.heads, l.tp, n.kind, w[n], tpRank, Placed(l, w, rank, tpRank)[n])
  {
    hide ShardForTp, RankHolds;
    ShardHeld(l.heads, l.tp, n.kind, w[n], tpRank);
  }

  /** The first pipeline rank that holds a weight. */
  function HomeRank(l: Layout, n: Name): (rank: nat)
    requires l.Valid()
    ensures rank < l.pp
  {
    if n.layer.None? || (l.tp == 1 && l.pp == 1) then 0
    else
      match OwnerFrom(l.layers, l.pp, n.layer.value.1, 0)
      case Some(k) => k
      case None => 0
  }

  /** The shards of a weight on its home rank, put together; none if the weight is not there. */
  function Regathered(l: Layout, shards: map<(nat, nat), Weights>, n: Name, rows: nat, cols: nat): Option<Tensor>
    requires l.Valid() && shards.Keys == RankPairs(l)
  {
    if forall b :: 0 <= b < l.tp ==> (HomeRank(l, n), b) in shards && n in shards[(HomeRank(l, n), b)] then
      Some(UnshardForTp(l.heads, l.tp, n.kind, rows, cols,
             seq(l.tp, b requires 0 <= b < l.tp => shards[(HomeRank(l, n), b)][n])))
    else None
  }

  /** What the shards of a checkpoint must divide into for nothing to be lost. */
  ghost predicate Divides(l: Layout, w: Weights)
    requires l.Valid()
  {
    forall n :: n in w ==>
      && w[n].Valid() && HalvesDivide(l.tp, n.kind, w[n])
      && ((l.tp > 1 || l.pp > 1) && n.layer.Some? ==> n.layer.value.1 < l.layers)
  }

  /** The shards of all ranks together hold every packed weight. */
  lemma PlacementRoundTrip(l: Layout, w: Weights, shards: map<(nat, nat), Weights>, n: Name)
    requires l.Valid() && Shardable(l, w) && Divides(l, w) && shards.Keys == RankPairs(l)
    requires forall rank, tpRank :: (rank, tpRank) in shards ==> shards[(rank, tpRank)] == Placed(l, w, rank, tpRank)
    ensures n in w ==> Regathered(l, shards, n, |w[n].rows|, w[n].cols) == Some(w[n])
    ensures n !in w ==> forall r :: r in shards ==> n !in shards[r]
  {
    hide Sharded, ShardForTp, UnshardForTp, HalvesDivide;
    if n in w {
      var home, t := HomeRank(l, n), w[n];
      if n.layer.Some? && (l.tp > 1 || l.pp > 1) {
        LayerOnOneRank(l.layers, l.pp, n.layer.value.1);
      }
      assert OnRank(l, n, home);
      forall b | 0 <= b < l.tp
        ensures (home, b) in shards && n in shards[(home, b)] && shards[(home, b)][n] == Shard(l, n, t, b)
      {
        assert (home, b) in RankPairs(l);
      }
      RegatheredIs(l, shards, n, t);
    }
  }

  lemma RegatheredIs(l: Layout, shards: map<(nat, nat), Weights>, n: Name, t: Tensor)
    requires l.Valid() && shards.Keys == RankPairs(l) && t.Valid()
    requires Sharded(l.heads, l.tp, n.kind, t) && HalvesDivide(l.tp, n.kind, t)
    requires forall b :: 0 <= b < l.tp ==>
               (HomeRank(l, n), b) in shards && n in shards[(HomeRank(l, n), b)]
               && shards[(HomeRank(l, n), b)][n] == Shard(l, n, t, b)
    ensures Regathered(l, shards, n, |t.rows|, t.cols) == Some(t)
  {
    hide HomeRank, UnshardForTp, ShardForTp, HalvesDivide;
    var pieces := seq(l.tp, b requires 0 <= b < l.tp => shards[(HomeRank(l, n), b)][n]);
    assert pieces == ShardForTp(l.heads, l.tp, n.kind, t).value;
    TpRoundTripIff(l.heads, l.tp, n.kind, t);
  }

  /** The whole way: pack, shard and place an unfused checkpoint, gather and join the shards of each packed weight,
      unpack: every original weight comes back under its own name, and no other. */
  lemma ReshardRoundTrip(l: Layout, w: Weights, shards: map<(nat, nat), Weights>, gathered: Weights, n: Name)
    requires l.Valid() && Unfused(l.heads, w)
    requires Shardable(l, Packed(w, Layers(w))) && Divides(l, Packed(w, Layers(w))) && shards.Keys == RankPairs(l)
    requires forall rank, tpRank :: (rank, tpRank) in shards ==>
               shards[(rank, tpRank)] == Placed(l, Packed(w, Layers(w)), rank, tpRank)
    requires gathered.Keys == Packed(w, Layers(w)).Keys
    requires forall m :: m in gathered ==>
               Some(gathered[m])
               == Regathered(l, shards, m, |Packed(w, Layers(w))[m].rows|, Packed(w, Layers(w))[m].cols)
    ensures UnpackedAt(l.heads, gathered, n) == if n in w then Some(w[n]) else None
  {
    var p := Packed(w, Layers(w));
    hide Packed, Unfused, Regathered, Divides, Shardable, Placed, UnpackedAt;
    forall m | m in p ensures gathered[m] == p[m] {
      PlacementRoundTrip(l, p, shards, m);
    }
    assert gathered == p;
    PackUnpack(l.heads, w, n);
  }
}
