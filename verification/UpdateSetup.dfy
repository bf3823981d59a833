/** Setting an update up (checkpoint_engine/ps.py): every rank registers its parameters, the metadata is gathered, the
    bucket size is detected, every owner is cut into buckets, and buckets get receivers and ranks. */
module UpdateSetup {
  import opened Sequences
  import opened Tensors
  import opened ParameterServer
  import opened BucketSchedule
  import opened Delivery
  import opened DeliveryExact

  // ----- Registering -----

  /** A rank and the parameters it registers. */
  datatype Shard = Shard(rank: nat, params: seq<Tensor>)

  ghost predicate ValidShards(shards: seq<Shard>)
  {
    && (forall i, t :: 0 <= i < |shards| && t in shards[i].params ==> t.Valid())
    && (forall i, j :: 0 <= i < j < |shards| ==> shards[i].rank != shards[j].rank)
  }

  /** The ranks that register anything: the others do not appear in the gathered metadata. */
  function Kept(shards: seq<Shard>): (kept: seq<Shard>)
    ensures forall k :: 0 <= k < |kept| ==> kept[k] in shards && kept[k].params != []
    ensures forall s :: s in shards && s.params != [] ==> s in kept
  {
    if shards == [] then []
    else
      var init, last := Kept(shards[..|shards| - 1]), shards[|shards| - 1];
      if last.params == [] then init else init + [last]
  }

  lemma {:induction false} KeptDistinct(shards: seq<Shard>)
    requires forall i, j :: 0 <= i < j < |shards| ==> shards[i].rank != shards[j].rank
    ensures forall i, j :: 0 <= i < j < |Kept(shards)| ==> Kept(shards)[i].rank != Kept(shards)[j].rank
  {
    if shards != [] {
      KeptDistinct(shards[..|shards| - 1]);
    }
  }

  function AllParams(shards: seq<Shard>): seq<Tensor>
  {
    if shards == [] then [] else AllParams(shards[..|shards| - 1]) + shards[|shards| - 1].params
  }

  lemma {:induction false} KeptParams(shards: seq<Shard>)
    ensures AllParams(Kept(shards)) == AllParams(shards)
  {
    if shards != [] {
      var init, last := shards[..|shards| - 1], shards[|shards| - 1];
      KeptParams(init);
      assert (Kept(init) + [last])[..|Kept(init)|] == Kept(init);
    }
  }

  /** The owners registered exactly the parameters of the given shards. */
  ghost predicate OwnersOf(owners: seq<Owner>, shards: seq<Shard>)
  {
    |owners| == |shards| && forall k :: 0 <= k < |owners| ==>
      owners[k].rank == shards[k].rank && owners[k].params == shards[k].params && RegisteredOwner(owners[k])
  }

  lemma {:induction false} OwnersRegistered(owners: seq<Owner>, shards: seq<Shard>)
    requires OwnersOf(owners, shards)
    ensures Delivery.Registered(owners) == AllParams(shards)
  {
    hide RegisteredOwner;
    if owners != [] {
      OwnersRegistered(owners[..|owners| - 1], shards[..|shards| - 1]);
    }
  }

  lemma OwnersSnoc(owners: seq<Owner>, shards: seq<Shard>, o: Owner, s: Shard)
    requires OwnersOf(owners, shards) && o.rank == s.rank && o.params == s.params && RegisteredOwner(o)
    ensures OwnersOf(owners + [o], shards + [s])
  {
    hide RegisteredOwner;
  }

  method RegisterShards(shards: seq<Shard>) returns (owners: seq<Owner>)
    requires ValidShards(shards)
    ensures OwnersOf(owners, Kept(shards)) && DistinctRanks(owners) && Delivery.Registered(owners) == AllParams(shards)
  {
    owners := [];
    for i := 0 to |shards|
      invariant OwnersOf(owners, Kept(shards[..i]))
    {
      hide RegisteredOwner, Flatten, TotalSize, Holds, OwnersOf;
      var pool := RegisterCheckpoint(shards[i].params);
      assert shards[..i + 1][..i] == shards[..i];
      if pool != [] {
        assert RegisteredOwner(Owner(shards[i].rank, pool, shards[i].params)) by {
          PoolRegistered(shards[i].rank, pool, shards[i].params);
        }
        OwnersSnoc(owners, Kept(shards[..i]), Owner(shards[i].rank, pool, shards[i].params), shards[i]);
        owners := owners + [Owner(shards[i].rank, pool, shards[i].params)];
      }
    }
    assert shards[..|shards|] == shards;
    KeptDistinct(shards);
    KeptParams(shards);
    OwnersRegistered(owners, Kept(shards));
  }

  lemma PoolRegistered(rank: nat, pool: seq<MemoryBuffer>, params: seq<Tensor>)
    requires forall k :: 0 <= k < |pool| ==> |pool[k].buffer| == TotalSize(pool[k].metas)
    requires Flatten(MetaLists(pool)) == Metas(params) && Holds(Stream(Buffers(pool)), params)
    ensures RegisteredOwner(Owner(rank, pool, params))
  {
  }

  // ----- Planning -----

  predicate OwnedByOne(owners: seq<Owner>, n: nat, o: Owned)
    requires n <= |owners|
  {
    exists k :: 0 <= k < n && o.owner == owners[k].rank
  }

  lemma {:induction false} TaggedOwners(owners: seq<Owner>, cuts: seq<seq<H2DBucket>>, n: nat)
    requires n <= |owners| && |cuts| == n
    ensures forall i :: 0 <= i < |Tagged(Gathered(owners[..n]), cuts)| ==>
              OwnedByOne(owners, n, Tagged(Gathered(owners[..n]), cuts)[i])
  {
    if n == 0 {
      assert Gathered(owners[..n]) == [];
    } else {
      TaggedOwners(owners, cuts[..n - 1], n - 1);
      assert Gathered(owners[..n])[..n - 1] == Gathered(owners[..n - 1]);
      var all, init := Tagged(Gathered(owners[..n]), cuts), Tagged(Gathered(owners[..n - 1]), cuts[..n - 1]);
      assert Gathered(owners[..n])[n - 1].rank == owners[n - 1].rank;
      assert all == init + Tag(owners[n - 1].rank, cuts[n - 1]);
      forall i | 0 <= i < |all| ensures OwnedByOne(owners, n, all[i]) {
        if i < |init| {
          assert OwnedByOne(owners, n - 1, init[i]);
        } else {
          assert all[i].owner == owners[n - 1].rank;
        }
      }
    }
  }

  /** Every bucket belongs to one of the owners. */
  lemma BucketOwners(owners: seq<Owner>, bucketSize: nat, buckets: seq<Owned>, cuts: seq<seq<H2DBucket>>)
    requires CutOwners(Gathered(owners), bucketSize, buckets, cuts)
    ensures forall i :: 0 <= i < |buckets| ==> OwnedByOne(owners, |owners|, buckets[i])
  {
    hide IsCut, TotalSize, Flatten;
    assert owners[..|owners|] == owners;
    TaggedOwners(owners, cuts, |owners|);
  }

  /** The processes of the update are those that registered, as after gathering the metadata themselves. */
  ghost predicate HoldsOwn(owners: seq<Owner>, local: map<nat, Memory>)
  {
    forall k :: 0 <= k < |owners| ==> owners[k].rank in local && local[owners[k].rank] == OfOwner(owners[k].rank)
  }

  /** The receivers and the rank map of either mode make a schedule, and unless a peer-to-peer update goes without the
      staging buffer every bucket is copied from its owner. */
  lemma {:induction false} IsScheduled(u: Update, entries: seq<Entry>, buckets: seq<Owned>, cuts: seq<seq<H2DBucket>>,
                                       worldSize: nat, ranks: seq<nat>)
    requires worldSize > 0 && DistinctRanks(u.owners) && u.p2p == (ranks != [])
    requires forall k :: 0 <= k < |u.owners| ==> RegisteredOwner(u.owners[k])
    requires CutOwners(Gathered(u.owners), u.bucketSize, buckets, cuts)
             && multiset(OwnedOf(entries)) == multiset(buckets)
    requires ranks == [] ==> u.n == worldSize && u.index == IdentityMap(worldSize)
    requires ranks == [] ==> forall k :: 0 <= k < |u.owners| ==> u.owners[k].rank < worldSize
    requires ranks != [] ==> u.n == |ranks| && u.index == LastIndexMap(ranks)
    requires ranks == [] ==> forall i :: 0 <= i < |entries| ==> entries[i].receiver == entries[i].owned.owner
    requires ranks != [] ==> forall i :: 0 <= i < |entries| ==> entries[i].receiver in ranks
    ensures u.Scheduled(entries, buckets, cuts)
    ensures (if ranks == [] then HoldsOwn(u.owners, u.local) else u.h2d) ==> u.FromOwners(entries)
  {
    BucketOwners(u.owners, u.bucketSize, buckets, cuts);
    hide CutOwners, RegisteredOwner, IdentityMap, LastIndexMap;
    forall i | 0 <= i < |entries|
      ensures entries[i].receiver in u.index
      ensures (if ranks == [] then HoldsOwn(u.owners, u.local) else u.h2d) ==>
                u.Source(entries[i]) == OfOwner(entries[i].owned.owner)
    {
      assert entries[i] in entries;
      var j := EntryBucket(entries, buckets, entries[i]);
      assert OwnedByOne(u.owners, |u.owners|, buckets[j]);
    }
  }

  /** A rank's place in the process group: its own number, or its last place among the requested ranks. */
  function RankIndex(worldSize: nat, ranks: seq<nat>): map<nat, nat>
  {
    if ranks == [] then IdentityMap(worldSize) else LastIndexMap(ranks)
  }

  /** Cuts the gathered owners, assigns receivers and maps ranks. It fails exactly on an owner without bytes. */
  method PlanUpdate(owners: seq<Owner>, bucketSize: nat, worldSize: nat, ranks: seq<nat>, h2d: bool,
                    localTopo: seq<set<nat>>, deviceOf: map<nat, nat>, local: map<nat, Memory>)
    returns (ok: bool, u: Update, entries: seq<Entry>, ghost buckets: seq<Owned>, ghost cuts: seq<seq<H2DBucket>>,
             ghost rounds: seq<seq<Entry>>)
    requires worldSize > 0 && DistinctRanks(owners)
    requires forall k :: 0 <= k < |owners| ==>
               RegisteredOwner(owners[k]) && TensorsFit(MetaLists(owners[k].pool), bucketSize)
    requires ranks == [] ==> forall k :: 0 <= k < |owners| ==> owners[k].rank < worldSize
    requires ranks != [] ==>
               && ActualTopo(localTopo, set r | r in ranks) != []
               && (forall k :: 0 <= k < |owners| ==> owners[k].rank in deviceOf)
    ensures ok ==> u.Scheduled(entries, buckets, cuts)
    ensures ok && (if ranks == [] then HoldsOwn(owners, local) else h2d) ==> u.FromOwners(entries)
    ensures ok ==>
      u == Update(owners, bucketSize, RankIndex(worldSize, ranks), if ranks == [] then worldSize else |ranks|,
                  ranks != [], h2d, local)
    ensures ok ==> Received(entries, rounds, buckets, ranks, localTopo, deviceOf)
    ensures !ok <==> exists k :: 0 <= k < |owners| && TotalSize(Metas(owners[k].params)) == 0
  {
    hide TotalSize, Flatten, RegisteredOwner, TensorsFit, CutOwners, Update.Scheduled, Update.FromOwners;
    var metas := Gathered(owners);
    assert forall k :: 0 <= k < |owners| ==> metas[k].bufs == MetaLists(owners[k].pool);
    OwnerSizes(owners);
    var all;
    ok, all, cuts := GenH2dBuckets(metas, bucketSize);
    buckets, entries, rounds := all, [], [];
    var index := GetBcastRankMap(worldSize, ranks);
    u := Update(owners, bucketSize, index, if ranks == [] then worldSize else |ranks|, ranks != [], h2d, local);
    if ok {
      EveryOwnerHasBytes(owners, bucketSize, buckets, cuts);
      BucketOwners(owners, bucketSize, buckets, cuts);
      assert forall i :: 0 <= i < |all| ==> OwnedByOne(owners, |owners|, all[i]);
      entries, rounds := PlanReceivers(all, ranks, localTopo, deviceOf);
      IsScheduled(u, entries, buckets, cuts, worldSize, ranks);
    } else {
      var k :| 0 <= k < |metas| && TotalSize(Flatten(metas[k].bufs)) == 0;
      assert TotalSize(Metas(owners[k].params)) == 0;
    }
  }

  lemma OwnerSizes(owners: seq<Owner>)
    requires forall k :: 0 <= k < |owners| ==> RegisteredOwner(owners[k])
    ensures forall k :: 0 <= k < |owners| ==> Flatten(MetaLists(owners[k].pool)) == Metas(owners[k].params)
  {
    hide Flatten, Holds, TotalSize;
    forall k | 0 <= k < |owners| ensures Flatten(MetaLists(owners[k].pool)) == Metas(owners[k].params) {
      assert RegisteredOwner(owners[k]);
    }
  }

  lemma EveryOwnerHasBytes(owners: seq<Owner>, bucketSize: nat, buckets: seq<Owned>, cuts: seq<seq<H2DBucket>>)
    requires CutOwners(Gathered(owners), bucketSize, buckets, cuts)
    ensures forall k :: 0 <= k < |owners| ==> TotalSize(Flatten(MetaLists(owners[k].pool))) > 0
  {
    hide IsCut, TotalSize, Flatten, Tagged;
    forall k | 0 <= k < |owners| ensures TotalSize(Flatten(MetaLists(owners[k].pool))) > 0 {
      assert Gathered(owners)[k].bufs == MetaLists(owners[k].pool);
    }
  }

  // ----- The whole preparation -----

  /** Why an update is refused: nothing was registered, the largest tensor does not fit twice into the free memory, or
      an owner registered no bytes at all. */
  datatype Outcome = Ready | NothingRegistered | TooLittleMemory | EmptyOwner

  lemma {:induction false} GatheredMetas(owners: seq<Owner>)
    requires forall k :: 0 <= k < |owners| ==> Flatten(MetaLists(owners[k].pool)) == Metas(owners[k].params)
    ensures AllMetas(Gathered(owners)) == Metas(Delivery.Registered(owners))
  {
    hide Flatten, MetaLists;
    if owners != [] {
      var n := |owners| - 1;
      GatheredMetas(owners[..n]);
      assert Gathered(owners)[..n] == Gathered(owners[..n]);
      MetasConcat(Delivery.Registered(owners[..n]), owners[n].params);
    } else {
      assert Gathered(owners) == [];
    }
  }

  lemma {:induction false} NoParams(shards: seq<Shard>)
    ensures AllParams(shards) == [] <==> Kept(shards) == []
  {
    if shards != [] {
      NoParams(shards[..|shards| - 1]);
    }
  }

  /** The bucket size for registered owners: every owner's tensors fit in it. */
  method SizeBuckets(owners: seq<Owner>, freeBytes: nat, maxGiB: int, disableH2d: bool) returns (size: BucketSize)
    requires forall k :: 0 <= k < |owners| ==> RegisteredOwner(owners[k])
    ensures var largest := MaxAligned(Metas(Delivery.Registered(owners)));
            && (size.TooLarge? <==> 2 * largest > freeBytes)
            && (size.BucketSize? ==>
                  && (size.h2d <==> !disableH2d && 3 * largest <= freeBytes)
                  && GreatestAllowed(size.size, size.h2d, freeBytes, maxGiB, largest)
                  && (if size.h2d then 3 else 2) * size.size <= freeBytes
                  && forall k :: 0 <= k < |owners| ==> TensorsFit(MetaLists(owners[k].pool), size.size))
  {
    hide TotalSize, Flatten, RegisteredOwner, MaxAligned, DetectBucketSize, TensorsFit, AlignSize, GreatestAllowed;
    OwnerSizes(owners);
    GatheredMetas(owners);
    var largest := LargestTensor(Gathered(owners));
    MaxAlignedIsAligned(Metas(Delivery.Registered(owners)));
    size := DetectBucketSize(freeBytes, largest, maxGiB, disableH2d);
    if size.BucketSize? {
      forall k | 0 <= k < |owners| ensures TensorsFit(MetaLists(owners[k].pool), size.size) {
        DetectedFits(Gathered(owners), freeBytes, maxGiB, disableH2d, k);
      }
    }
  }

  /** From the parameters of every rank to an update: registered, gathered, sized and planned. It is refused exactly for
      the reasons given. With R the registered tensors, the update uses the staging buffer exactly if a third of the
      free memory holds the largest of R and it is not disabled; and it delivers R, whatever bytes there are, exactly
      if it is peer-to-peer with that buffer or every bucket goes to the process that holds its owner's memory. */
  method PrepareUpdate(shards: seq<Shard>, freeBytes: nat, maxGiB: int, disableH2d: bool, worldSize: nat,
                       ranks: seq<nat>, localTopo: seq<set<nat>>, deviceOf: map<nat, nat>, local: map<nat, Memory>)
    returns (outcome: Outcome, u: Update, entries: seq<Entry>, ghost buckets: seq<Owned>,
             ghost cuts: seq<seq<H2DBucket>>, ghost rounds: seq<seq<Entry>>)
    requires ValidShards(shards) && worldSize > 0
    requires ranks == [] ==> forall s :: s in Kept(shards) ==> s.rank < worldSize
    requires ranks != [] ==>
               && ActualTopo(localTopo, set r | r in ranks) != []
               && (forall s :: s in Kept(shards) ==> s.rank in deviceOf)
    ensures var largest := MaxAligned(Metas(AllParams(shards)));
            && (outcome.NothingRegistered? <==> AllParams(shards) == [])
            && (outcome.TooLittleMemory? <==> AllParams(shards) != [] && 2 * largest > freeBytes)
            && (outcome.EmptyOwner? <==> AllParams(shards) != [] && 2 * largest <= freeBytes
                                         && exists s :: s in Kept(shards) && TotalSize(Metas(s.params)) == 0)
            && (outcome.Ready? ==>
                  && (u.h2d <==> !disableH2d && 3 * largest <= freeBytes)
                  && (if u.h2d then 3 else 2) * u.bucketSize <= freeBytes
                  && GreatestAllowed(u.bucketSize, u.h2d, freeBytes, maxGiB, largest))
    ensures outcome.Ready? ==> u.Scheduled(entries, buckets, cuts) && Delivery.Registered(u.owners) == AllParams(shards)
    ensures outcome.Ready? ==>
              u.index == RankIndex(worldSize, ranks) && Received(entries, rounds, buckets, ranks, localTopo, deviceOf)
    ensures outcome.Ready? ==> u.p2p == (ranks != []) && u.local == local && OwnersOf(u.owners, Kept(shards))
    ensures outcome.Ready? && (if ranks == [] then HoldsOwn(u.owners, local) else u.h2d) ==>
              u.Planned(entries, buckets, cuts)
    ensures outcome.Ready? ==>
      ((forall v :: SameLayout(u, v) ==> Delivers(v, entries)) <==>
         (ranks != [] && u.h2d) || HeldByReceivers(u, entries))
  {
    hide TotalSize, Flatten, RegisteredOwner, Update.Scheduled, Update.FromOwners, SameLayout, Delivers, MaxAligned;
    hide TensorsFit, AlignSize, ActualTopo, AllParams, Kept, Delivery.Registered, Metas, MetaLists;
    hide Received, GreatestAllowed, RankIndex;
    buckets, cuts, rounds, entries, u := [], [], [], [], Update([], 0, map[], 0, false, false, map[]);
    var owners := RegisterShards(shards);
    NoParams(shards);
    if owners == [] {
      outcome := NothingRegistered;
      return;
    }
    var size := SizeBuckets(owners, freeBytes, maxGiB, disableH2d);
    if size.TooLarge? {
      outcome := TooLittleMemory;
      return;
    }
    var ok;
    ok, u, entries, buckets, cuts, rounds :=
      PlanUpdate(owners, size.size, worldSize, ranks, size.h2d, localTopo, deviceOf, local);
    outcome := if ok then Ready else EmptyOwner;
    if ok {
      ModeDeliversIff(u, entries, buckets, cuts);
    }
  }
}
