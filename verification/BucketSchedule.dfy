/** From all owners' memory buffers to the rounds of one update: cutting every owner, assigning receivers, ordering the
    rounds, sizing the buffers and mapping ranks (checkpoint_engine/ps.py). */
module BucketSchedule {
  import opened Sequences
  import opened Tensors
  import opened ParameterServer
  import opened Grouping

  datatype OwnerMetas = OwnerMetas(rank: nat, bufs: seq<seq<ParameterMeta>>)

  datatype Owned = Owned(owner: nat, bucket: H2DBucket)

  datatype Entry = Entry(receiver: nat, owned: Owned)

  // ----- Bucket size -----

  datatype BucketSize = BucketSize(size: nat, h2d: bool) | TooLarge

  const GIB: nat := 0x4000_0000

  function MaxAligned(metas: seq<ParameterMeta>): (m: nat)
    ensures forall i :: 0 <= i < |metas| ==> AlignSize(metas[i]) <= m
    ensures m == 0 || exists i :: 0 <= i < |metas| && AlignSize(metas[i]) == m
  {
    if metas == [] then 0
    else
      var m := MaxAligned(metas[..|metas| - 1]);
      var s := AlignSize(metas[|metas| - 1]);
      if s > m then s else m
  }

  /** Rounding a share of the memory down to a multiple of 256 does not exclude any aligned size that fits. */
  lemma AlignedShare(free: nat, largest: nat, m: nat)
    requires m == 2 || m == 3
    requires largest % ALIGN_SIZE == 0
    ensures var share := free / (m * ALIGN_SIZE) * ALIGN_SIZE;
            share % ALIGN_SIZE == 0 && m * share <= free && (largest <= share <==> m * largest <= free)
  {
    var k, q := largest / ALIGN_SIZE, free / (m * ALIGN_SIZE);
    assert largest == k * ALIGN_SIZE;
    assert free < (q + 1) * (m * ALIGN_SIZE) && q * (m * ALIGN_SIZE) <= free;
    if k > q {
      assert k >= q + 1;
    }
  }

  /** No greater multiple of 256 fits. */
  lemma GreatestShare(free: nat, m: nat)
    requires m == 2 || m == 3
    ensures forall v: nat :: v % ALIGN_SIZE == 0 && m * v <= free ==> v <= free / (m * ALIGN_SIZE) * ALIGN_SIZE
  {
    forall v: nat | v % ALIGN_SIZE == 0 && m * v <= free ensures v <= free / (m * ALIGN_SIZE) * ALIGN_SIZE {
      AlignedShare(free, v, m);
    }
  }

  lemma GibAligned(n: int)
    ensures n * GIB % ALIGN_SIZE == 0
  {
    assert n * GIB == (n * 0x40_0000) * ALIGN_SIZE;
  }

  /** An aligned size of which three, or two, fit in the memory, within the configured cap unless the largest tensor
      needs more. */
  predicate Allowed(size: nat, h2d: bool, freeBytes: nat, maxGiB: int, largest: nat)
  {
    size % ALIGN_SIZE == 0 && (if h2d then 3 else 2) * size <= freeBytes && (size <= maxGiB * GIB || size == largest)
  }

  /** The greatest such size. */
  ghost predicate GreatestAllowed(size: nat, h2d: bool, freeBytes: nat, maxGiB: int, largest: nat)
  {
    && Allowed(size, h2d, freeBytes, maxGiB, largest)
    && forall v: nat :: Allowed(v, h2d, freeBytes, maxGiB, largest) ==> v <= size
  }

  /** Chooses the transfer bucket size from the least free memory of all ranks and the largest aligned tensor. Every
      tensor fits, the size is a multiple of 256, and the two slots with the staging buffer, or the two slots alone,
      fit in the free memory; it is the greatest size allowed. The staging buffer is given up exactly when a third of
      the memory cannot hold the largest tensor, and the update is refused exactly when half of it cannot. */
  function DetectBucketSize(freeBytes: nat, largest: nat, maxGiB: int, disableH2d: bool): (r: BucketSize)
    requires largest % ALIGN_SIZE == 0
    ensures r.TooLarge? <==> 2 * largest > freeBytes
    ensures r.BucketSize? ==>
      && r.size >= largest && r.size % ALIGN_SIZE == 0
      && (if r.h2d then 3 else 2) * r.size <= freeBytes
      && (r.h2d <==> !disableH2d && 3 * largest <= freeBytes)
      && GreatestAllowed(r.size, r.h2d, freeBytes, maxGiB, largest)
  {
    AlignedShare(freeBytes, largest, 2);
    AlignedShare(freeBytes, largest, 3);
    GibAligned(maxGiB);
    GreatestShare(freeBytes, 2);
    GreatestShare(freeBytes, 3);
    var third := freeBytes / (3 * ALIGN_SIZE) * ALIGN_SIZE;
    var half := freeBytes / (2 * ALIGN_SIZE) * ALIGN_SIZE;
    var maxBytes := maxGiB * GIB;
    var wanted := if maxBytes > largest then maxBytes else largest;
    if largest <= third && !disableH2d then BucketSize(if wanted < third then wanted else third, true)
    else if largest <= half then BucketSize(if wanted < half then wanted else half, false)
    else TooLarge
  }

  lemma {:induction false} MaxAlignedIsAligned(metas: seq<ParameterMeta>)
    ensures MaxAligned(metas) % ALIGN_SIZE == 0
  {
    if metas != [] {
      MaxAlignedIsAligned(metas[..|metas| - 1]);
      AlignSizeAligned(metas[|metas| - 1]);
      hide AlignSize;
    }
  }

  /** The parameters of all owners, in order. */
  function AllMetas(owners: seq<OwnerMetas>): seq<ParameterMeta>
  {
    if owners == [] then [] else AllMetas(owners[..|owners| - 1]) + Flatten(owners[|owners| - 1].bufs)
  }

  lemma {:induction false} MaxAlignedSnoc(metas: seq<ParameterMeta>, m: ParameterMeta)
    ensures MaxAligned(metas + [m]) == if AlignSize(m) > MaxAligned(metas) then AlignSize(m) else MaxAligned(metas)
  {
    assert (metas + [m])[..|metas|] == metas;
  }

  /** The greatest aligned size of one memory buffer's parameters, starting from that of `before`. */
  method LargestInBuffer(ghost before: seq<ParameterMeta>, metas: seq<ParameterMeta>, start: nat) returns (largest: nat)
    requires start == MaxAligned(before)
    ensures largest == MaxAligned(before + metas)
  {
    largest := start;
    assert before + metas[..0] == before;
    for j := 0 to |metas|
      invariant largest == MaxAligned(before + metas[..j])
    {
      ExtendPrefix(before, metas, j);
      MaxAlignedSnoc(before + metas[..j], metas[j]);
      hide MaxAligned, AlignSize;
      if AlignSize(metas[j]) > largest {
        largest := AlignSize(metas[j]);
      }
    }
    assert metas[..|metas|] == metas;
  }

  lemma NextBuffer(before: seq<ParameterMeta>, bufs: seq<seq<ParameterMeta>>, b: nat)
    requires b < |bufs|
    ensures before + Flatten(bufs[..b + 1]) == before + Flatten(bufs[..b]) + bufs[b]
  {
    assert bufs[..b + 1] == bufs[..b] + [bufs[b]];
    FlattenSnoc(bufs[..b], bufs[b]);
  }

  /** The greatest aligned size of all gathered parameters. */
  method LargestTensor(owners: seq<OwnerMetas>) returns (largest: nat)
    ensures largest == MaxAligned(AllMetas(owners))
  {
    largest := 0;
    for o := 0 to |owners|
      invariant largest == MaxAligned(AllMetas(owners[..o]))
    {
      var bufs := owners[o].bufs;
      ghost var before := AllMetas(owners[..o]);
      assert owners[..o + 1][..o] == owners[..o] && before + Flatten(bufs[..0]) == before;
      assert AllMetas(owners[..o + 1]) == before + Flatten(bufs);
      hide MaxAligned, AllMetas, Flatten;
      for b := 0 to |bufs|
        invariant largest == MaxAligned(before + Flatten(bufs[..b]))
      {
        NextBuffer(before, bufs, b);
        largest := LargestInBuffer(before + Flatten(bufs[..b]), bufs[b], largest);
      }
      assert bufs[..|bufs|] == bufs;
    }
    assert owners[..|owners|] == owners;
  }

  lemma {:induction false} InAllMetas(owners: seq<OwnerMetas>, o: nat, m: ParameterMeta)
    requires o < |owners| && m in Flatten(owners[o].bufs)
    ensures m in AllMetas(owners)
    decreases |owners|
  {
    if o < |owners| - 1 {
      InAllMetas(owners[..|owners| - 1], o, m);
    }
  }

  /** A size detected for the greatest of all gathered tensors fits every owner's tensors. */
  lemma {:induction false} DetectedFits(owners: seq<OwnerMetas>, freeBytes: nat, maxGiB: int, disableH2d: bool, o: nat)
    requires MaxAligned(AllMetas(owners)) % ALIGN_SIZE == 0 && o < |owners|
    requires DetectBucketSize(freeBytes, MaxAligned(AllMetas(owners)), maxGiB, disableH2d).BucketSize?
    ensures TensorsFit(owners[o].bufs,
                       DetectBucketSize(freeBytes, MaxAligned(AllMetas(owners)), maxGiB, disableH2d).size)
  {
    hide AlignSize, MaxAligned, Flatten, DetectBucketSize;
    var bufs := owners[o].bufs;
    forall i, m | 0 <= i < |bufs| && m in bufs[i] ensures AlignSize(m) <= MaxAligned(AllMetas(owners)) {
      FlattenAt(bufs, i);
      InAllMetas(owners, o, m);
      var k :| 0 <= k < |AllMetas(owners)| && AllMetas(owners)[k] == m;
    }
  }

  // ----- Cutting every owner -----

  function Tag(owner: nat, cut: seq<H2DBucket>): (r: seq<Owned>)
    ensures |r| == |cut|
  {
    seq(|cut|, k requires 0 <= k < |cut| => Owned(owner, cut[k]))
  }

  /** The owners' cuts, one after the other. */
  function Tagged(owners: seq<OwnerMetas>, cuts: seq<seq<H2DBucket>>): seq<Owned>
    requires |cuts| == |owners|
  {
    if owners == [] then []
    else Tagged(owners[..|owners| - 1], cuts[..|cuts| - 1]) + Tag(owners[|owners| - 1].rank, cuts[|cuts| - 1])
  }

  /** The buckets are the cuts of the owners, in order, and every owner has bytes. */
  ghost predicate CutOwners(owners: seq<OwnerMetas>, bucketSize: nat, buckets: seq<Owned>, cuts: seq<seq<H2DBucket>>)
  {
    && |cuts| == |owners| && buckets == Tagged(owners, cuts)
    && forall o :: 0 <= o < |owners| ==>
        TotalSize(Flatten(owners[o].bufs)) > 0 && IsCut(owners[o].bufs, bucketSize, cuts[o])
  }

  lemma CutOwnersStep(owners: seq<OwnerMetas>, bucketSize: nat, o: nat, buckets: seq<Owned>, cuts: seq<seq<H2DBucket>>,
                      cut: seq<H2DBucket>)
    requires o < |owners| && CutOwners(owners[..o], bucketSize, buckets, cuts)
    requires TotalSize(Flatten(owners[o].bufs)) > 0 && IsCut(owners[o].bufs, bucketSize, cut)
    ensures CutOwners(owners[..o + 1], bucketSize, buckets + Tag(owners[o].rank, cut), cuts + [cut])
  {
    hide IsCut, TotalSize, Flatten, Tag;
    assert owners[..o + 1][..o] == owners[..o];
    assert (cuts + [cut])[..o] == cuts;
  }

  /** Cuts all owners, in order. The size assertion holds exactly when every owner has bytes. */
  method GenH2dBuckets(owners: seq<OwnerMetas>, bucketSize: nat)
    returns (ok: bool, buckets: seq<Owned>, ghost cuts: seq<seq<H2DBucket>>)
    requires forall o :: 0 <= o < |owners| ==> TensorsFit(owners[o].bufs, bucketSize)
    ensures ok ==>
      CutOwners(owners, bucketSize, buckets, cuts) && forall o :: 0 <= o < |cuts| ==> SnugCut(cuts[o], bucketSize)
    ensures !ok ==> exists o :: 0 <= o < |owners| && TotalSize(Flatten(owners[o].bufs)) == 0
  {
    ok, buckets, cuts := true, [], [];
    for o := 0 to |owners|
      invariant CutOwners(owners[..o], bucketSize, buckets, cuts)
      invariant forall k :: 0 <= k < |cuts| ==> SnugCut(cuts[k], bucketSize)
    {
      hide SnugCut;
      hide CutOwners, IsCut, TotalSize, AlignSize, Flatten, Tag, TensorsFit;
      var cut;
      ok, cut := CutOwner(owners[o].bufs, bucketSize);
      if !ok {
        return;
      }
      CutOwnersStep(owners, bucketSize, o, buckets, cuts, cut);
      buckets, cuts := buckets + Tag(owners[o].rank, cut), cuts + [cut];
    }
    assert owners[..|owners|] == owners;
    ok := true;
  }

  // ----- Receiver assignment -----

  function Device(deviceOf: map<nat, nat>, b: Owned): nat
  {
    if b.owner in deviceOf then deviceOf[b.owner] else 0
  }

  lemma {:induction false} MinExists(s: set<nat>, x: nat)
    requires x in s
    ensures exists m :: m in s && forall y :: y in s ==> m <= y
    decreases x
  {
    if y :| y in s && y < x {
      MinExists(s, y);
    } else {
      assert forall y :: y in s ==> x <= y;
    }
  }

  function Min(s: set<nat>): (m: nat)
    requires s != {}
    ensures m in s && forall y :: y in s ==> m <= y
  {
    var any :| any in s;
    MinExists(s, any);
    var x :| x in s && forall y :: y in s ==> x <= y;
    x
  }

  /** Each local device group restricted to the requested ranks; groups without any are dropped. */
  function ActualTopo(localTopo: seq<set<nat>>, ranks: set<nat>): (topo: seq<set<nat>>)
    ensures forall i :: 0 <= i < |topo| ==> topo[i] != {} && topo[i] <= ranks
    ensures forall i :: 0 <= i < |topo| ==> exists k :: 0 <= k < |localTopo| && topo[i] <= localTopo[k]
  {
    if localTopo == [] then []
    else
      var init := ActualTopo(localTopo[..|localTopo| - 1], ranks);
      var v := localTopo[|localTopo| - 1] * ranks;
      if v == {} then init else init + [v]
  }

  function Receivers(topo: seq<set<nat>>, n: nat): (r: seq<nat>)
    requires n <= |topo| && forall i :: 0 <= i < |topo| ==> topo[i] != {}
    ensures |r| == n && forall i :: 0 <= i < n ==> r[i] == Min(topo[i])
  {
    seq(n, i requires 0 <= i < n => Min(topo[i]))
  }

  function OwnedOf(entries: seq<Entry>): (r: seq<Owned>)
    ensures |r| == |entries|
  {
    seq(|entries|, k requires 0 <= k < |entries| => entries[k].owned)
  }

  /** One assignment round: the receivers in order, each used once, and no owner device used twice. */
  ghost predicate GoodRound(round: seq<Entry>, receivers: seq<nat>, deviceOf: map<nat, nat>)
  {
    && 0 < |round| <= |receivers|
    && (forall i :: 0 <= i < |round| ==> round[i].receiver == receivers[i])
    && (forall i, j :: 0 <= i < j < |round| ==>
         Device(deviceOf, round[i].owned) != Device(deviceOf, round[j].owned))
  }

  lemma RepeatedDevice(flat: seq<Owned>, from: nat, round: seq<Entry>, deviceOf: map<nat, nat>, n: nat)
    requires from + |round| < |flat| && OwnedOf(round) == flat[from..from + |round|]
    requires exists k :: 0 <= k < |round| && Device(deviceOf, round[k].owned) == Device(deviceOf, flat[from + |round|])
    ensures (forall i :: 0 <= i < |flat| ==> flat[i].owner in deviceOf) ==>
              RoundFull(round, flat[from + |round|..], n, deviceOf)
  {
    var k :| 0 <= k < |round| && Device(deviceOf, round[k].owned) == Device(deviceOf, flat[from + |round|]);
    assert OwnedOf(round)[k] == flat[from + k];
    assert flat[from + |round|..][0] == flat[from + |round|];
    if forall i :: 0 <= i < |flat| ==> flat[i].owner in deviceOf {
      assert SameDevice(deviceOf, round[k].owned, flat[from + |round|..][0]);
    }
  }

  /** Fills one round from the flattened buckets, starting at `from`. */
  method AssignRound(flat: seq<Owned>, from: nat, receivers: seq<nat>, deviceOf: map<nat, nat>)
    returns (round: seq<Entry>)
    requires from < |flat| && receivers != []
    ensures GoodRound(round, receivers, deviceOf)
    ensures from + |round| <= |flat| && OwnedOf(round) == flat[from..from + |round|]
    ensures (forall i :: 0 <= i < |flat| ==> flat[i].owner in deviceOf) ==>
              RoundFull(round, flat[from + |round|..], |receivers|, deviceOf)
  {
    round := [];
    var occupied: set<nat> := {};
    for i := 0 to |receivers|
      invariant |round| == i && from + i <= |flat| && OwnedOf(round) == flat[from..from + i]
      invariant forall k :: 0 <= k < i ==>
                  round[k].receiver == receivers[k] && Device(deviceOf, round[k].owned) in occupied
      invariant forall d :: d in occupied ==> exists k :: 0 <= k < i && Device(deviceOf, round[k].owned) == d
      invariant forall k, j :: 0 <= k < j < i ==> Device(deviceOf, round[k].owned) != Device(deviceOf, round[j].owned)
    {
      if from + i >= |flat| {
        return;
      }
      var device := Device(deviceOf, flat[from + i]);
      if device in occupied {
        RepeatedDevice(flat, from, round, deviceOf, |receivers|);
        return;
      }
      ghost var before := round;
      round := round + [Entry(receivers[i], flat[from + i])];
      assert OwnedOf(round) == OwnedOf(before) + [flat[from + i]];
      assert flat[from..from + i + 1] == flat[from..from + i] + [flat[from + i]];
      occupied := occupied + {device};
      assert round[i].owned == flat[from + i];
      assert forall k :: 0 <= k < i ==> round[k] == before[k];
    }
  }

  /** Both owners' devices are known, and they are the same. */
  predicate SameDevice(deviceOf: map<nat, nat>, a: Owned, b: Owned)
  {
    a.owner in deviceOf && b.owner in deviceOf && deviceOf[a.owner] == deviceOf[b.owner]
  }

  /** The devices of the buckets' owners. */
  function Devices(buckets: seq<Owned>, deviceOf: map<nat, nat>): set<nat>
  {
    set i | 0 <= i < |buckets| && buckets[i].owner in deviceOf :: deviceOf[buckets[i].owner]
  }

  /** A round ends only when all n receivers are used, nothing is left, or the next bucket's device is in use already.
      */
  predicate RoundFull(round: seq<Entry>, rest: seq<Owned>, n: nat, deviceOf: map<nat, nat>)
  {
    rest == [] || |round| == n || exists i :: 0 <= i < |round| && SameDevice(deviceOf, round[i].owned, rest[0])
  }

  /** Every round is as long as it may be, and the first one uses all n receivers. */
  predicate NoneIdle(rounds: seq<seq<Entry>>, n: nat, deviceOf: map<nat, nat>)
  {
    && (rounds != [] ==> |rounds[0]| == n)
    && (forall k :: 0 <= k < |rounds| - 1 ==> RoundFull(rounds[k], OwnedOf(rounds[k + 1]), n, deviceOf))
  }

  lemma {:induction false} NoneIdleSnoc(rounds: seq<seq<Entry>>, round: seq<Entry>, rest: seq<Owned>, n: nat,
                                        deviceOf: map<nat, nat>)
    requires NoneIdle(rounds, n, deviceOf) && (rounds == [] ==> |round| == n)
    requires rounds != [] ==> RoundFull(rounds[|rounds| - 1], rest, n, deviceOf)
    requires round != [] && rest != [] && rest[0] == round[0].owned
    ensures NoneIdle(rounds + [round], n, deviceOf)
  {
    var all := rounds + [round];
    forall k | 0 <= k < |all| - 1 ensures RoundFull(all[k], OwnedOf(all[k + 1]), n, deviceOf) {
      if k == |rounds| - 1 {
        assert OwnedOf(round)[0] == rest[0];
      } else {
        assert all[k] == rounds[k] && all[k + 1] == rounds[k + 1];
      }
    }
  }

  /** Without receivers idle a round from the first bucket uses all n of them: the first buckets have different
      devices. */
  lemma FirstRoundFull(buckets: seq<Owned>, flat: seq<Owned>, round: seq<Entry>, n: nat, deviceOf: map<nat, nat>)
    requires forall i :: 0 <= i < |buckets| ==> buckets[i].owner in deviceOf
    requires var key := b => Device(deviceOf, b); flat == ColumnMajor(Rows(buckets, key), MaxLen(Rows(buckets, key)))
    requires n <= |Keys(buckets, b => Device(deviceOf, b))|
    requires |round| <= n && |round| <= |flat| && OwnedOf(round) == flat[..|round|]
    requires RoundFull(round, flat[|round|..], n, deviceOf)
    ensures |round| == n
  {
    FirstOfEach(buckets, b => Device(deviceOf, b));
    hide ColumnMajor, MaxLen, Rows, Keys;
    forall i | 0 <= i < |round| ensures |round| < n ==> !SameDevice(deviceOf, round[i].owned, flat[|round|]) {
      assert OwnedOf(round)[i] == flat[i];
    }
  }

  lemma {:induction false} RoundDone(entries: seq<Entry>, rounds: seq<seq<Entry>>, round: seq<Entry>, flat: seq<Owned>,
                                     from: nat,
                  topo: seq<set<nat>>, n: nat, deviceOf: map<nat, nat>)
    requires n <= |topo| && forall i :: 0 <= i < |topo| ==> topo[i] != {}
    requires from + |round| <= |flat| && OwnedOf(entries) == flat[..from] && entries == Flatten(rounds)
    requires OwnedOf(round) == flat[from..from + |round|] && GoodRound(round, Receivers(topo, n), deviceOf)
    ensures OwnedOf(entries + round) == flat[..from + |round|] && entries + round == Flatten(rounds + [round])
    ensures GoodRound(round, Receivers(topo, |topo|), deviceOf)
  {
    FlattenSnoc(rounds, round);
    assert OwnedOf(entries + round) == OwnedOf(entries) + OwnedOf(round);
    assert flat[..from + |round|] == flat[..from] + flat[from..from + |round|];
  }

  lemma RoundStarts(round: seq<Entry>, flat: seq<Owned>, from: nat, receivers: seq<nat>, deviceOf: map<nat, nat>)
    requires GoodRound(round, receivers, deviceOf)
    requires from + |round| <= |flat| && OwnedOf(round) == flat[from..from + |round|]
    ensures 0 < |round| <= |receivers| && flat[from..] != [] && flat[from..][0] == round[0].owned
  {
    assert OwnedOf(round)[0] == flat[from];
  }

  /** State of the assignment loop after the first `from` buckets. */
  ghost predicate Assigning(entries: seq<Entry>, rounds: seq<seq<Entry>>, flat: seq<Owned>, from: nat,
                            topo: seq<set<nat>>, n: nat, deviceOf: map<nat, nat>)
    requires forall i :: 0 <= i < |topo| ==> topo[i] != {}
    ensures Assigning(entries, rounds, flat, from, topo, n, deviceOf) ==> from <= |flat|
  {
    && from <= |flat| && OwnedOf(entries) == flat[..from] && entries == Flatten(rounds)
    && (forall k :: 0 <= k < |rounds| ==> GoodRound(rounds[k], Receivers(topo, |topo|), deviceOf))
    && NoneIdle(rounds, n, deviceOf) && (from == 0 <==> rounds == [])
    && (rounds != [] ==> RoundFull(rounds[|rounds| - 1], flat[from..], n, deviceOf))
  }

  lemma AssignStart(flat: seq<Owned>, topo: seq<set<nat>>, n: nat, deviceOf: map<nat, nat>)
    requires forall i :: 0 <= i < |topo| ==> topo[i] != {}
    ensures Assigning([], [], flat, 0, topo, n, deviceOf)
  {
  }

  lemma {:induction false} AssignEnd(entries: seq<Entry>, rounds: seq<seq<Entry>>, flat: seq<Owned>,
                                     topo: seq<set<nat>>, n: nat,
                  deviceOf: map<nat, nat>)
    requires forall i :: 0 <= i < |topo| ==> topo[i] != {}
    requires Assigning(entries, rounds, flat, |flat|, topo, n, deviceOf)
    ensures OwnedOf(entries) == flat && entries == Flatten(rounds) && NoneIdle(rounds, n, deviceOf)
    ensures forall k :: 0 <= k < |rounds| ==> GoodRound(rounds[k], Receivers(topo, |topo|), deviceOf)
    ensures flat != [] ==> rounds != []
  {
    hide GoodRound, NoneIdle, RoundFull;
    assert flat[..|flat|] == flat;
  }

  lemma AssignStep(entries: seq<Entry>, rounds: seq<seq<Entry>>, round: seq<Entry>, flat: seq<Owned>, from: nat,
                   topo: seq<set<nat>>, n: nat, deviceOf: map<nat, nat>)
    requires n <= |topo| && forall i :: 0 <= i < |topo| ==> topo[i] != {}
    requires Assigning(entries, rounds, flat, from, topo, n, deviceOf) && (from == 0 ==> |round| == n)
    requires from + |round| <= |flat| && OwnedOf(round) == flat[from..from + |round|]
    requires GoodRound(round, Receivers(topo, n), deviceOf) && RoundFull(round, flat[from + |round|..], n, deviceOf)
    ensures Assigning(entries + round, rounds + [round], flat, from + |round|, topo, n, deviceOf)
  {
    RoundStarts(round, flat, from, Receivers(topo, n), deviceOf);
    hide GoodRound, NoneIdle, RoundFull, Flatten, OwnedOf, Receivers;
    NoneIdleSnoc(rounds, round, flat[from..], n, deviceOf);
    RoundDone(entries, rounds, round, flat, from, topo, n, deviceOf);
  }

  lemma {:induction false} DeviceCount(buckets: seq<Owned>, deviceOf: map<nat, nat>)
    requires forall i :: 0 <= i < |buckets| ==> buckets[i].owner in deviceOf
    ensures |Keys(buckets, b => Device(deviceOf, b))| == |Devices(buckets, deviceOf)|
  {
    KeyCount(buckets, b => Device(deviceOf, b));
    assert KeySet(buckets, b => Device(deviceOf, b)) == Devices(buckets, deviceOf);
  }

  lemma {:induction false} FlatOwners(buckets: seq<Owned>, flat: seq<Owned>, deviceOf: map<nat, nat>)
    requires forall i :: 0 <= i < |buckets| ==> buckets[i].owner in deviceOf
    requires var key := b => Device(deviceOf, b); flat == ColumnMajor(Rows(buckets, key), MaxLen(Rows(buckets, key)))
    ensures forall i :: 0 <= i < |flat| ==> flat[i].owner in deviceOf
  {
    GroupedColumnMajor(buckets, b => Device(deviceOf, b), 0);
    hide ColumnMajor, MaxLen, Rows;
    forall i | 0 <= i < |flat| ensures flat[i].owner in deviceOf {
      assert flat[i] in multiset(flat) && flat[i] in multiset(buckets);
    }
  }

  /** As many receivers as there are local groups and owner devices both. */
  function ReceiverCount(groups: nat, devices: nat): nat { if groups < devices then groups else devices }

  /** Assigns a receiver to every bucket. With a nonempty local topology the loop ends; the buckets are the given ones
      regrouped by owner device, read column by column, and no receiver is left out that could be used. */
  method AssignReceiverRanks(buckets: seq<Owned>, topo: seq<set<nat>>, deviceOf: map<nat, nat>)
    returns (entries: seq<Entry>, ghost rounds: seq<seq<Entry>>)
    requires forall i :: 0 <= i < |buckets| ==> buckets[i].owner in deviceOf
    requires forall i :: 0 <= i < |topo| ==> topo[i] != {}
    requires buckets != [] ==> topo != []
    ensures var rows := Rows(buckets, b => Device(deviceOf, b));
            OwnedOf(entries) == ColumnMajor(rows, MaxLen(rows))
    ensures entries == Flatten(rounds)
    ensures forall k :: 0 <= k < |rounds| ==> GoodRound(rounds[k], Receivers(topo, |topo|), deviceOf)
    ensures buckets != [] ==> rounds != []
    ensures NoneIdle(rounds, ReceiverCount(|topo|, |Devices(buckets, deviceOf)|), deviceOf)
  {
    entries, rounds := [], [];
    if buckets == [] {
      return;
    }
    var keys, rows := GroupBy(buckets, b => Device(deviceOf, b));
    var n := if |topo| < |rows| then |topo| else |rows|;
    var flat := ColumnMajor(rows, MaxLen(rows));
    assert |rows| > 0 by { assert buckets[0] in buckets; }
    DeviceCount(buckets, deviceOf);
    assert flat != [] by { FirstOfEach(buckets, b => Device(deviceOf, b)); }
    hide ColumnMajor, MaxLen, Rows, GoodRound, NoneIdle, RoundFull, Keys;
    entries, rounds := AssignAll(buckets, flat, topo, n, deviceOf);
    hide Assigning;
    AssignEnd(entries, rounds, flat, topo, n, deviceOf);
  }

  /** The loop over rounds, with the first n local groups' receivers. */
  method AssignAll(ghost buckets: seq<Owned>, flat: seq<Owned>, topo: seq<set<nat>>, n: nat, deviceOf: map<nat, nat>)
    returns (entries: seq<Entry>, ghost rounds: seq<seq<Entry>>)
    requires forall i :: 0 <= i < |buckets| ==> buckets[i].owner in deviceOf
    requires forall i :: 0 <= i < |topo| ==> topo[i] != {}
    requires var key := b => Device(deviceOf, b); flat == ColumnMajor(Rows(buckets, key), MaxLen(Rows(buckets, key)))
    requires 0 < n <= |topo| && n <= |Keys(buckets, b => Device(deviceOf, b))|
    ensures Assigning(entries, rounds, flat, |flat|, topo, n, deviceOf)
  {
    entries, rounds := [], [];
    var receivers := Receivers(topo, n);
    FlatOwners(buckets, flat, deviceOf);
    hide ColumnMajor, MaxLen, Rows, GoodRound, Receivers, Device, Keys, RoundFull, Assigning, OwnedOf;
    AssignStart(flat, topo, n, deviceOf);
    var assignedCnt := 0;
    while assignedCnt < |flat|
      invariant Assigning(entries, rounds, flat, assignedCnt, topo, n, deviceOf)
    {
      var round := AssignRound(flat, assignedCnt, receivers, deviceOf);
      RoundStarts(round, flat, assignedCnt, receivers, deviceOf);
      if assignedCnt == 0 {
        assert flat[0..|round|] == flat[..|round|];
        FirstRoundFull(buckets, flat, round, n, deviceOf);
      }
      AssignStep(entries, rounds, round, flat, assignedCnt, topo, n, deviceOf);
      entries, rounds := entries + round, rounds + [round];
      assignedCnt := assignedCnt + |round|;
    }
  }

  /** The assignment is a permutation of the buckets that keeps the order of each owner device's buckets, and every
      receiver is one of the requested ranks. */
  lemma AssignmentKeepsBuckets(buckets: seq<Owned>, entries: seq<Entry>, rounds: seq<seq<Entry>>,
                               localTopo: seq<set<nat>>, ranks: set<nat>, deviceOf: map<nat, nat>, d: nat)
    requires var rows := Rows(buckets, b => Device(deviceOf, b));
             OwnedOf(entries) == ColumnMajor(rows, MaxLen(rows))
    requires var topo := ActualTopo(localTopo, ranks);
             entries == Flatten(rounds)
             && forall k :: 0 <= k < |rounds| ==> GoodRound(rounds[k], Receivers(topo, |topo|), deviceOf)
    ensures multiset(OwnedOf(entries)) == multiset(buckets)
    ensures Filter(OwnedOf(entries), b => Device(deviceOf, b), d) == Filter(buckets, b => Device(deviceOf, b), d)
    ensures forall i :: 0 <= i < |entries| ==> entries[i].receiver in ranks
  {
    GroupedColumnMajor(buckets, b => Device(deviceOf, b), d);
    RoundReceivers(rounds, ActualTopo(localTopo, ranks), ranks, deviceOf);
  }

  lemma {:induction false} RoundReceivers(rounds: seq<seq<Entry>>, topo: seq<set<nat>>, ranks: set<nat>,
                                          deviceOf: map<nat, nat>)
    requires forall i :: 0 <= i < |topo| ==> topo[i] != {} && topo[i] <= ranks
    requires forall k :: 0 <= k < |rounds| ==> GoodRound(rounds[k], Receivers(topo, |topo|), deviceOf)
    ensures forall i :: 0 <= i < |Flatten(rounds)| ==> Flatten(rounds)[i].receiver in ranks
  {
    if rounds != [] {
      RoundReceivers(rounds[1..], topo, ranks, deviceOf);
      assert GoodRound(rounds[0], Receivers(topo, |topo|), deviceOf);
      forall i | 0 <= i < |rounds[0]| ensures rounds[0][i].receiver in ranks {
        assert rounds[0][i].receiver == Min(topo[i]) && Min(topo[i]) in topo[i];
      }
    }
  }

  /** Device groups do not share ranks, so a round uses no receiver twice. */
  lemma RoundReceiversDistinct(round: seq<Entry>, topo: seq<set<nat>>, deviceOf: map<nat, nat>, i: nat, j: nat)
    requires forall k :: 0 <= k < |topo| ==> topo[k] != {}
    requires forall k, l :: 0 <= k < l < |topo| ==> topo[k] !! topo[l]
    requires GoodRound(round, Receivers(topo, |topo|), deviceOf) && i < j < |round|
    ensures round[i].receiver != round[j].receiver
  {
    assert Min(topo[i]) in topo[i] && Min(topo[j]) in topo[j];
  }

  function Broadcast(buckets: seq<Owned>): (entries: seq<Entry>)
    ensures |entries| == |buckets| && OwnedOf(entries) == buckets
    ensures forall i :: 0 <= i < |entries| ==> entries[i].receiver == entries[i].owned.owner
  {
    seq(|buckets|, k requires 0 <= k < |buckets| => Entry(buckets[k].owner, buckets[k]))
  }

  /** The local groups that hold some requested rank. */
  function GroupsWith(localTopo: seq<set<nat>>, ranks: set<nat>): set<nat>
  {
    set k | 0 <= k < |localTopo| && localTopo[k] * ranks != {}
  }

  /** The restricted topology is exactly these groups, in their order, each cut to the requested ranks. */
  lemma {:induction false} ActualTopoExact(localTopo: seq<set<nat>>, ranks: set<nat>) returns (ks: seq<nat>)
    ensures |ks| == |ActualTopo(localTopo, ranks)| == |GroupsWith(localTopo, ranks)|
    ensures forall i :: 0 <= i < |ks| ==>
              ks[i] < |localTopo| && ActualTopo(localTopo, ranks)[i] == localTopo[ks[i]] * ranks
    ensures forall i, j :: 0 <= i < j < |ks| ==> ks[i] < ks[j]
    ensures forall k :: k in GroupsWith(localTopo, ranks) ==> k in ks
  {
    if localTopo == [] {
      ks := [];
      assert GroupsWith(localTopo, ranks) == {};
    } else {
      var n := |localTopo| - 1;
      ks := ActualTopoExact(localTopo[..n], ranks);
      GroupsWithSnoc(localTopo, ranks);
      hide GroupsWith;
      if localTopo[n] * ranks != {} {
        ks := ks + [n];
      }
    }
  }

  lemma GroupsWithSnoc(localTopo: seq<set<nat>>, ranks: set<nat>)
    requires localTopo != []
    ensures var n := |localTopo| - 1;
            var before := GroupsWith(localTopo[..n], ranks);
            && n !in before
            && GroupsWith(localTopo, ranks) == (if localTopo[n] * ranks == {} then before else before + {n})
            && |GroupsWith(localTopo, ranks)| == |before| + (if localTopo[n] * ranks == {} then 0 else 1)
  {
    var n := |localTopo| - 1;
    var before, all := GroupsWith(localTopo[..n], ranks), GroupsWith(localTopo, ranks);
    forall k ensures k in all <==> k in before || (k == n && localTopo[n] * ranks != {}) {
    }
    assert all == if localTopo[n] * ranks == {} then before else before + {n};
  }

  /** How requested ranks share the buckets: the receivers are the least requested ranks of the first local groups, no
      round uses an owner device twice, and no receiver is left out that could be used. */
  ghost predicate Shared(rounds: seq<seq<Entry>>, buckets: seq<Owned>, localTopo: seq<set<nat>>, ranks: set<nat>,
                         deviceOf: map<nat, nat>)
  {
    var topo := ActualTopo(localTopo, ranks);
    && (buckets != [] ==> rounds != [])
    && NoneIdle(rounds, ReceiverCount(|GroupsWith(localTopo, ranks)|, |Devices(buckets, deviceOf)|), deviceOf)
    && (forall k :: 0 <= k < |rounds| ==> 0 < |rounds[k]| <= |topo|)
    && (forall k, i :: 0 <= k < |rounds| && 0 <= i < |rounds[k]| ==> rounds[k][i].receiver == Min(topo[i]))
    && (forall k, i, j :: 0 <= k < |rounds| && 0 <= i < j < |rounds[k]| ==>
         !SameDevice(deviceOf, rounds[k][i].owned, rounds[k][j].owned))
  }

  lemma {:induction false} AssignmentShared(rounds: seq<seq<Entry>>, buckets: seq<Owned>, localTopo: seq<set<nat>>,
                                            ranks: set<nat>, deviceOf: map<nat, nat>)
    requires var topo := ActualTopo(localTopo, ranks);
             && (buckets != [] ==> rounds != [])
             && NoneIdle(rounds, ReceiverCount(|topo|, |Devices(buckets, deviceOf)|), deviceOf)
             && forall k :: 0 <= k < |rounds| ==> GoodRound(rounds[k], Receivers(topo, |topo|), deviceOf)
    ensures Shared(rounds, buckets, localTopo, ranks, deviceOf)
  {
    var ks := ActualTopoExact(localTopo, ranks);
    var topo := ActualTopo(localTopo, ranks);
    hide NoneIdle, Devices, ReceiverCount, ActualTopo;
    forall k | 0 <= k < |rounds|
      ensures 0 < |rounds[k]| <= |topo| && forall i :: 0 <= i < |rounds[k]| ==> rounds[k][i].receiver == Min(topo[i])
      ensures forall i, j :: 0 <= i < j < |rounds[k]| ==> !SameDevice(deviceOf, rounds[k][i].owned, rounds[k][j].owned)
    {
      assert GoodRound(rounds[k], Receivers(topo, |topo|), deviceOf);
    }
  }

  /** Every owner sends its own buckets, in order, or the requested ranks share them. */
  ghost predicate Received(entries: seq<Entry>, rounds: seq<seq<Entry>>, buckets: seq<Owned>, ranks: seq<nat>,
                           localTopo: seq<set<nat>>, deviceOf: map<nat, nat>)
  {
    if ranks == [] then
      OwnedOf(entries) == buckets && forall i :: 0 <= i < |entries| ==> entries[i].receiver == entries[i].owned.owner
    else
      && entries == Flatten(rounds) && Shared(rounds, buckets, localTopo, (set r | r in ranks), deviceOf)
      && forall i :: 0 <= i < |entries| ==> entries[i].receiver in ranks
  }

  /** Who broadcasts which bucket: the owner itself, or, when ranks are requested, some of them. */
  method PlanReceivers(buckets: seq<Owned>, ranks: seq<nat>, localTopo: seq<set<nat>>, deviceOf: map<nat, nat>)
    returns (entries: seq<Entry>, ghost rounds: seq<seq<Entry>>)
    requires ranks != [] ==> forall i :: 0 <= i < |buckets| ==> buckets[i].owner in deviceOf
    requires ranks != [] && buckets != [] ==> ActualTopo(localTopo, set r | r in ranks) != []
    ensures multiset(OwnedOf(entries)) == multiset(buckets)
    ensures Received(entries, rounds, buckets, ranks, localTopo, deviceOf)
  {
    rounds := [];
    if ranks == [] {
      entries := Broadcast(buckets);
    } else {
      var wanted := set r | r in ranks;
      entries, rounds := AssignReceiverRanks(buckets, ActualTopo(localTopo, wanted), deviceOf);
      hide Shared, NoneIdle, GoodRound, Receivers;
      AssignmentKeepsBuckets(buckets, entries, rounds, localTopo, wanted, deviceOf, 0);
      AssignmentShared(rounds, buckets, localTopo, wanted, deviceOf);
    }
  }

  // ----- Ranks -----

  function IdentityMap(n: nat): (m: map<nat, nat>)
    ensures forall r: nat :: r in m <==> r < n
    ensures forall r: nat :: r in m ==> m[r] == r
  {
    if n == 0 then map[] else IdentityMap(n - 1)[n - 1 := n - 1]
  }

  /** Maps real ranks to broadcast ranks. */
  method GetBcastRankMap(worldSize: nat, ranks: seq<nat>) returns (m: map<nat, nat>)
    ensures ranks == [] ==> m == IdentityMap(worldSize)
    ensures ranks != [] ==> m == LastIndexMap(ranks)
  {
    if ranks == [] {
      m := IdentityMap(worldSize);
    } else {
      m := map[];
      for i := 0 to |ranks|
        invariant m == LastIndexMap(ranks[..i])
      {
        assert ranks[..i + 1][..i] == ranks[..i];
        m := m[ranks[i] := i];
      }
      assert ranks[..|ranks|] == ranks;
    }
  }

  function LastIndexMap(ranks: seq<nat>): (m: map<nat, nat>)
    ensures forall r :: r in m <==> r in ranks
    ensures forall r :: r in m ==> m[r] < |ranks| && ranks[m[r]] == r
    ensures forall i :: 0 <= i < |ranks| ==> i <= m[ranks[i]]
  {
    if ranks == [] then map[]
    else LastIndexMap(ranks[..|ranks| - 1])[ranks[|ranks| - 1] := |ranks| - 1]
  }

  /** The broadcast map sends every rank to its `ranks.index` position, the rank it joined the process group as, and is
      onto the positions, exactly when no rank is listed twice. */
  lemma {:induction false} BcastRankAgrees(ranks: seq<nat>)
    ensures (forall i :: 0 <= i < |ranks| ==> IndexOf(ranks, ranks[i]) == LastIndexMap(ranks)[ranks[i]])
       <==> (forall i, j :: 0 <= i < j < |ranks| ==> ranks[i] != ranks[j])
    ensures (forall i, j :: 0 <= i < j < |ranks| ==> ranks[i] != ranks[j]) ==>
      forall i :: 0 <= i < |ranks| ==> LastIndexMap(ranks)[ranks[i]] == i
  {
    if i, j :| 0 <= i < j < |ranks| && ranks[i] == ranks[j] {
      FirstIndex(ranks, i);
      assert j <= LastIndexMap(ranks)[ranks[j]];
    }
  }

  lemma {:induction false} FirstIndex(ranks: seq<nat>, i: nat)
    requires i < |ranks|
    ensures IndexOf(ranks, ranks[i]) <= i
  {
    if ranks[0] != ranks[i] {
      FirstIndex(ranks[1..], i - 1);
    }
  }

  /** For the ranks [3, 3] the map sends rank 3 to 1, while it joined the process group as 0. */
  lemma RepeatedRankDisagrees()
    ensures LastIndexMap([3, 3])[3] == 1 && IndexOf([3, 3], 3) == 0
  {
    assert LastIndexMap([3, 3])[[3, 3][1]] >= 1;
  }
}
