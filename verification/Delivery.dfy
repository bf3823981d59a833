/** End to end: what every worker ends up with is what the owners registered. */
module Delivery {
  import opened Sequences
  import opened Tensors
  import opened ParameterServer
  import opened Worker
  import opened Grouping
  import opened BucketSchedule
  import opened UpdateProtocol

  // ----- One owner -----

  /** The tensors that a bucket carries when its ranges are read from `pool`. */
  ghost function Content(pool: seq<seq<byte>>, b: H2DBucket): seq<Tensor>
  {
    if RangesIn(pool, b.ranges) && InBuffer(Named(b.items, 0), Payload(pool, b.ranges))
    then Extracted(Named(b.items, 0), Payload(pool, b.ranges))
    else []
  }

  ghost predicate Carries(pool: seq<seq<byte>>, b: H2DBucket)
  {
    && RangesIn(pool, b.ranges)
    && |Payload(pool, b.ranges)| == b.size
    && Holds(Payload(pool, b.ranges), Content(pool, b))
    && Metas(Content(pool, b)) == b.items
  }

  ghost function Contents(pool: seq<seq<byte>>, cut: seq<H2DBucket>): seq<Tensor>
  {
    if cut == [] then [] else Contents(pool, cut[..|cut| - 1]) + Content(pool, cut[|cut| - 1])
  }

  lemma {:induction false} BucketCarries(bufs: seq<seq<ParameterMeta>>, pool: seq<seq<byte>>, tensors: seq<Tensor>,
                                         b: H2DBucket, lo: nat, hi: nat)
    requires PoolFits(bufs, pool) && Holds(Stream(pool), tensors)
    requires lo <= hi <= |tensors| && b.items == Metas(tensors)[lo..hi] && b.size == TotalSize(b.items)
    requires Contiguous(bufs, b.ranges, Offset(Metas(tensors), lo), Offset(Metas(tensors), hi))
    ensures Carries(pool, b) && Content(pool, b) == tensors[lo..hi]
  {
    hide TotalSize, NBytes, Metas, Contiguous, Holds, InBuffer, Extracted, Named, Payload, Offset, PoolFits, Flatten,
         RangesIn;
    var part := tensors[lo..hi];
    HoldsSlice(Stream(pool), tensors, lo, hi);
    ContiguousPayload(bufs, pool, b.ranges, Offset(Metas(tensors), lo), Offset(Metas(tensors), hi));
    var data := Payload(pool, b.ranges);
    assert Holds(data, part);
    assert Metas(part) == b.items;
    assert data[0..0 + |data|] == data;
    ExtractNamed(data, part, data, 0);
    HoldsSize(data, part);
  }

  /** Every bucket of a cut carries its items and is within the bucket size. */
  ghost predicate AllCarry(pool: seq<seq<byte>>, bucketSize: nat, cut: seq<H2DBucket>)
  {
    cut == [] || (AllCarry(pool, bucketSize, cut[..|cut| - 1])
                  && Carries(pool, cut[|cut| - 1]) && cut[|cut| - 1].size <= bucketSize)
  }

  lemma {:induction false} EachCarries(pool: seq<seq<byte>>, bucketSize: nat, cut: seq<H2DBucket>, k: nat)
    requires AllCarry(pool, bucketSize, cut) && k < |cut|
    ensures Carries(pool, cut[k]) && cut[k].size <= bucketSize
    decreases |cut|
  {
    hide Carries;
    if k < |cut| - 1 {
      EachCarries(pool, bucketSize, cut[..|cut| - 1], k);
    }
  }

  lemma {:induction false} CutCarries(bufs: seq<seq<ParameterMeta>>, bucketSize: nat, cut: seq<H2DBucket>,
                                      pool: seq<seq<byte>>, tensors: seq<Tensor>, n: nat)
    requires n <= |tensors| && CutUpTo(bufs, bucketSize, cut, Metas(tensors)[..n], Offset(Metas(tensors), n))
    requires PoolFits(bufs, pool) && Holds(Stream(pool), tensors)
    ensures Contents(pool, cut) == tensors[..n] && AllCarry(pool, bucketSize, cut)
    decreases |cut|
  {
    hide *;
    if cut != [] {
      var b := cut[|cut| - 1];
      var lo := n - |b.items|;
      LastPiece(bufs, bucketSize, cut, Metas(tensors), n);
      CutCarries(bufs, bucketSize, cut[..|cut| - 1], pool, tensors, lo);
      BucketCarries(bufs, pool, tensors, b, lo, n);
      ContentsSnoc(pool, cut);
      TakeJoin(tensors, lo, n, Contents(pool, cut));
      CarrySnoc(pool, bucketSize, cut);
    } else {
      NothingCut(bufs, bucketSize, cut, pool, tensors, n);
    }
  }

  lemma {:induction false} CarrySnoc(pool: seq<seq<byte>>, bucketSize: nat, cut: seq<H2DBucket>)
    requires cut != [] && AllCarry(pool, bucketSize, cut[..|cut| - 1])
    requires Carries(pool, cut[|cut| - 1]) && cut[|cut| - 1].size <= bucketSize
    ensures AllCarry(pool, bucketSize, cut)
  {
    hide Carries;
  }

  lemma {:induction false} ContentsSnoc(pool: seq<seq<byte>>, cut: seq<H2DBucket>)
    requires cut != []
    ensures Contents(pool, cut) == Contents(pool, cut[..|cut| - 1]) + Content(pool, cut[|cut| - 1])
  {
    hide Content;
  }

  lemma TakeJoin<T>(xs: seq<T>, lo: nat, n: nat, both: seq<T>)
    requires lo <= n <= |xs| && both == xs[..lo] + xs[lo..n]
    ensures both == xs[..n]
  {
  }

  lemma {:induction false} NothingCut(bufs: seq<seq<ParameterMeta>>, bucketSize: nat, cut: seq<H2DBucket>,
                   pool: seq<seq<byte>>, tensors: seq<Tensor>, n: nat)
    requires n <= |tensors| && cut == []
             && CutUpTo(bufs, bucketSize, cut, Metas(tensors)[..n], Offset(Metas(tensors), n))
    ensures Contents(pool, cut) == tensors[..n] && AllCarry(pool, bucketSize, cut)
  {
  }

  /** The last bucket of a cut takes the last of the parameters, and the others cut the rest. */
  lemma {:induction false} LastPiece(bufs: seq<seq<ParameterMeta>>, bucketSize: nat, cut: seq<H2DBucket>,
                                     ms: seq<ParameterMeta>, n: nat)
    requires n <= |ms| && cut != [] && CutUpTo(bufs, bucketSize, cut, ms[..n], Offset(ms, n))
    ensures var b := cut[|cut| - 1];
            && |b.items| <= n && b.items == ms[n - |b.items|..n] && b.size == TotalSize(b.items) && b.size <= bucketSize
            && Contiguous(bufs, b.ranges, Offset(ms, n - |b.items|), Offset(ms, n))
            && CutUpTo(bufs, bucketSize, cut[..|cut| - 1], ms[..n - |b.items|], Offset(ms, n - |b.items|))
  {
    hide NBytes, AlignSize, Contiguous, TotalSize;
    var b := cut[|cut| - 1];
    var lo := n - |b.items|;
    assert ms[..n][..lo] == ms[..lo] && ms[..n][lo..] == ms[lo..n] == b.items;
    assert ms[..n] == ms[..lo] + ms[lo..n];
    TotalSizeConcat(ms[..lo], ms[lo..n]);
  }

  /** Cutting loses nothing: the buckets of a cut carry, in order, exactly the tensors registered in the pool. */
  lemma {:induction false} CutDelivers(bufs: seq<seq<ParameterMeta>>, bucketSize: nat, cut: seq<H2DBucket>,
                                       pool: seq<seq<byte>>, tensors: seq<Tensor>)
    requires IsCut(bufs, bucketSize, cut) && PoolFits(bufs, pool)
    requires Metas(tensors) == Flatten(bufs) && Holds(Stream(pool), tensors)
    ensures Contents(pool, cut) == tensors
    ensures forall k :: 0 <= k < |cut| ==> Carries(pool, cut[k]) && cut[k].size <= bucketSize
  {
    assert Metas(tensors)[..|tensors|] == Metas(tensors);
    assert tensors[..|tensors|] == tensors;
    CutCarries(bufs, bucketSize, cut, pool, tensors, |tensors|);
    hide *;
    forall k | 0 <= k < |cut| ensures Carries(pool, cut[k]) && cut[k].size <= bucketSize {
      EachCarries(pool, bucketSize, cut, k);
    }
  }

  // ----- All owners -----

  /** An owner rank with its registered pool and the parameters it registered. */
  datatype Owner = Owner(rank: nat, pool: seq<MemoryBuffer>, params: seq<Tensor>)

  /** What registration guarantees of an owner. */
  ghost predicate RegisteredOwner(o: Owner)
  {
    && (forall k :: 0 <= k < |o.pool| ==> |o.pool[k].buffer| == TotalSize(o.pool[k].metas))
    && Flatten(MetaLists(o.pool)) == Metas(o.params)
    && Holds(Stream(Buffers(o.pool)), o.params)
  }

  /** The gathered metadata of all owners. */
  function Gathered(owners: seq<Owner>): (r: seq<OwnerMetas>)
    ensures |r| == |owners|
  {
    seq(|owners|, k requires 0 <= k < |owners| => OwnerMetas(owners[k].rank, MetaLists(owners[k].pool)))
  }

  ghost predicate DistinctRanks(owners: seq<Owner>)
  {
    forall i, j :: 0 <= i < j < |owners| ==> owners[i].rank != owners[j].rank
  }

  function PoolOf(owners: seq<Owner>, rank: nat): seq<seq<byte>>
  {
    if owners == [] then []
    else if owners[|owners| - 1].rank == rank then Buffers(owners[|owners| - 1].pool)
    else PoolOf(owners[..|owners| - 1], rank)
  }

  ghost function Carried(owners: seq<Owner>, o: Owned): seq<Tensor>
  {
    Content(PoolOf(owners, o.owner), o.bucket)
  }

  function Registered(owners: seq<Owner>): seq<Tensor>
  {
    if owners == [] then [] else Registered(owners[..|owners| - 1]) + owners[|owners| - 1].params
  }

  lemma PoolOfInit(owners: seq<Owner>, n: nat, k: nat)
    requires DistinctRanks(owners) && k < n <= |owners|
    ensures PoolOf(owners[..n], owners[k].rank) == Buffers(owners[k].pool)
    decreases n
  {
    if k < n - 1 {
      assert owners[..n][..n - 1] == owners[..n - 1];
      PoolOfInit(owners, n - 1, k);
    }
  }

  lemma {:induction false} TaggedCarry(all: seq<Owner>, rank: nat, cut: seq<H2DBucket>)
    ensures FlatMap(Tag(rank, cut), (o: Owned) => Carried(all, o)) == Contents(PoolOf(all, rank), cut)
    decreases |cut|
  {
    if cut != [] {
      var init, last := cut[..|cut| - 1], Owned(rank, cut[|cut| - 1]);
      var f := (o: Owned) => Carried(all, o);
      assert Tag(rank, cut) == Tag(rank, init) + [last];
      assert f(last) == Content(PoolOf(all, rank), cut[|cut| - 1]);
      hide *;
      FlatMapConcat(Tag(rank, init), [last], f);
      FlatMapOne(last, f);
      TaggedCarry(all, rank, init);
      ContentsSnoc(PoolOf(all, rank), cut);
    }
  }

  lemma {:induction false} FlatMapOne<T, U>(x: T, f: T -> seq<U>)
    ensures FlatMap([x], f) == f(x)
  {
    assert [x][1..] == [];
  }

  /** The cuts of all owners carry, owner by owner, everything that was registered. */
  lemma {:induction false} CutsCarry(owners: seq<Owner>, n: nat, bucketSize: nat, buckets: seq<Owned>,
                                     cuts: seq<seq<H2DBucket>>)
    requires n <= |owners| && DistinctRanks(owners) && forall k :: 0 <= k < |owners| ==> RegisteredOwner(owners[k])
    requires CutOwners(Gathered(owners[..n]), bucketSize, buckets, cuts)
    ensures FlatMap(buckets, (o: Owned) => Carried(owners, o)) == Registered(owners[..n])
    ensures forall i :: 0 <= i < |buckets| ==>
      Carries(PoolOf(owners, buckets[i].owner), buckets[i].bucket) && buckets[i].bucket.size <= bucketSize
  {
    hide Content, Carries, IsCut, RegisteredOwner, Flatten, TotalSize, Contents;
    if n > 0 {
      var m := n - 1;
      var o, cut := owners[m], cuts[m];
      var init := Tagged(Gathered(owners[..m]), cuts[..m]);
      assert Gathered(owners[..n])[..m] == Gathered(owners[..m]);
      assert CutOwners(Gathered(owners[..m]), bucketSize, init, cuts[..m])
             by { CutOwnersInit(owners, n, bucketSize, buckets, cuts); }
      CutsCarry(owners, m, bucketSize, init, cuts[..m]);
      assert Gathered(owners[..n])[m] == OwnerMetas(o.rank, MetaLists(o.pool));
      assert buckets == init + Tag(o.rank, cut);
      FlatMapConcat(init, Tag(o.rank, cut), (b: Owned) => Carried(owners, b));
      TaggedCarry(owners, o.rank, cut);
      assert owners[..|owners|] == owners;
      PoolOfInit(owners, |owners|, m);
      OwnerDelivers(o, bucketSize, cut);
      assert owners[..n][..m] == owners[..m];
    }
  }

  lemma CutOwnersInit(owners: seq<Owner>, n: nat, bucketSize: nat, buckets: seq<Owned>, cuts: seq<seq<H2DBucket>>)
    requires 0 < n <= |owners| && CutOwners(Gathered(owners[..n]), bucketSize, buckets, cuts)
    ensures CutOwners(Gathered(owners[..n - 1]), bucketSize, Tagged(Gathered(owners[..n - 1]), cuts[..n - 1]),
                      cuts[..n - 1])
    ensures IsCut(MetaLists(owners[n - 1].pool), bucketSize, cuts[n - 1])
  {
    hide IsCut, Flatten, TotalSize;
    var g, h := Gathered(owners[..n]), Gathered(owners[..n - 1]);
    assert forall k :: 0 <= k < n - 1 ==> h[k] == g[k];
    assert g[n - 1].bufs == MetaLists(owners[n - 1].pool);
  }

  lemma {:induction false} OwnerDelivers(o: Owner, bucketSize: nat, cut: seq<H2DBucket>)
    requires RegisteredOwner(o) && IsCut(MetaLists(o.pool), bucketSize, cut)
    ensures Contents(Buffers(o.pool), cut) == o.params
    ensures forall k :: 0 <= k < |cut| ==> Carries(Buffers(o.pool), cut[k]) && cut[k].size <= bucketSize
  {
    hide IsCut, Flatten, TotalSize, Holds, Carries, Contents;
    assert PoolFits(MetaLists(o.pool), Buffers(o.pool));
    CutDelivers(MetaLists(o.pool), bucketSize, cut, Buffers(o.pool), o.params);
  }

  // ----- The rounds of one update -----

  /** Round g broadcasts `entry`, the bucket in position `column` of its receiver's list. */
  datatype Round = Round(column: nat, entry: Entry)

  function TagColumn(c: nat, col: seq<Entry>): (r: seq<Round>)
    ensures |r| == |col|
  {
    seq(|col|, k requires 0 <= k < |col| => Round(c, col[k]))
  }

  function RoundsOf(rows: seq<seq<Entry>>, n: nat): seq<Round>
  {
    if n == 0 then [] else RoundsOf(rows, n - 1) + TagColumn(n - 1, Column(rows, n - 1))
  }

  /** Orders the buckets into rounds: the i-th buckets of all receivers before the (i+1)-th. */
  method UpdateRounds(entries: seq<Entry>) returns (rounds: seq<Round>)
    ensures var rows := Rows(entries, (e: Entry) => e.receiver);
            rounds == RoundsOf(rows, MaxLen(rows))
  {
    var keys, rows := GroupBy(entries, (e: Entry) => e.receiver);
    var maxLen := MaxLen(rows);
    rounds := [];
    for i := 0 to maxLen
      invariant rounds == RoundsOf(rows, i)
    {
      var more := ColumnRounds(rows, i);
      rounds := rounds + more;
    }
  }

  /** The inner loop: the i-th buckets of all receivers. */
  method ColumnRounds(rows: seq<seq<Entry>>, i: nat) returns (rounds: seq<Round>)
    ensures rounds == TagColumn(i, Column(rows, i))
  {
    rounds := [];
    for k := 0 to |rows|
      invariant rounds == TagColumn(i, Column(rows[..k], i))
    {
      assert rows[..k + 1][..k] == rows[..k];
      if i < |rows[k]| {
        rounds := rounds + [Round(i, rows[k][i])];
      }
    }
    assert rows[..|rows|] == rows;
  }

  function EntriesOf(rounds: seq<Round>): (r: seq<Entry>)
    ensures |r| == |rounds|
  {
    seq(|rounds|, k requires 0 <= k < |rounds| => rounds[k].entry)
  }

  lemma {:induction false} RoundsEntries(rows: seq<seq<Entry>>, n: nat)
    ensures EntriesOf(RoundsOf(rows, n)) == ColumnMajor(rows, n)
  {
    if n > 0 {
      RoundsEntries(rows, n - 1);
      assert EntriesOf(TagColumn(n - 1, Column(rows, n - 1))) == Column(rows, n - 1);
      assert EntriesOf(RoundsOf(rows, n))
             == EntriesOf(RoundsOf(rows, n - 1)) + EntriesOf(TagColumn(n - 1, Column(rows, n - 1)));
    }
  }

  /** Later rounds belong to later columns, or to other receivers of the same column. */
  ghost predicate InOrder(a: Round, b: Round)
  {
    a.column < b.column || (a.column == b.column && a.entry.receiver != b.entry.receiver)
  }

  lemma {:induction false} ColumnReceivers(rows: seq<seq<Entry>>, ks: seq<nat>, c: nat)
    requires KeyedRows(rows, (e: Entry) => e.receiver, ks)
    ensures forall i :: 0 <= i < |Column(rows, c)| ==> Column(rows, c)[i].receiver in ks
    ensures forall i, j :: 0 <= i < j < |Column(rows, c)| ==> Column(rows, c)[i].receiver != Column(rows, c)[j].receiver
  {
    if rows != [] {
      var n := |rows| - 1;
      var key := (e: Entry) => e.receiver;
      assert KeyedRows(rows[..n], key, ks[..n]);
      ColumnReceivers(rows[..n], ks[..n], c);
      assert c < |rows[n]| ==> key(rows[n][c]) == ks[n];
      assert ks[n] !in ks[..n];
    }
  }

  lemma {:induction false} RoundsInOrder(rows: seq<seq<Entry>>, ks: seq<nat>, n: nat)
    requires KeyedRows(rows, (e: Entry) => e.receiver, ks)
    ensures forall g :: 0 <= g < |RoundsOf(rows, n)| ==> RoundsOf(rows, n)[g].column < n
    ensures forall g, k :: 0 <= g < k < |RoundsOf(rows, n)| ==> InOrder(RoundsOf(rows, n)[g], RoundsOf(rows, n)[k])
  {
    if n > 0 {
      RoundsInOrder(rows, ks, n - 1);
      ColumnReceivers(rows, ks, n - 1);
    }
  }

  /** The memory pool a process holds under the checkpoint's name: the one that an owner of the update registered there,
      or another one, as on a rank that has loaded the metadata of other processes. */
  datatype Memory = OfOwner(owner: nat) | Foreign(pool: seq<seq<byte>>)

  /** How the update is run: process-group ranks, bucket size, modes, owners and every receiver's own memory. */
  datatype Update = Update(owners: seq<Owner>, bucketSize: nat, index: map<nat, nat>, n: nat, p2p: bool, h2d: bool,
                           local: map<nat, Memory>)
  {
    /** The memory that `_copy_to_buffer` reads for a bucket: the owner's over the network when ranks are given and the
        staging buffer is used, and otherwise the receiver's own. */
    function Source(e: Entry): Memory
    {
      if h2d && p2p then OfOwner(e.owned.owner)
      else if e.receiver in local then local[e.receiver]
      else Foreign([])
    }

    function PoolIn(m: Memory): seq<seq<byte>>
    {
      match m
      case OfOwner(k) => PoolOf(owners, k)
      case Foreign(pool) => pool
    }

    ghost predicate Readable(e: Entry) { RangesIn(PoolIn(Source(e)), e.owned.bucket.ranges) }

    /** The tensors that a bucket turns into when it is copied from its source. */
    ghost function Read(e: Entry): seq<Tensor>
    {
      Content(PoolIn(Source(e)), e.owned.bucket)
    }

    ghost function JobOf(r: Round): Job
    {
      var e := r.entry;
      Job(if e.receiver in index then index[e.receiver] else 0, r.column, Readable(e),
          if Readable(e) then Payload(PoolIn(Source(e)), e.owned.bucket.ranges) else Repeat(0, e.owned.bucket.size),
          Read(e))
    }

    ghost function Jobs(rounds: seq<Round>): (r: seq<Job>)
      ensures |r| == |rounds|
    {
      seq(|rounds|, g requires 0 <= g < |rounds| => JobOf(rounds[g]))
    }

    ghost function Configure(entries: seq<Entry>): Config
    {
      Config(n, bucketSize, Jobs(Schedule(entries)), h2d)
    }

    /** The entries schedule exactly the buckets cut from the registered owners, on receivers of the process group. */
    ghost predicate Scheduled(entries: seq<Entry>, buckets: seq<Owned>, cuts: seq<seq<H2DBucket>>)
    {
      && n > 0
      && DistinctRanks(owners)
      && (forall k :: 0 <= k < |owners| ==> RegisteredOwner(owners[k]))
      && CutOwners(Gathered(owners), bucketSize, buckets, cuts)
      && multiset(OwnedOf(entries)) == multiset(buckets)
      && (forall i :: 0 <= i < |entries| ==> entries[i].receiver in index)
      && (forall r :: r in index ==> index[r] < n)
      && (forall r, q :: r in index && q in index && r != q ==> index[r] != index[q])
    }

    /** Every bucket is copied from the memory that its owner registered. */
    predicate FromOwners(entries: seq<Entry>)
    {
      forall i :: 0 <= i < |entries| ==> Source(entries[i]) == OfOwner(entries[i].owned.owner)
    }

    ghost predicate Planned(entries: seq<Entry>, buckets: seq<Owned>, cuts: seq<seq<H2DBucket>>)
    {
      Scheduled(entries, buckets, cuts) && FromOwners(entries)
    }

    /** What every worker should load, round by round: the registered tensors of each bucket. */
    ghost function Expected(entries: seq<Entry>): seq<Tensor>
    {
      FlatMap(EntriesOf(Schedule(entries)), (e: Entry) => Carried(owners, e.owned))
    }

    /** What the workers load: the tensors that each bucket turns into. */
    ghost function Copied(entries: seq<Entry>): seq<Tensor>
    {
      FlatMap(EntriesOf(Schedule(entries)), (e: Entry) => Read(e))
    }
  }

  /** The rounds of the entries, grouped by receiver. */
  function Schedule(entries: seq<Entry>): seq<Round>
  {
    var rows := Rows(entries, (e: Entry) => e.receiver);
    RoundsOf(rows, MaxLen(rows))
  }

  lemma {:induction false} TaggedSized(owners: seq<OwnerMetas>, bucketSize: nat, cuts: seq<seq<H2DBucket>>)
    requires |cuts| == |owners| && forall o :: 0 <= o < |owners| ==> IsCut(owners[o].bufs, bucketSize, cuts[o])
    ensures forall i :: 0 <= i < |Tagged(owners, cuts)| ==> Sized(bucketSize, Tagged(owners, cuts)[i].bucket)
  {
    hide IsCut, Sized;
    if owners != [] {
      var n := |owners| - 1;
      TaggedSized(owners[..n], bucketSize, cuts[..n]);
      CutIsSized(owners[n].bufs, bucketSize, cuts[n]);
      var init: seq<Owned>, last: seq<Owned> := Tagged(owners[..n], cuts[..n]), Tag(owners[n].rank, cuts[n]);
      forall i | 0 <= i < |init + last| ensures Sized(bucketSize, (init + last)[i].bucket) {
        if i >= |init| {
          assert (init + last)[i].bucket == cuts[n][i - |init|];
        }
      }
    }
  }

  lemma CutIsSized(bufs: seq<seq<ParameterMeta>>, bucketSize: nat, cut: seq<H2DBucket>)
    requires IsCut(bufs, bucketSize, cut)
    ensures forall k :: 0 <= k < |cut| ==> Sized(bucketSize, cut[k])
  {
    CutSized(bufs, bucketSize, cut, Flatten(bufs), TotalSize(Flatten(bufs)));
  }

  lemma EntryBucket(entries: seq<Entry>, buckets: seq<Owned>, e: Entry) returns (k: nat)
    requires multiset(OwnedOf(entries)) == multiset(buckets) && e in entries
    ensures k < |buckets| && buckets[k] == e.owned
  {
    var i :| 0 <= i < |entries| && entries[i] == e;
    assert OwnedOf(entries)[i] == e.owned;
    assert e.owned in multiset(OwnedOf(entries));
    assert e.owned in multiset(buckets);
    k :| 0 <= k < |buckets| && buckets[k] == e.owned;
  }

  lemma EntrySized(u: Update, entries: seq<Entry>, buckets: seq<Owned>, cuts: seq<seq<H2DBucket>>, e: Entry)
    requires u.Scheduled(entries, buckets, cuts) && e in entries
    ensures Sized(u.bucketSize, e.owned.bucket) && e.receiver in u.index
  {
    hide IsCut, Sized, RegisteredOwner;
    TaggedSized(Gathered(u.owners), u.bucketSize, cuts);
    var k := EntryBucket(entries, buckets, e);
    var i :| 0 <= i < |entries| && entries[i] == e;
  }

  /** What a bucket of the right size is read as is held by the bytes that were read. */
  lemma ReadIsHeld(u: Update, e: Entry)
    requires Sized(u.bucketSize, e.owned.bucket) && u.Readable(e)
    ensures var data := Payload(u.PoolIn(u.Source(e)), e.owned.bucket.ranges);
            && |data| <= u.bucketSize && Holds(data, u.Read(e))
            && u.Read(e) == Extracted(Named(e.owned.bucket.items, 0), data)
    ensures Metas(u.Read(e)) == e.owned.bucket.items
  {
    hide Payload, Holds, Extracted, Named, InBuffer, TotalSize, RangesSize, Metas, RangesIn, Update.PoolIn,
         Update.Source;
    var pool, b := u.PoolIn(u.Source(e)), e.owned.bucket;
    assert RangesIn(pool, b.ranges);
    assert |Payload(pool, b.ranges)| == RangesSize(b.ranges);
    AnyBytesHold(b.items, Payload(pool, b.ranges));
  }

  lemma ScheduleEntries(entries: seq<Entry>)
    ensures var rounds := Schedule(entries);
            && multiset(EntriesOf(rounds)) == multiset(entries)
            && (forall g :: 0 <= g < |rounds| ==> rounds[g].entry in entries)
            && (forall g, k :: 0 <= g < k < |rounds| ==> InOrder(rounds[g], rounds[k]))
  {
    var key := (e: Entry) => e.receiver;
    var rows := Rows(entries, key);
    var rounds := RoundsOf(rows, MaxLen(rows));
    RowsKeyed(entries, key);
    RoundsInOrder(rows, Keys(entries, key), MaxLen(rows));
    RoundsEntries(rows, MaxLen(rows));
    GroupedColumnMajor(entries, key, 0);
    forall g | 0 <= g < |rounds| ensures rounds[g].entry in entries {
      assert EntriesOf(rounds)[g] in multiset(EntriesOf(rounds));
      assert rounds[g].entry in multiset(entries);
    }
  }

  /** Rounds go to different ranks or come in column order. */
  lemma ScheduleOrdered(u: Update, entries: seq<Entry>, buckets: seq<Owned>, cuts: seq<seq<H2DBucket>>)
    requires u.Scheduled(entries, buckets, cuts)
    ensures var cfg := u.Configure(entries);
            cfg.n > 0 && cfg.Ordered() && forall g :: 0 <= g < |cfg.jobs| ==> cfg.jobs[g].receiver < cfg.n
  {
    var cfg, rounds := u.Configure(entries), Schedule(entries);
    ScheduleEntries(entries);
    hide Schedule, CutOwners, RegisteredOwner, Update.Read, Update.Readable, Update.Source, Update.PoolIn;
    forall g | 0 <= g < |cfg.jobs| ensures rounds[g].entry.receiver in u.index && cfg.jobs[g] == u.JobOf(rounds[g]) {
      var i :| 0 <= i < |entries| && entries[i] == rounds[g].entry;
    }
    forall g, k | 0 <= g < k < |cfg.jobs|
      ensures cfg.jobs[g].column < cfg.jobs[k].column
           || (cfg.jobs[g].column == cfg.jobs[k].column && cfg.jobs[g].receiver != cfg.jobs[k].receiver)
    {
      assert InOrder(rounds[g], rounds[k]);
    }
  }

  /** A schedule whose buckets can all be read meets everything that the protocol relies on. */
  lemma ScheduledIsValid(u: Update, entries: seq<Entry>, buckets: seq<Owned>, cuts: seq<seq<H2DBucket>>)
    requires u.Scheduled(entries, buckets, cuts) && forall e :: e in entries ==> u.Readable(e)
    ensures u.Configure(entries).Valid()
  {
    var cfg, rounds := u.Configure(entries), Schedule(entries);
    ConfiguredJobs(u, entries);
    hide Schedule, Holds, Update.Scheduled, Update.Readable, Config.Ordered, InOrder, Update.Configure, Update.JobOf;
    ScheduleOrdered(u, entries, buckets, cuts);
    ScheduleEntries(entries);
    forall g | 0 <= g < |cfg.jobs|
      ensures cfg.jobs[g].readable && |cfg.jobs[g].data| <= cfg.bucketSize
              && Holds(cfg.jobs[g].data, cfg.jobs[g].tensors)
    {
      EntrySized(u, entries, buckets, cuts, rounds[g].entry);
      JobHeld(u, rounds[g]);
    }
  }

  lemma ConfiguredJobs(u: Update, entries: seq<Entry>)
    ensures var cfg := u.Configure(entries);
            && cfg.n == u.n && cfg.bucketSize == u.bucketSize && |cfg.jobs| == |Schedule(entries)|
            && forall g :: 0 <= g < |cfg.jobs| ==> cfg.jobs[g] == u.JobOf(Schedule(entries)[g])
  {
    hide Schedule, Update.JobOf;
  }

  lemma JobHeld(u: Update, r: Round)
    requires Sized(u.bucketSize, r.entry.owned.bucket) && u.Readable(r.entry)
    ensures var job := u.JobOf(r); job.readable && |job.data| <= u.bucketSize && Holds(job.data, job.tensors)
  {
    ReadIsHeld(u, r.entry);
    hide Holds, Payload, Sized, Update.Read, Update.Source, Update.PoolIn;
  }

  lemma {:induction false} DeliveredRounds(u: Update, cfg: Config, rounds: seq<Round>, g: nat)
    requires cfg.jobs == u.Jobs(rounds) && g <= |rounds|
    ensures Delivered(cfg, g) == FlatMap(EntriesOf(rounds)[..g], (e: Entry) => u.Read(e))
  {
    hide Update.Read, Update.Readable;
    if g > 0 {
      DeliveredRounds(u, cfg, rounds, g - 1);
      var es := EntriesOf(rounds);
      var f := (e: Entry) => u.Read(e);
      assert es[..g] == es[..g - 1] + [es[g - 1]];
      FlatMapConcat(es[..g - 1], [es[g - 1]], f);
      assert [es[g - 1]][1..] == [];
      assert cfg.jobs[g - 1] == u.JobOf(rounds[g - 1]);
    }
  }

  /** All rounds together deliver what is copied, bucket after bucket. */
  lemma DeliversCopied(u: Update, entries: seq<Entry>)
    ensures var cfg := u.Configure(entries); Delivered(cfg, |cfg.jobs|) == u.Copied(entries)
  {
    var rounds := Schedule(entries);
    hide Schedule, Update.Read, Update.JobOf;
    DeliveredRounds(u, u.Configure(entries), rounds, |rounds|);
    assert EntriesOf(rounds)[..|rounds|] == EntriesOf(rounds);
  }

  lemma {:induction false} FlatMapOwned(entries: seq<Entry>, owners: seq<Owner>)
    ensures FlatMap(entries, (e: Entry) => Carried(owners, e.owned))
            == FlatMap(OwnedOf(entries), (o: Owned) => Carried(owners, o))
  {
    if entries != [] {
      FlatMapOwned(entries[1..], owners);
      assert OwnedOf(entries)[1..] == OwnedOf(entries[1..]);
    }
  }

  /** What should be loaded is every registered tensor of every owner exactly once. */
  lemma ExpectedIsRegistered(u: Update, entries: seq<Entry>, buckets: seq<Owned>, cuts: seq<seq<H2DBucket>>)
    requires u.Scheduled(entries, buckets, cuts)
    ensures multiset(u.Expected(entries)) == multiset(Registered(u.owners))
    ensures forall e :: e in entries ==> RangesIn(PoolOf(u.owners, e.owned.owner), e.owned.bucket.ranges)
  {
    var es := EntriesOf(Schedule(entries));
    var f := (e: Entry) => Carried(u.owners, e.owned);
    var h := (o: Owned) => Carried(u.owners, o);
    ScheduleEntries(entries);
    hide Schedule, RegisteredOwner, Content, FlatMap, Registered, CutOwners, InOrder;
    FlattenMapPermutation(es, entries, f);
    FlatMapOwned(entries, u.owners);
    FlattenMapPermutation(OwnedOf(entries), buckets, h);
    assert u.owners[..|u.owners|] == u.owners;
    CutsCarry(u.owners, |u.owners|, u.bucketSize, buckets, cuts);
    forall e | e in entries ensures RangesIn(PoolOf(u.owners, e.owned.owner), e.owned.bucket.ranges) {
      var k := EntryBucket(entries, buckets, e);
      assert Carries(PoolOf(u.owners, buckets[k].owner), buckets[k].bucket);
    }
  }

  lemma {:induction false} FlatMapSame(es: seq<Entry>, f: Entry -> seq<Tensor>, h: Entry -> seq<Tensor>)
    requires forall e :: e in es ==> f(e) == h(e)
    ensures FlatMap(es, f) == FlatMap(es, h)
  {
    if es != [] {
      FlatMapSame(es[1..], f, h);
    }
  }

  /** Buckets copied from their owners are read as what was registered. */
  lemma FromOwnersCopied(u: Update, entries: seq<Entry>)
    requires u.FromOwners(entries)
    ensures u.Copied(entries) == u.Expected(entries)
  {
    ScheduleEntries(entries);
    hide Schedule, InOrder, Content;
    var es := EntriesOf(Schedule(entries));
    forall e | e in es ensures u.Read(e) == Carried(u.owners, e.owned) {
      var g :| 0 <= g < |es| && es[g] == e;
      var i :| 0 <= i < |entries| && entries[i] == e;
    }
    FlatMapSame(es, (e: Entry) => u.Read(e), (e: Entry) => Carried(u.owners, e.owned));
  }

  /** A planned update meets what the protocol relies on, and its rounds deliver every registered tensor of every owner
      exactly once. */
  lemma PlannedDelivers(u: Update, entries: seq<Entry>, buckets: seq<Owned>, cuts: seq<seq<H2DBucket>>)
    requires u.Planned(entries, buckets, cuts)
    ensures u.Configure(entries).Valid()
    ensures var cfg := u.Configure(entries);
            && Delivered(cfg, |cfg.jobs|) == u.Expected(entries)
            && multiset(Delivered(cfg, |cfg.jobs|)) == multiset(Registered(u.owners))
  {
    ExpectedIsRegistered(u, entries, buckets, cuts);
    forall e | e in entries ensures u.Readable(e) {
      var i :| 0 <= i < |entries| && entries[i] == e;
    }
    hide Update.Scheduled, Update.Readable, Update.Expected, Update.Copied, Update.Configure, Delivered, Registered;
    ScheduledIsValid(u, entries, buckets, cuts);
    DeliversCopied(u, entries);
    FromOwnersCopied(u, entries);
  }

  /** End to end, for every interleaving: the update is bounded, and when it can go no further every worker has loaded
      every tensor of every owner exactly once, with the registered name, type, shape and bytes. */
  lemma {:induction false} EveryWorkerGetsEverything(u: Update, entries: seq<Entry>, buckets: seq<Owned>,
                                                     cuts: seq<seq<H2DBucket>>, init: State, steps: seq<Step>, s: State)
    requires u.Planned(entries, buckets, cuts)
    requires Initial(u.Configure(entries), init) && Runs(u.Configure(entries), init, steps, s)
    ensures var cfg := u.Configure(entries);
            && cfg.n == u.n && |steps| <= MostSteps(cfg)
            && ((forall step :: !Enabled(cfg, s, step)) ==>
                  |s| == cfg.n && forall r :: 0 <= r < cfg.n ==>
                    s[r].ended && multiset(s[r].loaded) == multiset(Registered(u.owners)))
  {
    assert u.Configure(entries).n == u.n;
    hide *;
    PlannedDelivers(u, entries, buckets, cuts);
    UpdateCompletes(u.Configure(entries), init, steps, s);
    CompletedLoads(u.Configure(entries), s);
  }

  lemma {:induction false} CompletedLoads(cfg: Config, s: State)
    ensures Completed(cfg, s) ==>
      |s| == cfg.n && forall r :: 0 <= r < cfg.n ==> s[r].ended && s[r].loaded == Delivered(cfg, |cfg.jobs|)
  {
  }
}
