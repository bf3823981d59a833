/** Exactly when an update delivers the registered bytes, whatever they are: when every bucket is copied from the memory
    that its owner registered. Without the staging buffer `_copy_to_buffer` reads the receiver's own pool
    (checkpoint_engine/ps.py), so a peer-to-peer update then depends on who the receivers are. */
module DeliveryExact {
  import opened Sequences
  import opened Tensors
  import opened ParameterServer
  import opened Worker
  import opened Grouping
  import opened BucketSchedule
  import opened UpdateProtocol
  import opened Delivery

  // ----- Delivery, as a statement about runs -----

  /** A run that can go no further. */
  ghost predicate FullRun(cfg: Config, init: State, steps: seq<Step>, s: State)
  {
    Initial(cfg, init) && Runs(cfg, init, steps, s) && forall step :: !Enabled(cfg, s, step)
  }

  /** Every rank has finished, and its worker has loaded the registered tensors of all buckets, in the scheduled
      order. */
  ghost predicate LoadedRight(u: Update, entries: seq<Entry>, s: State)
  {
    var cfg := u.Configure(entries);
    && |s| == cfg.n
    && forall r :: 0 <= r < cfg.n ==> Done(cfg, s[r]) && s[r].ended && s[r].loaded == u.Expected(entries)
  }

  /** The update can finish, and whenever it can go no further everything has been loaded right. */
  ghost predicate Delivers(u: Update, entries: seq<Entry>)
  {
    && (exists init, steps, s :: FullRun(u.Configure(entries), init, steps, s))
    && (forall init, steps, s :: FullRun(u.Configure(entries), init, steps, s) ==> LoadedRight(u, entries, s))
  }

  /** A completed state can go no further. */
  lemma CompletedIsFull(cfg: Config, s: State)
    requires cfg.Valid() && Inv(cfg, s) && Completed(cfg, s)
    ensures forall step :: !Enabled(cfg, s, step)
  {
    forall r | 0 <= r < |s| ensures Done(cfg, s[r]) && s[r].chan.Idle? && !s[r].inFlight {
      assert RankOk(cfg, r, s[r]);
    }
  }

  lemma SomeFullRun(cfg: Config) returns (init: State, steps: seq<Step>, s: State)
    requires cfg.Valid()
    ensures FullRun(cfg, init, steps, s) && Completed(cfg, s)
  {
    hide Runs, Enabled, Completed, Inv, Config.Valid;
    init, steps, s := SomeRunCompletes(cfg);
    InitialInv(cfg, init);
    ReachableInv(cfg, init, steps, s);
    CompletedIsFull(cfg, s);
  }

  /** When every bucket can be read, the workers load what was copied, so delivery is a matter of the copies. */
  lemma ReadableDelivers(u: Update, entries: seq<Entry>, buckets: seq<Owned>, cuts: seq<seq<H2DBucket>>)
    requires u.Scheduled(entries, buckets, cuts) && forall e :: e in entries ==> u.Readable(e)
    ensures Delivers(u, entries) <==> u.Copied(entries) == u.Expected(entries)
  {
    hide Update.Scheduled, Update.Readable, Update.Copied, Update.Expected, Update.Configure, Runs, Enabled, Initial,
         Config.Valid;
    var cfg := u.Configure(entries);
    ScheduledIsValid(u, entries, buckets, cuts);
    DeliversCopied(u, entries);
    forall init: State, steps: seq<Step>, s: State | FullRun(cfg, init, steps, s)
      ensures LoadedRight(u, entries, s) <==> u.Copied(entries) == u.Expected(entries)
    {
      UpdateCompletes(cfg, init, steps, s);
      assert Completed(cfg, s);
      assert cfg.n > 0 by { ValidSize(cfg); }
      assert s[0].loaded == u.Copied(entries);
    }
    var init, steps, s := SomeFullRun(cfg);
  }

  lemma ValidSize(cfg: Config)
    requires cfg.Valid()
    ensures cfg.n > 0
  {
  }

  /** A bucket whose ranges are not in its source keeps the update from finishing. */
  lemma UnreadableFails(u: Update, entries: seq<Entry>, buckets: seq<Owned>, cuts: seq<seq<H2DBucket>>, e: Entry)
    requires u.Scheduled(entries, buckets, cuts) && e in entries && !u.Readable(e)
    ensures !Delivers(u, entries)
  {
    var cfg, rounds := u.Configure(entries), Schedule(entries);
    ScheduleOrdered(u, entries, buckets, cuts);
    var g := RoundOf(entries, e);
    assert cfg.jobs[g] == u.JobOf(rounds[g]) && !cfg.jobs[g].readable;
    hide Update.Scheduled, Update.Readable, Update.Expected, Update.Configure, Runs, Enabled, Initial, Config.Ordered,
         Schedule;
    if init, steps, s :| FullRun(cfg, init, steps, s) {
      UnreadableStops(cfg, g, init, steps, s);
      assert !LoadedRight(u, entries, s);
    }
  }

  lemma RoundOf(entries: seq<Entry>, e: Entry) returns (g: nat)
    requires e in entries
    ensures g < |Schedule(entries)| && Schedule(entries)[g].entry == e
  {
    ScheduleEntries(entries);
    hide Schedule, InOrder;
    var es := EntriesOf(Schedule(entries));
    assert e in multiset(entries) && e in multiset(es);
    g :| 0 <= g < |es| && es[g] == e;
  }

  // ----- Other contents of the same memories -----

  ghost predicate SameSizes(a: seq<seq<byte>>, b: seq<seq<byte>>)
  {
    |a| == |b| && forall i :: 0 <= i < |a| ==> |a[i]| == |b[i]|
  }

  ghost predicate SameMemory(a: Memory, b: Memory)
  {
    (a.OfOwner? && a == b) || (a.Foreign? && b.Foreign? && SameSizes(a.pool, b.pool))
  }

  /** `v` is the same update over the same memories: only the bytes in them, and so in the registered tensors,
      differ. */
  ghost predicate SameLayout(u: Update, v: Update)
  {
    && v == u.(owners := v.owners, local := v.local)
    && |v.owners| == |u.owners|
    && (forall k :: 0 <= k < |u.owners| ==>
         && v.owners[k].rank == u.owners[k].rank && MetaLists(v.owners[k].pool) == MetaLists(u.owners[k].pool)
         && RegisteredOwner(v.owners[k]))
    && v.local.Keys == u.local.Keys
    && (forall r :: r in u.local ==> SameMemory(u.local[r], v.local[r]))
  }

  lemma LayoutKeeps(u: Update, v: Update, entries: seq<Entry>, buckets: seq<Owned>, cuts: seq<seq<H2DBucket>>)
    requires SameLayout(u, v) && u.Scheduled(entries, buckets, cuts)
    ensures v.Scheduled(entries, buckets, cuts) && (u.FromOwners(entries) ==> v.FromOwners(entries))
  {
    hide CutOwners, RegisteredOwner;
    assert Gathered(v.owners) == Gathered(u.owners);
    if u.FromOwners(entries) {
      forall i | 0 <= i < |entries| ensures v.Source(entries[i]) == OfOwner(entries[i].owned.owner) {
        assert u.Source(entries[i]) == OfOwner(entries[i].owned.owner);
      }
    }
  }

  // ----- Telling one owner's memory from all others -----

  ghost predicate AllAre(data: seq<byte>, x: byte)
  {
    forall i :: 0 <= i < |data| ==> data[i] == x
  }

  ghost predicate PoolIs(pool: seq<seq<byte>>, x: byte)
  {
    forall i :: 0 <= i < |pool| ==> AllAre(pool[i], x)
  }

  function MarkTensors(ts: seq<Tensor>, x: byte): (r: seq<Tensor>)
    ensures |r| == |ts|
  {
    seq(|ts|, k requires 0 <= k < |ts| => Tensor(ts[k].meta, Repeat(x, NBytes(ts[k].meta))))
  }

  function MarkPool(pool: seq<MemoryBuffer>, x: byte): (r: seq<MemoryBuffer>)
    ensures |r| == |pool|
  {
    seq(|pool|, k requires 0 <= k < |pool| => MemoryBuffer(pool[k].metas, Repeat(x, |pool[k].buffer|)))
  }

  /** The owner with every byte of its memory and of its tensors set to x. */
  function MarkOwner(o: Owner, x: byte): Owner
  {
    Owner(o.rank, MarkPool(o.pool, x), MarkTensors(o.params, x))
  }

  function MarkMemory(m: Memory): Memory
  {
    match m
    case OfOwner(_) => m
    case Foreign(pool) => Foreign(seq(|pool|, k requires 0 <= k < |pool| => Repeat(0, |pool[k]|)))
  }

  /** The same update with 1 in every byte of one owner's memory and 0 in all others. */
  function Marked(u: Update, owner: nat): Update
  {
    u.(owners := seq(|u.owners|, k requires 0 <= k < |u.owners| =>
                     MarkOwner(u.owners[k], if u.owners[k].rank == owner then 1 else 0)),
       local := map r | r in u.local :: MarkMemory(u.local[r]))
  }

  lemma {:induction false} FlattenAllAre(pool: seq<seq<byte>>, x: byte)
    requires PoolIs(pool, x)
    ensures AllAre(Flatten(pool), x)
  {
    if pool != [] {
      assert AllAre(pool[0], x);
      forall i | 0 <= i < |pool[1..]| ensures AllAre(pool[1..][i], x) {
        assert AllAre(pool[i + 1], x);
      }
      FlattenAllAre(pool[1..], x);
    }
  }

  lemma MarkHolds(data: seq<byte>, ts: seq<Tensor>, x: byte)
    requires AllAre(data, x) && |data| == TotalSize(Metas(ts))
    ensures Holds(data, MarkTensors(ts, x))
  {
    hide TotalSize, NBytes;
    var ms := MarkTensors(ts, x);
    assert Metas(ms) == Metas(ts);
    forall k | 0 <= k < |ms| ensures StandsAt(data, Offset(Metas(ms), k), ms[k]) {
      ItemInside(Metas(ts), k);
      var o, n := Offset(Metas(ms), k), NBytes(ts[k].meta);
      assert data[o..o + n] == Repeat(x, n);
    }
  }

  lemma MarkRegisters(o: Owner, x: byte)
    requires RegisteredOwner(o)
    ensures RegisteredOwner(MarkOwner(o, x)) && MetaLists(MarkOwner(o, x).pool) == MetaLists(o.pool)
    ensures PoolIs(Buffers(MarkOwner(o, x).pool), x)
  {
    hide TotalSize, Flatten, NBytes, Holds;
    var v := MarkOwner(o, x);
    assert MetaLists(v.pool) == MetaLists(o.pool);
    assert Metas(v.params) == Metas(o.params);
    assert PoolFits(MetaLists(v.pool), Buffers(v.pool));
    BaseIsLength(MetaLists(v.pool), Buffers(v.pool), |v.pool|);
    assert Buffers(v.pool)[..|v.pool|] == Buffers(v.pool) && MetaLists(v.pool)[..|v.pool|] == MetaLists(v.pool);
    FlattenAllAre(Buffers(v.pool), x);
    MarkHolds(Stream(Buffers(v.pool)), o.params, x);
  }

  lemma MarkedLayout(u: Update, owner: nat)
    requires forall k :: 0 <= k < |u.owners| ==> RegisteredOwner(u.owners[k])
    ensures SameLayout(u, Marked(u, owner))
  {
    hide RegisteredOwner;
    var v := Marked(u, owner);
    forall k | 0 <= k < |u.owners|
      ensures RegisteredOwner(v.owners[k]) && MetaLists(v.owners[k].pool) == MetaLists(u.owners[k].pool)
    {
      MarkRegisters(u.owners[k], if u.owners[k].rank == owner then 1 else 0);
    }
  }

  lemma {:induction false} PoolOfOther(owners: seq<Owner>, owner: nat, rank: nat)
    requires forall k :: 0 <= k < |owners| && owners[k].rank != owner ==> PoolIs(Buffers(owners[k].pool), 0)
    requires rank != owner
    ensures PoolIs(PoolOf(owners, rank), 0)
  {
    hide PoolIs;
    if owners == [] {
      NoPool();
    } else {
      PoolOfOther(owners[..|owners| - 1], owner, rank);
    }
  }

  lemma NoPool()
    ensures PoolIs([], 0)
  {
  }

  lemma {:induction false} PoolOfMarked(owners: seq<Owner>, owner: nat, x: byte)
    requires forall k :: 0 <= k < |owners| && owners[k].rank == owner ==> PoolIs(Buffers(owners[k].pool), x)
    ensures PoolIs(PoolOf(owners, owner), x)
  {
    hide PoolIs;
    if owners == [] {
      assert PoolOf(owners, owner) == [];
      EmptyPool(x);
    } else {
      PoolOfMarked(owners[..|owners| - 1], owner, x);
    }
  }

  lemma EmptyPool(x: byte)
    ensures PoolIs([], x)
  {
  }

  /** In the marked update, whatever is not the owner's memory reads as 0. */
  lemma {:induction false} MarkedMemories(u: Update, owner: nat, e: Entry)
    requires forall k :: 0 <= k < |u.owners| ==> RegisteredOwner(u.owners[k])
    ensures var v := Marked(u, owner);
            && PoolIs(PoolOf(v.owners, owner), 1)
            && (u.Source(e) != OfOwner(owner) ==> PoolIs(v.PoolIn(v.Source(e)), 0))
  {
    hide RegisteredOwner, PoolOf;
    var v := Marked(u, owner);
    forall k | 0 <= k < |u.owners|
      ensures PoolIs(Buffers(v.owners[k].pool), if u.owners[k].rank == owner then 1 else 0)
    {
      MarkRegisters(u.owners[k], if u.owners[k].rank == owner then 1 else 0);
    }
    PoolOfMarked(v.owners, owner, 1);
    if v.Source(e).OfOwner? && u.Source(e) != OfOwner(owner) {
      PoolOfOther(v.owners, owner, v.Source(e).owner);
    }
  }

  lemma {:induction false} PayloadAllAre(pool: seq<seq<byte>>, rs: seq<BucketRange>, x: byte)
    requires PoolIs(pool, x) && RangesIn(pool, rs)
    ensures AllAre(Payload(pool, rs), x)
    decreases |rs|
  {
    if rs != [] {
      PayloadAllAre(pool, rs[..|rs| - 1], x);
      assert AllAre(pool[rs[|rs| - 1].idx], x);
    }
  }

  lemma {:induction false} SomeBytes(metas: seq<ParameterMeta>) returns (k: nat)
    requires TotalSize(metas) > 0
    ensures k < |metas| && NBytes(metas[k]) > 0
  {
    if NBytes(metas[0]) > 0 {
      k := 0;
    } else {
      assert AlignSize(metas[0]) == 0;
      k := SomeBytes(metas[1..]);
      k := k + 1;
    }
  }

  /** Different marks are read as different tensors. */
  lemma MarksDiffer(p: seq<seq<byte>>, q: seq<seq<byte>>, b: H2DBucket, bucketSize: nat)
    requires Sized(bucketSize, b) && RangesIn(p, b.ranges) && RangesIn(q, b.ranges)
    requires PoolIs(p, 0) && PoolIs(q, 1)
    ensures Content(p, b) != Content(q, b)
  {
    PayloadAllAre(p, b.ranges, 0);
    PayloadAllAre(q, b.ranges, 1);
    AnyBytesHold(b.items, Payload(p, b.ranges));
    AnyBytesHold(b.items, Payload(q, b.ranges));
    var k := SomeBytes(b.items);
    hide TotalSize, NBytes, Payload, PoolIs, RangesIn, Holds;
    assert Content(p, b)[k].bytes[0] == 0 && Content(q, b)[k].bytes[0] == 1;
  }

  lemma {:induction false} FlatMapEach(es: seq<Entry>, f: Entry -> seq<Tensor>, h: Entry -> seq<Tensor>, g: nat)
    requires FlatMap(es, f) == FlatMap(es, h) && forall e :: e in es ==> |f(e)| == |h(e)|
    requires g < |es|
    ensures f(es[g]) == h(es[g])
  {
    var a, b := FlatMap(es[1..], f), FlatMap(es[1..], h);
    assert f(es[0]) == (f(es[0]) + a)[..|f(es[0])|] == (h(es[0]) + b)[..|f(es[0])|] == h(es[0]);
    assert a == (f(es[0]) + a)[|f(es[0])|..] == (h(es[0]) + b)[|f(es[0])|..] == b;
    if g > 0 {
      FlatMapEach(es[1..], f, h, g - 1);
    }
  }

  // ----- The exact condition -----

  /** The marked update does not deliver if some bucket of the marked owner is copied from elsewhere. */
  lemma MarkedFails(u: Update, entries: seq<Entry>, buckets: seq<Owned>, cuts: seq<seq<H2DBucket>>, e: Entry)
    requires u.Scheduled(entries, buckets, cuts) && e in entries && u.Source(e) != OfOwner(e.owned.owner)
    ensures SameLayout(u, Marked(u, e.owned.owner)) && !Delivers(Marked(u, e.owned.owner), entries)
  {
    var v := Marked(u, e.owned.owner);
    MarkedLayout(u, e.owned.owner);
    LayoutKeeps(u, v, entries, buckets, cuts);
    MarkedMemories(u, e.owned.owner, e);
    hide Update.Scheduled, Update.Readable, Marked, SameLayout, Delivers;
    if bad :| bad in entries && !v.Readable(bad) {
      UnreadableFails(v, entries, buckets, cuts, bad);
    } else {
      ReadableDelivers(v, entries, buckets, cuts);
      CopiedDiffers(v, entries, buckets, cuts, e);
    }
  }

  lemma CopiedDiffers(v: Update, entries: seq<Entry>, buckets: seq<Owned>, cuts: seq<seq<H2DBucket>>, e: Entry)
    requires v.Scheduled(entries, buckets, cuts) && e in entries && forall d :: d in entries ==> v.Readable(d)
    requires PoolIs(v.PoolIn(v.Source(e)), 0) && PoolIs(PoolOf(v.owners, e.owned.owner), 1)
    ensures v.Copied(entries) != v.Expected(entries)
  {
    hide *;
    ReadDiffers(v, entries, buckets, cuts, e);
    SameCounts(v, entries, buckets, cuts);
    var g := RoundOf(entries, e);
    ScheduleUses(entries);
    if v.Copied(entries) == v.Expected(entries) {
      CopiedEach(v, entries, g);
      assert false;
    }
  }

  lemma ScheduleUses(entries: seq<Entry>)
    ensures forall e :: e in EntriesOf(Schedule(entries)) ==> e in entries
  {
    ScheduleEntries(entries);
    hide Schedule, InOrder;
    forall e | e in EntriesOf(Schedule(entries)) ensures e in entries {
      var g :| 0 <= g < |Schedule(entries)| && EntriesOf(Schedule(entries))[g] == e;
    }
  }

  lemma ReadDiffers(v: Update, entries: seq<Entry>, buckets: seq<Owned>, cuts: seq<seq<H2DBucket>>, e: Entry)
    requires v.Scheduled(entries, buckets, cuts) && e in entries && v.Readable(e)
    requires PoolIs(v.PoolIn(v.Source(e)), 0) && PoolIs(PoolOf(v.owners, e.owned.owner), 1)
    ensures v.Read(e) != Carried(v.owners, e.owned)
  {
    ExpectedIsRegistered(v, entries, buckets, cuts);
    EntrySized(v, entries, buckets, cuts, e);
    hide Update.Scheduled, Content, PoolIs, Update.PoolIn, RangesIn, Sized;
    MarksDiffer(v.PoolIn(v.Source(e)), PoolOf(v.owners, e.owned.owner), e.owned.bucket, v.bucketSize);
  }

  lemma SameCounts(v: Update, entries: seq<Entry>, buckets: seq<Owned>, cuts: seq<seq<H2DBucket>>)
    requires v.Scheduled(entries, buckets, cuts) && forall d :: d in entries ==> v.Readable(d)
    ensures forall d :: d in entries ==> |v.Read(d)| == |Carried(v.owners, d.owned)|
  {
    ExpectedIsRegistered(v, entries, buckets, cuts);
    hide Update.Scheduled, Update.Readable, Update.Read, Carried, RangesIn, Sized, PoolOf;
    forall d | d in entries ensures |v.Read(d)| == |Carried(v.owners, d.owned)| {
      EntrySized(v, entries, buckets, cuts, d);
      SameCount(v, d);
    }
  }

  lemma CopiedEach(v: Update, entries: seq<Entry>, g: nat)
    requires v.Copied(entries) == v.Expected(entries) && g < |Schedule(entries)|
    requires forall e :: e in EntriesOf(Schedule(entries)) ==> |v.Read(e)| == |Carried(v.owners, e.owned)|
    ensures var e := Schedule(entries)[g].entry; v.Read(e) == Carried(v.owners, e.owned)
  {
    hide Schedule, FlatMap, Update.Read, Carried;
    FlatMapEach(EntriesOf(Schedule(entries)), (e: Entry) => v.Read(e), (e: Entry) => Carried(v.owners, e.owned), g);
  }

  lemma SameCount(v: Update, d: Entry)
    requires Sized(v.bucketSize, d.owned.bucket) && v.Readable(d)
    requires RangesIn(PoolOf(v.owners, d.owned.owner), d.owned.bucket.ranges)
    ensures |v.Read(d)| == |Carried(v.owners, d.owned)|
  {
    ReadIsHeld(v, d);
    hide TotalSize, NBytes, RangesIn, Update.PoolIn;
    AnyBytesHold(d.owned.bucket.items, Payload(PoolOf(v.owners, d.owned.owner), d.owned.bucket.ranges));
  }

  /** An update delivers the registered tensors, whatever bytes the memories hold, exactly if every bucket is copied
      from the memory that its owner registered: by `Source`, always in peer-to-peer mode with the staging buffer, and
      otherwise when the receiver is the process that holds the owner's memory. */
  lemma DeliversIff(u: Update, entries: seq<Entry>, buckets: seq<Owned>, cuts: seq<seq<H2DBucket>>)
    requires u.Scheduled(entries, buckets, cuts)
    ensures (forall v :: SameLayout(u, v) ==> Delivers(v, entries)) <==> u.FromOwners(entries)
  {
    hide Update.Scheduled, SameLayout, Delivers;
    if u.FromOwners(entries) {
      forall v | SameLayout(u, v) ensures Delivers(v, entries) {
        LayoutKeeps(u, v, entries, buckets, cuts);
        FromOwnersDelivers(v, entries, buckets, cuts);
      }
    } else {
      var i :| 0 <= i < |entries| && u.Source(entries[i]) != OfOwner(entries[i].owned.owner);
      MarkedFails(u, entries, buckets, cuts, entries[i]);
    }
  }

  lemma FromOwnersDelivers(u: Update, entries: seq<Entry>, buckets: seq<Owned>, cuts: seq<seq<H2DBucket>>)
    requires u.Scheduled(entries, buckets, cuts) && u.FromOwners(entries)
    ensures Delivers(u, entries)
  {
    ExpectedIsRegistered(u, entries, buckets, cuts);
    forall e | e in entries ensures u.Readable(e) {
      var i :| 0 <= i < |entries| && entries[i] == e;
    }
    hide *;
    FromOwnersCopied(u, entries);
    ReadableDelivers(u, entries, buckets, cuts);
  }

  /** The condition for each mode. A peer-to-peer update with the staging buffer always delivers; every other update
      does exactly if every bucket is given to the process that holds its owner's memory. */
  lemma ModeDeliversIff(u: Update, entries: seq<Entry>, buckets: seq<Owned>, cuts: seq<seq<H2DBucket>>)
    requires u.Scheduled(entries, buckets, cuts)
    ensures (forall v :: SameLayout(u, v) ==> Delivers(v, entries)) <==> (u.p2p && u.h2d) || HeldByReceivers(u, entries)
  {
    hide Update.Scheduled, SameLayout, Delivers;
    DeliversIff(u, entries, buckets, cuts);
    if !(u.p2p && u.h2d) {
      forall i | 0 <= i < |entries|
        ensures u.Source(entries[i]) == OfOwner(entries[i].owned.owner) <==>
                entries[i].receiver in u.local && u.local[entries[i].receiver] == OfOwner(entries[i].owned.owner)
      {
      }
    }
  }

  /** The receiver of every bucket is the process whose memory the bucket's owner registered. */
  predicate HeldByReceivers(u: Update, entries: seq<Entry>)
  {
    forall i :: 0 <= i < |entries| ==>
      entries[i].receiver in u.local && u.local[entries[i].receiver] == OfOwner(entries[i].owned.owner)
  }

  // ----- An update that loads the wrong bytes -----

  lemma {:induction false} OneKey(entries: seq<Entry>, r: nat)
    requires entries != [] && forall i :: 0 <= i < |entries| ==> entries[i].receiver == r
    ensures var key := (e: Entry) => e.receiver; Keys(entries, key) == [r] && Filter(entries, key, r) == entries
  {
    var init, key := entries[..|entries| - 1], (e: Entry) => e.receiver;
    if init != [] {
      OneKey(init, r);
    }
    assert entries == init + [entries[|entries| - 1]];
  }

  lemma {:induction false} OneCell(entries: seq<Entry>, c: nat)
    requires c < |entries|
    ensures Column([entries], c) == [entries[c]]
  {
    var rows := [entries];
    assert rows[..0] == [] && rows[|rows| - 1] == entries;
    assert Column(rows, c) == Column(rows[..0], c) + Cell(entries, c);
  }

  lemma {:induction false} OneColumn(entries: seq<Entry>, n: nat)
    requires n <= |entries|
    ensures ColumnMajor([entries], n) == entries[..n]
  {
    hide ColumnMajor, Column;
    if n == 0 {
      NoColumns([entries]);
    } else {
      OneColumn(entries, n - 1);
      OneCell(entries, n - 1);
      ColumnMajorStep([entries], n);
    }
  }

  /** A single receiver sends its buckets in order. */
  lemma OneReceiver(entries: seq<Entry>, r: nat)
    requires entries != [] && forall i :: 0 <= i < |entries| ==> entries[i].receiver == r
    ensures EntriesOf(Schedule(entries)) == entries
  {
    var key := (e: Entry) => e.receiver;
    OneKey(entries, r);
    assert Rows(entries, key) == [entries];
    assert MaxLen([entries]) == |entries| by { assert [entries][..0] == []; }
    RoundsEntries([entries], |entries|);
    OneColumn(entries, |entries|);
    assert entries[..|entries|] == entries;
  }

  const BYTE: DType := DType("uint8", 1)

  /** A parameter of one byte, the owner that registered it with value x, and its bucket. */
  function ByteMeta(name: string): ParameterMeta { ParameterMeta(name, BYTE, [1]) }

  function ByteTensor(name: string, x: byte): Tensor { Tensor(ByteMeta(name), [x]) }

  function ByteOwner(rank: nat, name: string, x: byte): (o: Owner)
    ensures o.rank == rank
  {
    Owner(rank, [MemoryBuffer([ByteMeta(name)], Repeat(x, 256))], [ByteTensor(name, x)])
  }

  function ByteBucket(name: string): H2DBucket { H2DBucket(256, [BucketRange(0, 0, 256)], [ByteMeta(name)]) }

  lemma ByteSizes(name: string)
    ensures NBytes(ByteMeta(name)) == 1 && AlignSize(ByteMeta(name)) == 256
    ensures TotalSize([ByteMeta(name)]) == 256 && Offset([ByteMeta(name)], 0) == 0
    ensures Flatten([[ByteMeta(name)]]) == [ByteMeta(name)]
  {
    assert [1][1..] == [] && Numel([1][1..]) == 1;
    assert Numel([1]) == 1;
    assert [ByteMeta(name)][1..] == [];
    assert [[ByteMeta(name)]][1..] == [];
  }

  lemma ByteOwnerRegistered(rank: nat, name: string, x: byte)
    ensures RegisteredOwner(ByteOwner(rank, name, x)) && MetaLists(ByteOwner(rank, name, x).pool) == [[ByteMeta(name)]]
    ensures Buffers(ByteOwner(rank, name, x).pool) == [Repeat(x, 256)]
  {
    ByteSizes(name);
    hide TotalSize, NBytes, AlignSize;
    var o := ByteOwner(rank, name, x);
    assert MetaLists(o.pool) == [[ByteMeta(name)]];
    assert Buffers(o.pool) == [Repeat(x, 256)];
    assert [Repeat(x, 256)][1..] == [];
    assert Flatten([Repeat(x, 256)][1..]) == [];
    assert Stream(Buffers(o.pool)) == Repeat(x, 256);
    assert Metas(o.params) == [ByteMeta(name)];
    assert Repeat(x, 256)[0..1] == [x];
    assert StandsAt(Repeat(x, 256), 0, ByteTensor(name, x));
  }

  lemma ByteCut(name: string)
    ensures IsCut([[ByteMeta(name)]], 256, [ByteBucket(name)])
  {
    ByteSizes(name);
    var bufs, r, b := [[ByteMeta(name)]], BucketRange(0, 0, 256), ByteBucket(name);
    BaseZero(bufs);
    assert RangeOk(bufs, r);
    assert CutUpTo(bufs, 256, [], [], 0);
    hide TotalSize, AlignSize, NBytes, Flatten, RangeOk, Contiguous, CutUpTo, Base;
    ContiguousNil(bufs, 0);
    ContiguousSnoc(bufs, [], 0, r);
    assert [] + [r] == b.ranges;
    CutSnoc(bufs, 256, [], [], 0, b);
    assert [] + b.items == Flatten(bufs) && [] + [b] == [b];
  }

  lemma BaseZero(bufs: seq<seq<ParameterMeta>>)
    ensures Base(bufs, 0) == 0
  {
  }

  lemma ByteContent(name: string, x: byte)
    ensures RangesIn([Repeat(x, 256)], ByteBucket(name).ranges)
    ensures Content([Repeat(x, 256)], ByteBucket(name)) == [ByteTensor(name, x)]
  {
    ByteSizes(name);
    hide TotalSize, AlignSize, NBytes;
    var pool, b := [Repeat(x, 256)], ByteBucket(name);
    assert b.ranges[..0] == [];
    PayloadSnoc(pool, b.ranges);
    assert Payload(pool, b.ranges[..0]) == [];
    assert Payload(pool, b.ranges) == Repeat(x, 256);
    AnyBytesHold(b.items, Repeat(x, 256));
    assert Repeat(x, 256)[0..1] == [x];
  }

  /** Two owners with one byte each, 1 and 2, are updated to rank 0, the first owner, without the staging buffer. */
  function WrongUpdate(): Update
  {
    Update([ByteOwner(0, "a", 1), ByteOwner(1, "b", 2)], 256, map[0 := 0], 1, true, false, map[0 := OfOwner(0)])
  }

  function WrongEntries(): seq<Entry>
  {
    [Entry(0, Owned(0, ByteBucket("a"))), Entry(0, Owned(1, ByteBucket("b")))]
  }

  lemma WrongIsScheduled()
    ensures WrongUpdate().Scheduled(WrongEntries(), OwnedOf(WrongEntries()), [[ByteBucket("a")], [ByteBucket("b")]])
  {
    ByteOwnerRegistered(0, "a", 1);
    ByteOwnerRegistered(1, "b", 2);
    ByteCut("a");
    ByteCut("b");
    ByteSizes("a");
    ByteSizes("b");
    hide IsCut, RegisteredOwner, ByteBucket, ByteMeta, ByteOwner, TotalSize, Flatten, MetaLists, Buffers;
    hide Update.Scheduled, OwnedOf;
    TwoOwnersScheduled(ByteOwner(0, "a", 1), ByteOwner(1, "b", 2), ByteBucket("a"), ByteBucket("b"));
  }

  lemma TwoOwnersScheduled(o: Owner, p: Owner, a: H2DBucket, b: H2DBucket)
    requires o.rank == 0 && RegisteredOwner(o) && p.rank == 1 && RegisteredOwner(p)
    requires IsCut(MetaLists(o.pool), 256, [a]) && TotalSize(Flatten(MetaLists(o.pool))) > 0
    requires IsCut(MetaLists(p.pool), 256, [b]) && TotalSize(Flatten(MetaLists(p.pool))) > 0
    ensures var u := Update([o, p], 256, map[0 := 0], 1, true, false, map[0 := OfOwner(0)]);
            var entries := [Entry(0, Owned(0, a)), Entry(0, Owned(1, b))];
            u.Scheduled(entries, OwnedOf(entries), [[a], [b]])
  {
    var g, h := OwnerMetas(0, MetaLists(o.pool)), OwnerMetas(1, MetaLists(p.pool));
    TwoOwnersCut(g, h, 256, a, b);
    hide IsCut, RegisteredOwner, TotalSize, Flatten, CutOwners, MetaLists, Tagged;
    assert Gathered([o, p]) == [g, h];
    var entries := [Entry(0, Owned(0, a)), Entry(0, Owned(1, b))];
    assert OwnedOf(entries) == [Owned(0, a), Owned(1, b)];
  }

  lemma TwoOwnersCut(o: OwnerMetas, p: OwnerMetas, bucketSize: nat, a: H2DBucket, b: H2DBucket)
    requires IsCut(o.bufs, bucketSize, [a]) && TotalSize(Flatten(o.bufs)) > 0
    requires IsCut(p.bufs, bucketSize, [b]) && TotalSize(Flatten(p.bufs)) > 0
    ensures CutOwners([o, p], bucketSize, [Owned(o.rank, a), Owned(p.rank, b)], [[a], [b]])
  {
    hide IsCut, TotalSize, Flatten;
    assert [o, p][..1] == [o] && [o][..0] == [] && [[a], [b]][..1] == [[a]] && [[a]][..0] == [];
    assert Tagged([o], [[a]]) == [Owned(o.rank, a)];
    assert Tagged([o, p], [[a], [b]]) == [Owned(o.rank, a), Owned(p.rank, b)];
  }

  lemma WrongPool()
    ensures PoolOf(WrongUpdate().owners, 0) == [Repeat<byte>(1, 256)]
  {
    var owners := WrongUpdate().owners;
    ByteOwnerRegistered(0, "a", 1);
    hide RegisteredOwner, MetaLists, Buffers, PoolOf;
    PoolOfInit(owners, 2, 0);
    assert owners[..2] == owners;
  }

  lemma WrongRegistered()
    ensures Delivery.Registered(WrongUpdate().owners) == [ByteTensor("a", 1), ByteTensor("b", 2)]
  {
    hide ByteTensor, Repeat, ByteMeta;
    var owners := WrongUpdate().owners;
    var first := owners[..1];
    assert first[..0] == [] && Delivery.Registered(first) == Delivery.Registered(first[..0]) + first[0].params;
    assert Delivery.Registered(owners) == Delivery.Registered(first) + owners[1].params;
    assert [ByteTensor("a", 1)] + [ByteTensor("b", 2)] == [ByteTensor("a", 1), ByteTensor("b", 2)];
  }

  lemma WrongReads()
    ensures var u, es := WrongUpdate(), WrongEntries();
            && u.Readable(es[0]) && u.Readable(es[1])
            && u.Read(es[0]) == [ByteTensor("a", 1)] && u.Read(es[1]) == [ByteTensor("b", 1)]
  {
    WrongPool();
    ByteContent("a", 1);
    ByteContent("b", 1);
    hide ByteBucket, Content, RangesIn, PoolOf, ByteTensor, ByteOwner, Repeat;
  }

  lemma FlatMapPair(a: Entry, b: Entry, f: Entry -> seq<Tensor>)
    ensures FlatMap([a, b], f) == f(a) + f(b)
  {
    assert [a, b][1..] == [b] && [b][1..] == [];
    assert FlatMap([b], f) == f(b);
  }

  /** Both buckets are read from the pool of the first owner. */
  lemma WrongCopies()
    ensures forall e :: e in WrongEntries() ==> WrongUpdate().Readable(e)
    ensures WrongUpdate().Copied(WrongEntries()) == [ByteTensor("a", 1), ByteTensor("b", 1)]
  {
    WrongReads();
    hide *;
    OneReceiverCopies(WrongUpdate(), Entry(0, Owned(0, ByteBucket("a"))), Entry(0, Owned(1, ByteBucket("b"))));
    WrongPair();
  }

  lemma WrongPair()
    ensures WrongEntries() == [Entry(0, Owned(0, ByteBucket("a"))), Entry(0, Owned(1, ByteBucket("b")))]
  {
  }

  lemma OneReceiverCopies(u: Update, a: Entry, b: Entry)
    requires a.receiver == b.receiver
    ensures u.Copied([a, b]) == u.Read(a) + u.Read(b)
  {
    OneReceiver([a, b], a.receiver);
    FlatMapPair(a, b, (e: Entry) => u.Read(e));
    hide Update.Read, Schedule, FlatMap;
  }

  /** The staging buffer's absence can go unnoticed: this update runs to its end, and the worker has then loaded the
      second owner's parameter with the first owner's byte. */
  lemma WrongBytesLoaded() returns (init: State, steps: seq<Step>, s: State)
    ensures var u := WrongUpdate();
            && FullRun(u.Configure(WrongEntries()), init, steps, s) && |s| == 1 && s[0].ended
            && s[0].loaded == [ByteTensor("a", 1), ByteTensor("b", 1)]
            && Delivery.Registered(u.owners) == [ByteTensor("a", 1), ByteTensor("b", 2)]
  {
    WrongIsScheduled();
    WrongCopies();
    WrongRegistered();
    var u, es := WrongUpdate(), WrongEntries();
    assert u.Configure(es).n == 1;
    hide *;
    ScheduledIsValid(u, es, OwnedOf(es), [[ByteBucket("a")], [ByteBucket("b")]]);
    init, steps, s := SomeFullRun(u.Configure(es));
    DeliversCopied(u, es);
    CompletedLoads(u.Configure(es), s);
  }
}
