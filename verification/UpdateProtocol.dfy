/** The double-buffered update protocol: N ranks run the same rounds (checkpoint_engine/ps.py, `_update_per_bucket`),
    each with a worker process at the other end of a REQ/REP socket (checkpoint_engine/worker.py).

    A round g has five phases on every rank: stage the rank's own bucket when a new column of buckets starts; fill (on
    the receiver rank) slot g % 2 of the shared buffer and issue the broadcast; wait for the worker's reply to the
    previous message; pass a barrier; send the payload message. A broadcast is asynchronous: from its issue until it
    lands, the slot of a receiving rank holds arbitrary bytes. */
module UpdateProtocol {
  import opened Sequences
  import opened Tensors
  import opened ParameterServer
  import opened Worker

  /** One round: the broadcasting rank, the column its bucket belongs to, whether the bucket's ranges lie in the memory
      that rank copies from, the bytes they select there and the tensors these bytes are. */
  datatype Job = Job(receiver: nat, column: nat, readable: bool, data: seq<byte>, tensors: seq<Tensor>)

  datatype Config = Config(n: nat, bucketSize: nat, jobs: seq<Job>, h2d: bool)
  {
    ghost predicate Valid()
    {
      && n > 0
      && (forall g :: 0 <= g < |jobs| ==>
           && jobs[g].receiver < n && jobs[g].readable
           && |jobs[g].data| <= bucketSize && Holds(jobs[g].data, jobs[g].tensors))
      && Ordered()
    }

    /** Columns follow each other, and a rank sends at most one bucket of a column. */
    predicate Ordered()
    {
      forall g, k :: 0 <= g < k < |jobs| ==>
        jobs[g].column < jobs[k].column
        || (jobs[g].column == jobs[k].column && jobs[g].receiver != jobs[k].receiver)
    }

    function At(g: nat): nat { g % 2 * bucketSize }

    /** The message that announces round g. */
    function Message(g: nat): Msg
      requires g < |jobs|
    {
      Weights(Named(Metas(jobs[g].tensors), At(g)))
    }

    predicate StartsColumn(g: nat)
      requires g < |jobs|
    {
      g == 0 || jobs[g - 1].column != jobs[g].column
    }
  }

  datatype Msg = Handle | Weights(named: seq<NamedTensor>) | Finished

  /** The REQ/REP socket between a rank and its worker, with what the worker is doing. */
  datatype Chan = Idle | Queued(msg: Msg) | Handling(msg: Msg) | Replied

  datatype Rank = Rank(
    round: nat,
    phase: nat,             // 0..4; in the closing round: receive, send end, receive, barrier, done
    h2d: seq<byte>,         // staging buffer
    buffer: seq<byte>,      // two slots shared with the worker
    inFlight: bool,         // the broadcast of the current round is issued but has not landed
    chan: Chan,
    attached: bool,         // the worker has mapped the shared buffer
    loaded: seq<Tensor>,    // everything the worker has loaded so far
    ended: bool,            // the worker has left its receive loop
    failed: bool            // an exception: a socket or worker assertion, or a copy out of range
  )
  {
    function Advance(): Rank
    {
      if phase >= 4 then this.(round := round + 1, phase := 0) else this.(phase := phase + 1)
    }
  }

  type State = seq<Rank>

  datatype Step =
    | Stage(r: nat) | Issue(r: nat, junk: seq<byte>) | Land(r: nat) | Receive(r: nat) | Barrier(r: nat) | Send(r: nat)
    | Take(r: nat) | Reply(r: nat)

  function Splice(buffer: seq<byte>, at: nat, data: seq<byte>): (r: seq<byte>)
    requires at + |data| <= |buffer|
    ensures |r| == |buffer| && r[at..at + |data|] == data
    ensures forall i :: 0 <= i < |r| && !(at <= i < at + |data|) ==> r[i] == buffer[i]
  {
    buffer[..at] + data + buffer[at + |data|..]
  }

  /** The job that rank r stages for column c, searching from job k on. */
  function Own(jobs: seq<Job>, r: nat, c: nat, k: nat): (own: Option<nat>)
    requires k <= |jobs|
    ensures own.Some? ==> k <= own.value < |jobs| && jobs[own.value].receiver == r && jobs[own.value].column == c
    ensures own.None? ==> forall i :: k <= i < |jobs| ==> !(jobs[i].receiver == r && jobs[i].column == c)
    decreases |jobs| - k
  {
    if k == |jobs| then None
    else if jobs[k].receiver == r && jobs[k].column == c then Some(k)
    else Own(jobs, r, c, k + 1)
  }

  // ----- Steps -----

  predicate InRounds(cfg: Config, p: Rank, phase: nat)
  {
    p.round < |cfg.jobs| && p.phase == phase
  }

  predicate AtReceive(cfg: Config, p: Rank)
  {
    if p.round < |cfg.jobs| then p.phase == 2 else p.phase == 0 || p.phase == 2
  }

  predicate AtSend(cfg: Config, p: Rank)
  {
    if p.round < |cfg.jobs| then p.phase == 4 else p.phase == 1
  }

  /** Rank p has arrived at the barrier of round g, with its broadcast landed, or passed it. */
  predicate Arrived(p: Rank, g: nat)
  {
    p.round > g || (p.round == g && (p.phase == 4 || (p.phase == 3 && !p.inFlight)))
  }

  ghost predicate Enabled(cfg: Config, s: State, step: Step)
  {
    && step.r < |s| && !s[step.r].failed
    && var p := s[step.r];
    match step
    case Stage(_) => InRounds(cfg, p, 0)
    case Issue(_, junk) => InRounds(cfg, p, 1) && |junk| == |cfg.jobs[p.round].data|
    case Land(_) =>
      && p.inFlight && p.round < |cfg.jobs|
      && cfg.jobs[p.round].receiver < |s|
      && var source := s[cfg.jobs[p.round].receiver];
         source.round > p.round || (source.round == p.round && source.phase >= 2)
    case Receive(_) => AtReceive(cfg, p) && p.chan.Replied?
    case Barrier(_) => p.phase == 3 && forall q :: 0 <= q < |s| ==> Arrived(s[q], p.round)
    case Send(_) => AtSend(cfg, p)
    case Take(_) => p.chan.Queued?
    case Reply(_) => p.chan.Handling?
  }

  function StageRank(cfg: Config, r: nat, p: Rank): Rank
    requires InRounds(cfg, p, 0)
  {
    var g := p.round;
    if !cfg.StartsColumn(g) || !cfg.h2d then p.Advance()
    else
      match Own(cfg.jobs, r, cfg.jobs[g].column, 0)
      case None => p.Advance()
      case Some(k) =>
        if cfg.jobs[k].readable && |cfg.jobs[k].data| <= |p.h2d|
        then p.Advance().(h2d := Splice(p.h2d, 0, cfg.jobs[k].data))
        else p.(failed := true)
  }

  /** On the receiver rank the bucket comes from the staging buffer, or straight from the memory pool when that buffer
      is disabled. Elsewhere the slot holds arbitrary bytes until the broadcast lands. */
  function IssuedData(cfg: Config, r: nat, p: Rank, junk: seq<byte>): seq<byte>
    requires InRounds(cfg, p, 1)
  {
    var job := cfg.jobs[p.round];
    if r != job.receiver then junk
    else if cfg.h2d then p.h2d[..if |job.data| <= |p.h2d| then |job.data| else |p.h2d|]
    else job.data
  }

  function IssueRank(cfg: Config, r: nat, p: Rank, junk: seq<byte>): Rank
    requires InRounds(cfg, p, 1)
  {
    var g := p.round;
    var data := IssuedData(cfg, r, p, junk);
    if (cfg.h2d || r != cfg.jobs[g].receiver || cfg.jobs[g].readable) && cfg.At(g) + |data| <= |p.buffer|
    then p.Advance().(inFlight := true, buffer := Splice(p.buffer, cfg.At(g), data))
    else p.(failed := true)
  }

  function LandRank(cfg: Config, p: Rank, source: Rank): Rank
    requires p.round < |cfg.jobs|
  {
    var g := p.round;
    var at, n := cfg.At(g), |cfg.jobs[g].data|;
    if at + n <= |p.buffer| && at + n <= |source.buffer|
    then p.(inFlight := false, buffer := Splice(p.buffer, at, source.buffer[at..at + n]))
    else p.(failed := true)
  }

  /** A REQ socket may not send twice without receiving a reply. */
  function SendRank(cfg: Config, p: Rank): Rank
    requires AtSend(cfg, p)
  {
    if !p.chan.Idle? then p.(failed := true)
    else p.Advance().(chan := Queued(if p.round < |cfg.jobs| then cfg.Message(p.round) else Finished))
  }

  /** The worker finishes one message: it maps the buffer, loads the named tensors from it, or ends. */
  ghost function ReplyRank(p: Rank): Rank
    requires p.chan.Handling?
  {
    match p.chan.msg
    case Handle => p.(chan := Replied, attached := true)
    case Finished => p.(chan := Replied, ended := true)
    case Weights(named) =>
      if p.attached && !p.ended && InBuffer(named, p.buffer)
      then p.(chan := Replied, loaded := p.loaded + Extracted(named, p.buffer))
      else p.(failed := true)
  }

  ghost function NextRank(cfg: Config, s: State, step: Step): Rank
    requires Enabled(cfg, s, step)
  {
    var p := s[step.r];
    match step
    case Stage(r) => StageRank(cfg, r, p)
    case Issue(r, junk) => IssueRank(cfg, r, p, junk)
    case Land(_) => LandRank(cfg, p, s[cfg.jobs[p.round].receiver])
    case Receive(_) => p.Advance().(chan := Idle)
    case Barrier(_) => p.Advance()
    case Send(_) => SendRank(cfg, p)
    case Take(_) => p.(chan := Handling(p.chan.msg))
    case Reply(_) => ReplyRank(p)
  }

  ghost function Next(cfg: Config, s: State, step: Step): (s': State)
    requires Enabled(cfg, s, step)
    ensures |s'| == |s|
  {
    s[step.r := NextRank(cfg, s, step)]
  }

  ghost predicate Initial(cfg: Config, s: State)
  {
    && |s| == cfg.n
    && forall r :: 0 <= r < |s| ==>
        && s[r].round == 0 && s[r].phase == 0 && !s[r].inFlight && !s[r].attached && !s[r].ended && !s[r].failed
        && |s[r].buffer| == 2 * cfg.bucketSize && |s[r].h2d| == cfg.bucketSize
        && s[r].chan == Queued(Handle) && s[r].loaded == []
  }

  /** Some interleaving of rank and worker steps leads from `s` to `s'`. */
  ghost predicate Runs(cfg: Config, s: State, steps: seq<Step>, s': State)
    decreases |steps|
  {
    if steps == [] then s == s'
    else Enabled(cfg, s, steps[0]) && Runs(cfg, Next(cfg, s, steps[0]), steps[1..], s')
  }

  // ----- Invariant -----

  /** Everything delivered by the first g rounds. */
  function Delivered(cfg: Config, g: nat): seq<Tensor>
    requires g <= |cfg.jobs|
  {
    if g == 0 then [] else Delivered(cfg, g - 1) + cfg.jobs[g - 1].tensors
  }

  ghost predicate SlotHolds(cfg: Config, p: Rank, g: nat)
    requires g < |cfg.jobs|
  {
    var at, n := cfg.At(g), |cfg.jobs[g].data|;
    at + n <= |p.buffer| && p.buffer[at..at + n] == cfg.jobs[g].data
  }

  /** The message to which the rank still expects a reply, if any. */
  function Outstanding(cfg: Config, round: nat, phase: nat): Option<Msg>
  {
    if round < |cfg.jobs| then
      if phase >= 3 then None else Some(if round == 0 then Handle else cfg.Message(round - 1))
    else if phase == 0 then
      Some(if |cfg.jobs| == 0 then Handle else cfg.Message(|cfg.jobs| - 1))
    else if phase == 2 then Some(Finished)
    else None
  }

  ghost predicate ChanOk(cfg: Config, p: Rank)
  {
    match Outstanding(cfg, p.round, p.phase)
    case None => p.chan.Idle?
    case Some(m) => p.chan == Queued(m) || p.chan == Handling(m) || p.chan == Replied
  }

  /** The worker still owes the reply to the outstanding message. */
  predicate Busy(p: Rank) { p.chan.Queued? || p.chan.Handling? }

  ghost predicate WorkerOk(cfg: Config, p: Rank)
    requires p.round <= |cfg.jobs|
  {
    var closing := p.round == |cfg.jobs|;
    && (p.attached <==> !(p.round == 0 && Busy(p) && !p.chan.msg.Finished?))
    && (p.ended <==> closing && (p.phase > 2 || (p.phase == 2 && !Busy(p))))
    && p.loaded == Delivered(cfg, if p.round > 0 && Busy(p) && !p.chan.msg.Finished? then p.round - 1 else p.round)
  }

  ghost predicate BuffersOk(cfg: Config, r: nat, p: Rank)
    requires p.round <= |cfg.jobs|
  {
    && |p.buffer| == 2 * cfg.bucketSize && |p.h2d| == cfg.bucketSize
    && (p.inFlight ==> InRounds(cfg, p, 2) || InRounds(cfg, p, 3))
    && (p.round > 0 ==> SlotHolds(cfg, p, p.round - 1))
    && (p.round < |cfg.jobs| && p.phase >= 2 && (!p.inFlight || r == cfg.jobs[p.round].receiver) ==>
          SlotHolds(cfg, p, p.round))
  }

  /** The staging buffer holds the rank's own bucket of the current column. */
  ghost predicate StagedOk(cfg: Config, r: nat, p: Rank)
  {
    p.round < |cfg.jobs| && (p.phase > 0 || !cfg.StartsColumn(p.round)) && cfg.h2d ==>
      forall k :: 0 <= k < |cfg.jobs| && cfg.jobs[k].receiver == r && cfg.jobs[k].column == cfg.jobs[p.round].column ==>
        |cfg.jobs[k].data| <= |p.h2d| && p.h2d[..|cfg.jobs[k].data|] == cfg.jobs[k].data
  }

  ghost predicate RankOk(cfg: Config, r: nat, p: Rank)
  {
    && !p.failed && p.round <= |cfg.jobs| && p.phase <= 4
    && ChanOk(cfg, p) && WorkerOk(cfg, p) && BuffersOk(cfg, r, p) && StagedOk(cfg, r, p)
  }

  /** Rank q has passed a barrier only if rank p has arrived at it. */
  ghost predicate InStep(p: Rank, q: Rank)
  {
    && (q.phase == 4 ==> Arrived(p, q.round))
    && (q.round > 0 ==> Arrived(p, q.round - 1))
  }

  ghost predicate Inv(cfg: Config, s: State)
  {
    && |s| == cfg.n
    && (forall r :: 0 <= r < |s| ==> RankOk(cfg, r, s[r]))
    && (forall p, q :: 0 <= p < |s| && 0 <= q < |s| ==> InStep(s[p], s[q]))
  }

  // ----- Every step keeps the invariant -----

  lemma InitialInv(cfg: Config, s: State)
    requires cfg.Valid() && Initial(cfg, s)
    ensures Inv(cfg, s)
  {
    forall r | 0 <= r < |s| ensures RankOk(cfg, r, s[r]) {
    }
  }

  /** Consecutive rounds use the two different slots. */
  lemma SlotsApart(cfg: Config, g: nat)
    requires g > 0
    ensures (cfg.At(g - 1) == 0 && cfg.At(g) == cfg.bucketSize) || (cfg.At(g - 1) == cfg.bucketSize && cfg.At(g) == 0)
  {
    if g % 2 == 0 {
      assert (g - 1) % 2 == 1;
    } else {
      assert (g - 1) % 2 == 0;
    }
  }

  /** A splice into one slot leaves the other slot alone. */
  lemma OtherSlot(cfg: Config, p: Rank, g: nat, data: seq<byte>, p': Rank)
    requires 0 < g < |cfg.jobs| && |cfg.jobs[g - 1].data| <= cfg.bucketSize && |data| <= cfg.bucketSize
    requires |p.buffer| == 2 * cfg.bucketSize
    requires p'.buffer == Splice(p.buffer, cfg.At(g), data)
    requires SlotHolds(cfg, p, g - 1)
    ensures SlotHolds(cfg, p', g - 1)
  {
    var at, n := cfg.At(g - 1), |cfg.jobs[g - 1].data|;
    SlotsApart(cfg, g);
    hide Splice, Config.At;
    SameSlice(p.buffer, p'.buffer, at, n);
  }

  lemma SameSlice(a: seq<byte>, b: seq<byte>, at: nat, n: nat)
    requires |a| == |b| && at + n <= |a| && forall i :: at <= i < at + n ==> a[i] == b[i]
    ensures a[at..at + n] == b[at..at + n]
  {
    var x, y := a[at..at + n], b[at..at + n];
    forall i | 0 <= i < n ensures x[i] == y[i] {
      assert a[at + i] == b[at + i];
    }
  }

  lemma StageKeeps(cfg: Config, r: nat, p: Rank)
    requires cfg.Valid() && RankOk(cfg, r, p) && InRounds(cfg, p, 0)
    ensures RankOk(cfg, r, StageRank(cfg, r, p)) && Moved(p, StageRank(cfg, r, p))
  {
    StageFills(cfg, r, p);
    hide Holds, Named, Delivered, StagedOk, Splice, StageRank, Own, ChanOk, WorkerOk, SlotHolds;
    SameWorker(cfg, p, StageRank(cfg, r, p));
    if p.round > 0 {
      SameSlot(cfg, p, StageRank(cfg, r, p), p.round - 1);
    }
  }

  lemma SameSlot(cfg: Config, p: Rank, p': Rank, g: nat)
    requires g < |cfg.jobs| && p'.buffer == p.buffer
    ensures SlotHolds(cfg, p', g) == SlotHolds(cfg, p, g)
  {
  }

  /** Before its receive phase a rank's dealings with its worker do not depend on the phase. */
  lemma SameWorker(cfg: Config, p: Rank, p': Rank)
    requires p.round < |cfg.jobs| && p'.round == p.round && p.phase < 3 && p'.phase < 3
    requires p'.chan == p.chan && p'.attached == p.attached && p'.ended == p.ended && p'.loaded == p.loaded
    requires ChanOk(cfg, p) && WorkerOk(cfg, p)
    ensures ChanOk(cfg, p') && WorkerOk(cfg, p')
  {
    hide Delivered, Config.Message;
  }

  /** Staging puts the rank's own bucket of a new column into the staging buffer and changes nothing else. */
  lemma StageFills(cfg: Config, r: nat, p: Rank)
    requires cfg.Valid() && RankOk(cfg, r, p) && InRounds(cfg, p, 0)
    ensures var p' := StageRank(cfg, r, p);
            StagedOk(cfg, r, p') && |p'.h2d| == |p.h2d| && p' == p.Advance().(h2d := p'.h2d)
  {
    hide Holds, Named, Delivered, ChanOk, WorkerOk;
    var p', g := StageRank(cfg, r, p), p.round;
    var own := Own(cfg.jobs, r, cfg.jobs[g].column, 0);
    if cfg.StartsColumn(g) && cfg.h2d && own.Some? {
      var d := cfg.jobs[own.value].data;
      assert p'.h2d[..|d|] == p'.h2d[0..0 + |d|] == d;
    }
  }

  lemma IssueKeeps(cfg: Config, r: nat, p: Rank, junk: seq<byte>)
    requires cfg.Valid() && RankOk(cfg, r, p) && InRounds(cfg, p, 1) && |junk| == |cfg.jobs[p.round].data|
    ensures RankOk(cfg, r, IssueRank(cfg, r, p, junk))
    ensures IssueRank(cfg, r, p, junk).round == p.round && IssueRank(cfg, r, p, junk).phase == 2
  {
    IssueEffect(cfg, r, p, junk);
    IssueSlots(cfg, r, p, junk);
    hide Holds, Named, Delivered, Splice, Config.Message, IssueRank, BuffersOk, IssuedData, Config.Valid, ChanOk,
         WorkerOk;
    SameWorker(cfg, p, IssueRank(cfg, r, p, junk));
  }

  /** The bytes issued: the bucket on the receiver, as many arbitrary bytes elsewhere. */
  lemma IssueEffect(cfg: Config, r: nat, p: Rank, junk: seq<byte>)
    requires cfg.Valid() && RankOk(cfg, r, p) && InRounds(cfg, p, 1) && |junk| == |cfg.jobs[p.round].data|
    ensures var (job, data) := (cfg.jobs[p.round], IssuedData(cfg, r, p, junk));
            && |data| == |job.data| <= cfg.bucketSize && (r == job.receiver ==> data == job.data)
            && cfg.At(p.round) + |data| <= |p.buffer| == 2 * cfg.bucketSize
            && IssueRank(cfg, r, p, junk)
               == p.Advance().(inFlight := true, buffer := Splice(p.buffer, cfg.At(p.round), data))
  {
    hide Holds, Named, Delivered, Splice, ChanOk, WorkerOk;
  }

  lemma IssueSlots(cfg: Config, r: nat, p: Rank, junk: seq<byte>)
    requires cfg.Valid() && RankOk(cfg, r, p) && InRounds(cfg, p, 1) && |junk| == |cfg.jobs[p.round].data|
    ensures BuffersOk(cfg, r, IssueRank(cfg, r, p, junk))
  {
    var g := p.round;
    IssueEffect(cfg, r, p, junk);
    hide Holds, Named, Delivered, Splice, Config.Message, ChanOk, WorkerOk, StagedOk, IssueRank, IssuedData;
    if g > 0 {
      assert |cfg.jobs[g - 1].data| <= cfg.bucketSize;
      hide Config.Valid;
      OtherSlot(cfg, p, g, IssuedData(cfg, r, p, junk), IssueRank(cfg, r, p, junk));
    }
  }

  lemma LandKeeps(cfg: Config, r: nat, p: Rank, source: Rank)
    requires cfg.Valid() && RankOk(cfg, r, p) && p.inFlight
    requires SlotHolds(cfg, source, p.round) && |source.buffer| == 2 * cfg.bucketSize
    ensures RankOk(cfg, r, LandRank(cfg, p, source))
    ensures LandRank(cfg, p, source).round == p.round && LandRank(cfg, p, source).phase == p.phase
    ensures !LandRank(cfg, p, source).inFlight
  {
    hide Holds, Named, Delivered;
    var g := p.round;
    var p' := LandRank(cfg, p, source);
    assert p'.buffer == Splice(p.buffer, cfg.At(g), cfg.jobs[g].data);
    if g > 0 {
      OtherSlot(cfg, p, g, cfg.jobs[g].data, p');
    }
    assert StagedOk(cfg, r, p');
  }

  lemma ReceiveKeeps(cfg: Config, r: nat, p: Rank)
    requires cfg.Valid() && RankOk(cfg, r, p) && AtReceive(cfg, p) && p.chan.Replied?
    ensures RankOk(cfg, r, p.Advance().(chan := Idle)) && Moved(p, p.Advance().(chan := Idle))
  {
    hide Holds, Named, Delivered;
    assert StagedOk(cfg, r, p.Advance().(chan := Idle));
  }

  lemma BarrierKeeps(cfg: Config, r: nat, p: Rank)
    requires cfg.Valid() && RankOk(cfg, r, p) && p.phase == 3 && !p.inFlight
    ensures RankOk(cfg, r, p.Advance()) && Moved(p, p.Advance())
  {
    hide Holds, Named, Delivered;
    assert StagedOk(cfg, r, p.Advance());
  }

  lemma SendKeeps(cfg: Config, r: nat, p: Rank)
    requires cfg.Valid() && RankOk(cfg, r, p) && AtSend(cfg, p)
    ensures RankOk(cfg, r, SendRank(cfg, p)) && Moved(p, SendRank(cfg, p))
  {
    hide Holds, Named;
    var p', g := SendRank(cfg, p), p.round;
    if g + 1 < |cfg.jobs| && !cfg.StartsColumn(g + 1) {
      assert cfg.jobs[g].column == cfg.jobs[g + 1].column;
    }
    assert StagedOk(cfg, r, p');
  }

  /** What a worker reads for a message is exactly what was registered, whenever it reads it. */
  lemma {:induction false} WorkerReads(cfg: Config, r: nat, p: Rank, m: Msg)
    requires cfg.Valid() && RankOk(cfg, r, p) && p.chan == Handling(m) && m.Weights?
    ensures p.attached && !p.ended && 0 < p.round && InBuffer(m.named, p.buffer)
    ensures Extracted(m.named, p.buffer) == cfg.jobs[p.round - 1].tensors
    ensures p.loaded == Delivered(cfg, p.round - 1)
  {
    hide Holds, Named, Delivered, InBuffer, Extracted;
    var g := p.round - 1;
    assert m == cfg.Message(g) && SlotHolds(cfg, p, g);
    ExtractNamed(cfg.jobs[g].data, cfg.jobs[g].tensors, p.buffer, cfg.At(g));
  }

  lemma ReplyKeeps(cfg: Config, r: nat, p: Rank)
    requires cfg.Valid() && RankOk(cfg, r, p) && p.chan.Handling?
    ensures RankOk(cfg, r, ReplyRank(p))
    ensures ReplyRank(p).round == p.round && ReplyRank(p).phase == p.phase && ReplyRank(p).inFlight == p.inFlight
  {
    ReplyDone(cfg, r, p);
    hide BuffersOk, StagedOk, WorkerOk, ChanOk, ReplyRank, Config.Valid;
    SameBuffers(cfg, r, p, ReplyRank(p));
  }

  /** The worker can do what a message asks for, and owes nothing after that. */
  lemma ReplyDone(cfg: Config, r: nat, p: Rank)
    requires cfg.Valid() && RankOk(cfg, r, p) && p.chan.Handling?
    ensures var p' := ReplyRank(p);
            && p' == p.(chan := Replied, attached := p'.attached, ended := p'.ended, loaded := p'.loaded)
            && ChanOk(cfg, p') && WorkerOk(cfg, p')
  {
    if p.chan.msg.Weights? {
      WorkerReads(cfg, r, p, p.chan.msg);
    }
    hide Named, InBuffer, Extracted, Config.Valid, BuffersOk, StagedOk;
  }

  lemma SameBuffers(cfg: Config, r: nat, p: Rank, p': Rank)
    requires p.round <= |cfg.jobs| && BuffersOk(cfg, r, p) && StagedOk(cfg, r, p)
    requires p'.round == p.round && p'.phase == p.phase && p'.inFlight == p.inFlight
    requires p'.buffer == p.buffer && p'.h2d == p.h2d
    ensures BuffersOk(cfg, r, p') && StagedOk(cfg, r, p')
  {
  }

  lemma TakeKeeps(cfg: Config, r: nat, p: Rank)
    requires RankOk(cfg, r, p) && p.chan.Queued?
    ensures RankOk(cfg, r, p.(chan := Handling(p.chan.msg)))
  {
    hide Holds, Named, Delivered;
    assert StagedOk(cfg, r, p.(chan := Handling(p.chan.msg)));
  }

  /** The broadcasting rank is still within its round, so its slot is intact while others read it. */
  lemma SourceHolds(cfg: Config, s: State, step: Step)
    requires cfg.Valid() && Inv(cfg, s) && step.Land? && Enabled(cfg, s, step)
    ensures var g := s[step.r].round;
            SlotHolds(cfg, s[cfg.jobs[g].receiver], g) && |s[cfg.jobs[g].receiver].buffer| == 2 * cfg.bucketSize
  {
    var p := s[step.r];
    var g := p.round;
    var q := s[cfg.jobs[g].receiver];
    assert InStep(p, q);
    assert RankOk(cfg, step.r, p) && RankOk(cfg, cfg.jobs[g].receiver, q);
    assert q.round == g;
  }

  /** One phase further, with no new broadcast in flight. */
  ghost predicate Moved(p: Rank, p': Rank)
  {
    p'.round == p.Advance().round && p'.phase == p.Advance().phase && p'.inFlight == p.inFlight
  }

  /** What a step can do to the position of its rank. */
  ghost predicate Progress(step: Step, p: Rank, p': Rank)
  {
    match step
    case Issue(_, _) => p.phase == 1 && p'.round == p.round && p'.phase == 2
    case Land(_) => p'.round == p.round && p'.phase == p.phase && !p'.inFlight
    case Take(_) => p'.round == p.round && p'.phase == p.phase && p'.inFlight == p.inFlight
    case Reply(_) => p'.round == p.round && p'.phase == p.phase && p'.inFlight == p.inFlight
    case _ => Moved(p, p') && (p.phase == 3 ==> step.Barrier?)
  }

  lemma NextRankOk(cfg: Config, s: State, step: Step)
    requires cfg.Valid() && Inv(cfg, s) && Enabled(cfg, s, step)
    ensures RankOk(cfg, step.r, NextRank(cfg, s, step))
    ensures Progress(step, s[step.r], NextRank(cfg, s, step))
  {
    var r, p := step.r, s[step.r];
    assert RankOk(cfg, r, p) && p.phase <= 4;
    if step.Land? {
      SourceHolds(cfg, s, step);
    }
    hide RankOk, StageRank, IssueRank, LandRank, SendRank, ReplyRank, SlotHolds, Config.Valid, Inv, InStep;
    match step
    case Stage(_) => StageKeeps(cfg, r, p);
    case Issue(_, junk) => IssueKeeps(cfg, r, p, junk);
    case Land(_) => LandKeeps(cfg, r, p, s[cfg.jobs[p.round].receiver]);
    case Receive(_) => ReceiveKeeps(cfg, r, p);
    case Barrier(_) =>
      assert Arrived(s[r], p.round);
      BarrierKeeps(cfg, r, p);
    case Send(_) => SendKeeps(cfg, r, p);
    case Take(_) => TakeKeeps(cfg, r, p);
    case Reply(_) => ReplyKeeps(cfg, r, p);
  }

  lemma StillInStep(s: State, step: Step, i: nat, k: nat, p': Rank)
    requires step.r < |s| && i < |s| && k < |s| && InStep(s[i], s[k])
    requires Progress(step, s[step.r], p') && s[step.r].phase <= 4
    requires step.Barrier? ==> forall q :: 0 <= q < |s| ==> Arrived(s[q], s[step.r].round)
    ensures InStep(s[step.r := p'][i], s[step.r := p'][k])
  {
  }

  /** Safety of one step: the invariant is kept by every step of every rank and every worker. */
  lemma NextInv(cfg: Config, s: State, step: Step)
    requires cfg.Valid() && Inv(cfg, s) && Enabled(cfg, s, step)
    ensures Inv(cfg, Next(cfg, s, step))
  {
    NextRankOk(cfg, s, step);
    var p' := NextRank(cfg, s, step);
    assert s[step.r].phase <= 4 by { assert RankOk(cfg, step.r, s[step.r]); }
    assert step.Barrier? ==> forall q :: 0 <= q < |s| ==> Arrived(s[q], s[step.r].round);
    hide RankOk, NextRank, InStep, Progress, Arrived, Config.Valid, Enabled;
    KeptByUpdate(cfg, s, step, p');
  }

  lemma KeptByUpdate(cfg: Config, s: State, step: Step, p': Rank)
    requires step.r < |s| && Inv(cfg, s) && s[step.r].phase <= 4
    requires RankOk(cfg, step.r, p') && Progress(step, s[step.r], p')
    requires step.Barrier? ==> forall q :: 0 <= q < |s| ==> Arrived(s[q], s[step.r].round)
    ensures Inv(cfg, s[step.r := p'])
  {
    hide RankOk, InStep, Progress, Arrived;
    var t := s[step.r := p'];
    forall i, k | 0 <= i < |t| && 0 <= k < |t| ensures InStep(t[i], t[k]) {
      assert InStep(s[i], s[k]);
      StillInStep(s, step, i, k, p');
    }
  }

  /** Safety over every interleaving of N ranks and their workers. */
  lemma {:induction false} ReachableInv(cfg: Config, s: State, steps: seq<Step>, s': State)
    requires cfg.Valid() && Inv(cfg, s) && Runs(cfg, s, steps, s')
    ensures Inv(cfg, s')
    decreases |steps|
  {
    if steps != [] {
      NextInv(cfg, s, steps[0]);
      ReachableInv(cfg, Next(cfg, s, steps[0]), steps[1..], s');
    }
  }

  /** In every reachable state no socket or worker assertion has failed, and a worker that is handling a payload message
      reads exactly the registered tensors of that round, having loaded exactly those of all earlier rounds. */
  lemma {:induction false} UpdateSafe(cfg: Config, init: State, steps: seq<Step>, s: State, r: nat)
    requires cfg.Valid() && Initial(cfg, init) && Runs(cfg, init, steps, s) && r < cfg.n
    ensures |s| == cfg.n && !s[r].failed && s[r].round <= |cfg.jobs|
    ensures s[r].chan.Handling? && s[r].chan.msg.Weights? ==>
      && 0 < s[r].round && InBuffer(s[r].chan.msg.named, s[r].buffer)
      && Extracted(s[r].chan.msg.named, s[r].buffer) == cfg.jobs[s[r].round - 1].tensors
      && s[r].loaded == Delivered(cfg, s[r].round - 1)
  {
    hide Holds, Named, Config.Valid, InBuffer, Extracted, Delivered, Runs, Initial, InStep, BuffersOk, StagedOk,
         WorkerOk;
    InitialInv(cfg, init);
    ReachableInv(cfg, init, steps, s);
    assert RankOk(cfg, r, s[r]);
    if s[r].chan.Handling? && s[r].chan.msg.Weights? {
      WorkerReads(cfg, r, s[r], s[r].chan.msg);
    }
  }

  // ----- Progress -----

  predicate Done(cfg: Config, p: Rank) { p.round == |cfg.jobs| && p.phase == 4 }

  /** Rank i is not ahead of rank k. */
  predicate NotAhead(p: Rank, q: Rank)
  {
    p.round < q.round || (p.round == q.round && p.phase <= q.phase)
  }

  lemma {:induction false} Slowest(s: State, n: nat) returns (m: nat)
    requires 0 < n <= |s|
    ensures m < n && forall q :: 0 <= q < n ==> NotAhead(s[m], s[q])
  {
    if n == 1 {
      m := 0;
    } else {
      m := Slowest(s, n - 1);
      if !NotAhead(s[m], s[n - 1]) {
        m := n - 1;
      }
    }
  }

  ghost predicate Positioned(cfg: Config, p: Rank)
  {
    && !p.failed && p.round <= |cfg.jobs| && p.phase <= 4
    && (AtReceive(cfg, p) ==> !p.chan.Idle?)
    && (p.inFlight ==> InRounds(cfg, p, 2) || InRounds(cfg, p, 3))
  }

  /** At a barrier the slowest rank can pass, or some broadcast can land. */
  lemma SlowestAtBarrier(cfg: Config, s: State, m: nat) returns (step: Step)
    requires m < |s| && s[m].phase == 3 && forall q :: 0 <= q < |s| ==> NotAhead(s[m], s[q]) && Positioned(cfg, s[q])
    requires s[m].round < |cfg.jobs| ==> cfg.jobs[s[m].round].receiver < |s|
    ensures Enabled(cfg, s, step)
  {
    if q :| 0 <= q < |s| && !Arrived(s[q], s[m].round) {
      assert NotAhead(s[m], s[q]) && Positioned(cfg, s[q]);
      assert NotAhead(s[m], s[cfg.jobs[s[m].round].receiver]);
      step := Land(q);
    } else {
      step := Barrier(m);
    }
  }

  lemma SlowestMoves(cfg: Config, s: State, m: nat) returns (step: Step)
    requires m < |s| && forall q :: 0 <= q < |s| ==> NotAhead(s[m], s[q]) && Positioned(cfg, s[q])
    requires s[m].round < |cfg.jobs| ==> cfg.jobs[s[m].round].receiver < |s|
    requires !Done(cfg, s[m])
    ensures Enabled(cfg, s, step)
  {
    var p := s[m];
    if !p.chan.Idle? && !p.chan.Replied? {
      step := if p.chan.Queued? then Take(m) else Reply(m);
    } else if AtReceive(cfg, p) {
      step := Receive(m);
    } else if AtSend(cfg, p) {
      step := Send(m);
    } else if InRounds(cfg, p, 0) {
      step := Stage(m);
    } else if InRounds(cfg, p, 1) {
      step := Issue(m, seq(|cfg.jobs[p.round].data|, _ => 0));
    } else {
      step := SlowestAtBarrier(cfg, s, m);
    }
  }

  lemma AllPositioned(cfg: Config, s: State)
    requires Inv(cfg, s)
    ensures forall r :: 0 <= r < |s| ==> Positioned(cfg, s[r])
  {
    hide WorkerOk, SlotHolds, StagedOk, InStep;
    forall r | 0 <= r < |s| ensures Positioned(cfg, s[r]) {
      assert RankOk(cfg, r, s[r]);
    }
  }

  /** No deadlock: while some rank has not finished, some rank or worker can take a step. */
  lemma NoDeadlock(cfg: Config, s: State) returns (step: Step)
    requires cfg.Valid() && Inv(cfg, s)
    requires exists r :: 0 <= r < |s| && !Done(cfg, s[r])
    ensures Enabled(cfg, s, step) && step.r < |s|
  {
    var m := Slowest(s, |s|);
    AllPositioned(cfg, s);
    assert s[m].round < |cfg.jobs| ==> cfg.jobs[s[m].round].receiver < |s|;
    assert !Done(cfg, s[m]);
    hide *;
    step := SlowestMoves(cfg, s, m);
  }

  function ChanWeight(c: Chan): nat { if c.Queued? then 2 else if c.Handling? then 1 else 0 }

  /** Steps still to be taken by one rank and its worker, at most. */
  function Work(cfg: Config, p: Rank): int
  {
    3 * (5 * (|cfg.jobs| - p.round) + 4 - p.phase) + ChanWeight(p.chan) + (if p.inFlight then 1 else 0)
  }

  lemma StepWorks(cfg: Config, s: State, step: Step)
    requires cfg.Valid() && Inv(cfg, s) && Enabled(cfg, s, step)
    ensures Work(cfg, NextRank(cfg, s, step)) < Work(cfg, s[step.r])
  {
    hide Holds, Named, InBuffer, Extracted, Delivered, SlotHolds;
    NextRankOk(cfg, s, step);
    assert RankOk(cfg, step.r, s[step.r]);
  }

  function TotalWork(cfg: Config, s: State): int
  {
    if s == [] then 0 else TotalWork(cfg, s[..|s| - 1]) + Work(cfg, s[|s| - 1])
  }

  lemma {:induction false} TotalWorkUpdate(cfg: Config, s: State, r: nat, p': Rank)
    requires r < |s|
    ensures TotalWork(cfg, s[r := p']) == TotalWork(cfg, s) - Work(cfg, s[r]) + Work(cfg, p')
    decreases |s|
  {
    var s' := s[r := p'];
    if r == |s| - 1 {
      assert s'[..|s| - 1] == s[..|s| - 1];
    } else {
      assert s'[..|s| - 1] == s[..|s| - 1][r := p'];
      TotalWorkUpdate(cfg, s[..|s| - 1], r, p');
    }
  }

  lemma {:induction false} WorkNonNegative(cfg: Config, s: State)
    requires forall p :: p in s ==> p.round <= |cfg.jobs| && p.phase <= 4
    ensures TotalWork(cfg, s) >= 0
    decreases |s|
  {
    if s != [] {
      WorkNonNegative(cfg, s[..|s| - 1]);
    }
  }

  /** Every run is finite: each step spends some of the work that the start had. */
  lemma {:induction false} RunsAreShort(cfg: Config, s: State, steps: seq<Step>, s': State)
    requires cfg.Valid() && Inv(cfg, s) && Runs(cfg, s, steps, s')
    ensures |steps| <= TotalWork(cfg, s) - TotalWork(cfg, s')
    decreases |steps|
  {
    if steps != [] {
      StepWorks(cfg, s, steps[0]);
      TotalWorkUpdate(cfg, s, steps[0].r, NextRank(cfg, s, steps[0]));
      NextInv(cfg, s, steps[0]);
      RunsAreShort(cfg, Next(cfg, s, steps[0]), steps[1..], s');
    }
  }

  lemma {:induction false} InitialWork(cfg: Config, s: State)
    requires forall p :: p in s ==> p.round == 0 && p.phase == 0 && !p.inFlight && p.chan == Queued(Handle)
    ensures TotalWork(cfg, s) == |s| * (15 * |cfg.jobs| + 14)
    decreases |s|
  {
    if s != [] {
      InitialWork(cfg, s[..|s| - 1]);
      assert s[|s| - 1] in s;
      assert |s| * (15 * |cfg.jobs| + 14) == (|s| - 1) * (15 * |cfg.jobs| + 14) + (15 * |cfg.jobs| + 14);
    }
  }

  /** No run of n ranks and their workers is longer than this. */
  function MostSteps(cfg: Config): nat
  {
    cfg.n * (15 * |cfg.jobs| + 14)
  }

  /** Every rank has finished and every worker has left its loop with the tensors of all rounds in order. */
  ghost predicate Completed(cfg: Config, s: State)
  {
    |s| == cfg.n && forall r :: 0 <= r < cfg.n ==>
      Done(cfg, s[r]) && s[r].ended && s[r].loaded == Delivered(cfg, |cfg.jobs|)
  }

  lemma DoneCompletes(cfg: Config, s: State)
    requires Inv(cfg, s) && forall r :: 0 <= r < |s| ==> Done(cfg, s[r])
    ensures Completed(cfg, s)
  {
    hide InStep, BuffersOk, StagedOk;
    forall r | 0 <= r < cfg.n ensures s[r].ended && s[r].loaded == Delivered(cfg, |cfg.jobs|) {
      assert RankOk(cfg, r, s[r]) && Done(cfg, s[r]);
    }
  }

  lemma {:induction false} InvWork(cfg: Config, s: State)
    requires Inv(cfg, s)
    ensures TotalWork(cfg, s) >= 0
  {
    forall p | p in s ensures p.round <= |cfg.jobs| && p.phase <= 4 {
      var r :| 0 <= r < |s| && s[r] == p;
      assert RankOk(cfg, r, s[r]);
    }
    hide RankOk, InStep;
    WorkNonNegative(cfg, s);
  }

  lemma {:induction false} BoundedRun(cfg: Config, init: State, steps: seq<Step>, s: State)
    requires cfg.Valid() && Initial(cfg, init) && Runs(cfg, init, steps, s)
    ensures |steps| <= MostSteps(cfg) && Inv(cfg, s)
  {
    InitialInv(cfg, init);
    hide Inv, Runs, Config.Valid, TotalWork;
    ReachableInv(cfg, init, steps, s);
    RunsAreShort(cfg, init, steps, s);
    InitialWork(cfg, init);
    InvWork(cfg, s);
  }

  lemma StuckCompletes(cfg: Config, s: State)
    requires cfg.Valid() && Inv(cfg, s) && forall step :: !Enabled(cfg, s, step)
    ensures Completed(cfg, s)
  {
    hide *;
    if exists r :: 0 <= r < |s| && !Done(cfg, s[r]) {
      var step := NoDeadlock(cfg, s);
      assert false;
    }
    DoneCompletes(cfg, s);
  }

  /** Every run of the update is bounded, and a run that can go no further has every rank finished, every worker out of
      its receive loop, and every worker loaded with the tensors of all rounds in order, each exactly once. */
  lemma {:induction false} UpdateCompletes(cfg: Config, init: State, steps: seq<Step>, s: State)
    requires cfg.Valid() && Initial(cfg, init) && Runs(cfg, init, steps, s)
    ensures |steps| <= MostSteps(cfg)
    ensures (forall step :: !Enabled(cfg, s, step)) ==> Completed(cfg, s)
  {
    hide *;
    BoundedRun(cfg, init, steps, s);
    if forall step :: !Enabled(cfg, s, step) {
      StuckCompletes(cfg, s);
    }
  }

  lemma {:induction false} RunsOn(cfg: Config, s: State) returns (steps: seq<Step>, s': State)
    requires cfg.Valid() && Inv(cfg, s)
    ensures Runs(cfg, s, steps, s') && Completed(cfg, s')
    decreases TotalWork(cfg, s)
  {
    hide RankOk, InStep, Enabled, Completed, Config.Valid, TotalWork, NextRank;
    if exists r :: 0 <= r < |s| && !Done(cfg, s[r]) {
      var step := NoDeadlock(cfg, s);
      StepWorks(cfg, s, step);
      TotalWorkUpdate(cfg, s, step.r, NextRank(cfg, s, step));
      InvWork(cfg, s);
      NextInv(cfg, s, step);
      var more;
      more, s' := RunsOn(cfg, Next(cfg, s, step));
      steps := [step] + more;
      assert steps[1..] == more;
    } else {
      steps, s' := [], s;
      DoneCompletes(cfg, s);
    }
  }

  /** The start of an update. */
  function Start(cfg: Config): (s: State)
    ensures |s| == cfg.n
  {
    seq(cfg.n, _ => Rank(0, 0, Repeat(0, cfg.bucketSize), Repeat(0, 2 * cfg.bucketSize), false, Queued(Handle),
                         false, [], false, false))
  }

  /** A valid update has a run that completes. */
  lemma {:induction false} SomeRunCompletes(cfg: Config) returns (init: State, steps: seq<Step>, s: State)
    requires cfg.Valid()
    ensures Initial(cfg, init) && Runs(cfg, init, steps, s) && Completed(cfg, s)
  {
    init := Start(cfg);
    InitialInv(cfg, init);
    hide Runs, Inv, Config.Valid, Completed;
    steps, s := RunsOn(cfg, init);
  }

  // ----- A bucket that cannot be read -----

  /** The rank has not passed the given phase of round g. */
  predicate UpTo(p: Rank, g: nat, phase: nat)
  {
    p.round < g || (p.round == g && p.phase <= phase)
  }

  /** Where the sender of an unreadable bucket stops: at the staging of its column, or at filling the slot. */
  ghost predicate StopsAt(cfg: Config, r: nat, g: nat, phase: nat)
  {
    && g < |cfg.jobs|
    && if cfg.h2d
       then phase == 0 && cfg.StartsColumn(g)
            && var own := Own(cfg.jobs, r, cfg.jobs[g].column, 0); own.Some? && !cfg.jobs[own.value].readable
       else phase == 1 && cfg.jobs[g].receiver == r && !cfg.jobs[g].readable
  }

  lemma StopsRank(cfg: Config, s: State, step: Step, g: nat, phase: nat)
    requires Enabled(cfg, s, step) && StopsAt(cfg, step.r, g, phase) && UpTo(s[step.r], g, phase)
    ensures UpTo(NextRank(cfg, s, step), g, phase)
  {
    hide Splice;
  }

  lemma {:induction false} StaysStopped(cfg: Config, s: State, steps: seq<Step>, s': State, r: nat, g: nat, phase: nat)
    requires Runs(cfg, s, steps, s') && StopsAt(cfg, r, g, phase) && r < |s| && UpTo(s[r], g, phase)
    ensures |s'| == |s| && UpTo(s'[r], g, phase)
    decreases |steps|
  {
    if steps != [] {
      if steps[0].r == r {
        StopsRank(cfg, s, steps[0], g, phase);
      }
      hide StopsAt, UpTo, NextRank, Enabled;
      StaysStopped(cfg, Next(cfg, s, steps[0]), steps[1..], s', r, g, phase);
    }
  }

  lemma {:induction false} ColumnStart(cfg: Config, g: nat) returns (first: nat)
    requires g < |cfg.jobs|
    ensures first <= g && cfg.StartsColumn(first) && cfg.jobs[first].column == cfg.jobs[g].column
  {
    if cfg.StartsColumn(g) {
      first := g;
    } else {
      first := ColumnStart(cfg, g - 1);
    }
  }

  /** If the ranges of some bucket are not in its sender's memory, that rank does not finish in any run. */
  lemma {:induction false} UnreadableStops(cfg: Config, g: nat, init: State, steps: seq<Step>, s: State)
    requires g < |cfg.jobs| && !cfg.jobs[g].readable && cfg.jobs[g].receiver < cfg.n && cfg.Ordered()
    requires Initial(cfg, init) && Runs(cfg, init, steps, s)
    ensures |s| == cfg.n && !Done(cfg, s[cfg.jobs[g].receiver])
  {
    var r, at, phase := cfg.jobs[g].receiver, g, 1;
    if cfg.h2d {
      at := ColumnStart(cfg, g);
      phase := 0;
      assert Own(cfg.jobs, r, cfg.jobs[g].column, 0) == Some(g);
    }
    hide Runs;
    StaysStopped(cfg, init, steps, s, r, at, phase);
  }
}
