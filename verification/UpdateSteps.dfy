/** What the ranks and workers of an update can do at any time, what a broadcast leaves in the shared buffer, and why no
    socket or worker assertion is in reach. */
module UpdateSteps {
  import opened Sequences
  import opened Tensors
  import opened Worker
  import opened UpdateProtocol

  /** The first round uses the first slot, and from round to round the slots alternate. */
  lemma SlotsAlternate(cfg: Config, g: nat)
    ensures cfg.At(0) == 0 && (cfg.At(g) == 0 || cfg.At(g) == cfg.bucketSize)
    ensures cfg.At(g) + cfg.At(g + 1) == cfg.bucketSize
  {
    SlotsApart(cfg, g + 1);
  }

  lemma {:induction false} Reached(cfg: Config, init: State, steps: seq<Step>, s: State, r: nat)
    requires cfg.Valid() && Initial(cfg, init) && Runs(cfg, init, steps, s) && r < cfg.n
    ensures |s| == cfg.n && Inv(cfg, s) && RankOk(cfg, r, s[r])
  {
    hide Runs, Initial, RankOk, InStep;
    InitialInv(cfg, init);
    ReachableInv(cfg, init, steps, s);
  }

  // ----- Who can go on -----

  /** The rank has reached the barrier of round g with its broadcast landed, or is past it. */
  predicate AtBarrier(p: Rank, g: nat)
  {
    p.round > g || (p.round == g && p.phase >= 3 && (p.phase == 3 ==> !p.inFlight))
  }

  /** The next step of the rank itself, by its place in the round: nothing but the worker's reply and the barrier can
      hold it up. */
  ghost predicate GoesOn(cfg: Config, s: State, r: nat)
    requires r < |s|
  {
    var p := s[r];
    if p.round < |cfg.jobs| then
      && (p.phase == 0 ==> Enabled(cfg, s, Stage(r)))
      && (p.phase == 1 ==> forall junk :: |junk| == |cfg.jobs[p.round].data| ==> Enabled(cfg, s, Issue(r, junk)))
      && (p.phase == 2 && p.chan.Replied? ==> Enabled(cfg, s, Receive(r)))
      && (p.phase == 3 && (forall q :: 0 <= q < |s| ==> AtBarrier(s[q], p.round)) ==> Enabled(cfg, s, Barrier(r)))
      && (p.phase == 4 ==> Enabled(cfg, s, Send(r)))
    else
      && (p.phase == 0 && p.chan.Replied? ==> Enabled(cfg, s, Receive(r)))
      && (p.phase == 1 ==> Enabled(cfg, s, Send(r)))
      && (p.phase == 2 && p.chan.Replied? ==> Enabled(cfg, s, Receive(r)))
      && (p.phase == 3 && (forall q :: 0 <= q < |s| ==> AtBarrier(s[q], p.round)) ==> Enabled(cfg, s, Barrier(r)))
  }

  /** A broadcast lands once its sender has issued it, and a worker never waits for anything but a message. */
  ghost predicate OthersGoOn(cfg: Config, s: State, r: nat)
    requires r < |s|
  {
    var p := s[r];
    && (p.inFlight ==>
          && p.round < |cfg.jobs| && cfg.jobs[p.round].receiver < |s|
          && var sender := s[cfg.jobs[p.round].receiver];
             sender.round > p.round || (sender.round == p.round && sender.phase >= 2) ==> Enabled(cfg, s, Land(r)))
    && (p.chan.Queued? ==> Enabled(cfg, s, Take(r)))
    && (p.chan.Handling? ==> Enabled(cfg, s, Reply(r)))
  }

  /** In every reachable state a rank that has not finished is held up only by its worker's reply or by ranks that have
      not reached its barrier, a broadcast only by its sender, and a worker by nothing. */
  lemma {:induction false} HeldUpOnly(cfg: Config, init: State, steps: seq<Step>, s: State, r: nat)
    requires cfg.Valid() && Initial(cfg, init) && Runs(cfg, init, steps, s) && r < cfg.n
    ensures |s| == cfg.n && GoesOn(cfg, s, r) && OthersGoOn(cfg, s, r)
  {
    hide *;
    Reached(cfg, init, steps, s, r);
    AllPositioned(cfg, s);
    ReceiversThere(cfg, s);
    RankGoesOn(cfg, s, r);
    OthersMove(cfg, s, r);
  }

  lemma ReceiversThere(cfg: Config, s: State)
    requires cfg.Valid() && |s| == cfg.n
    ensures forall g :: 0 <= g < |cfg.jobs| ==> cfg.jobs[g].receiver < |s|
  {
  }

  lemma RankGoesOn(cfg: Config, s: State, r: nat)
    requires r < |s| && forall q :: 0 <= q < |s| ==> Positioned(cfg, s[q])
    ensures GoesOn(cfg, s, r)
  {
    forall q, g | 0 <= q < |s| && AtBarrier(s[q], g) ensures Arrived(s[q], g) {
      assert Positioned(cfg, s[q]);
    }
    assert Positioned(cfg, s[r]);
    hide AtBarrier, Arrived, Positioned;
  }

  lemma OthersMove(cfg: Config, s: State, r: nat)
    requires r < |s| && Positioned(cfg, s[r]) && forall g :: 0 <= g < |cfg.jobs| ==> cfg.jobs[g].receiver < |s|
    ensures OthersGoOn(cfg, s, r)
  {
  }

  // ----- What a broadcast leaves in the buffer -----

  /** Only the slot of round g differs, and it begins with the given bytes. */
  predicate OnlySlot(cfg: Config, p: Rank, p': Rank, g: nat, data: seq<byte>)
  {
    && |p'.buffer| == |p.buffer| && cfg.At(g) + |data| <= |p.buffer|
    && p'.buffer[cfg.At(g)..cfg.At(g) + |data|] == data
    && forall i :: 0 <= i < |p.buffer| && !(cfg.At(g) <= i < cfg.At(g) + |data|) ==> p'.buffer[i] == p.buffer[i]
  }

  /** Issuing a broadcast puts the round's bucket into the sender's slot, whichever memory it comes from; in every other
      rank's slot there may be anything until it lands. */
  lemma {:induction false} IssuedBytes(cfg: Config, init: State, steps: seq<Step>, s: State, r: nat, junk: seq<byte>)
    requires cfg.Valid() && Initial(cfg, init) && Runs(cfg, init, steps, s) && r < |s|
    requires Enabled(cfg, s, Issue(r, junk))
    ensures |s| == cfg.n
    ensures var g, p' := s[r].round, Next(cfg, s, Issue(r, junk))[r];
            && p' == s[r].(phase := 2, inFlight := true, buffer := p'.buffer)
            && OnlySlot(cfg, s[r], p', g, if r == cfg.jobs[g].receiver then cfg.jobs[g].data else junk)
  {
    hide *;
    AllThere(cfg, init, steps, s);
    Reached(cfg, init, steps, s, r);
    IssueNext(cfg, s, r, junk);
    IssueEffect(cfg, r, s[r], junk);
    SplicedOnly(cfg, s[r], Next(cfg, s, Issue(r, junk))[r], s[r].round, IssuedData(cfg, r, s[r], junk));
  }

  lemma SplicedOnly(cfg: Config, p: Rank, p': Rank, g: nat, data: seq<byte>)
    requires cfg.At(g) + |data| <= |p.buffer| && p'.buffer == Splice(p.buffer, cfg.At(g), data)
    ensures OnlySlot(cfg, p, p', g, data)
  {
    hide Splice;
  }

  lemma {:induction false} AllThere(cfg: Config, init: State, steps: seq<Step>, s: State)
    requires cfg.Valid() && Initial(cfg, init) && Runs(cfg, init, steps, s)
    ensures |s| == cfg.n
  {
    Reached(cfg, init, steps, s, 0);
    hide Runs, Inv, RankOk;
  }

  lemma IssueNext(cfg: Config, s: State, r: nat, junk: seq<byte>)
    requires Enabled(cfg, s, Issue(r, junk))
    ensures InRounds(cfg, s[r], 1) && s[r].phase == 1 && |junk| == |cfg.jobs[s[r].round].data|
    ensures s[r].Advance() == s[r].(phase := 2)
    ensures Next(cfg, s, Issue(r, junk))[r] == IssueRank(cfg, r, s[r], junk)
    ensures r != cfg.jobs[s[r].round].receiver ==> IssuedData(cfg, r, s[r], junk) == junk
  {
    hide IssueRank;
  }

  /** A broadcast that lands leaves the round's bucket in the slot. */
  lemma {:induction false} LandedBytes(cfg: Config, init: State, steps: seq<Step>, s: State, r: nat)
    requires cfg.Valid() && Initial(cfg, init) && Runs(cfg, init, steps, s) && r < |s| && Enabled(cfg, s, Land(r))
    ensures |s| == cfg.n
    ensures var g, p' := s[r].round, Next(cfg, s, Land(r))[r];
            && p' == s[r].(inFlight := false, buffer := p'.buffer)
            && OnlySlot(cfg, s[r], p', g, cfg.jobs[g].data)
  {
    Reached(cfg, init, steps, s, 0);
    assert RankOk(cfg, r, s[r]);
    hide Runs, Initial, Config.Valid, Splice, WorkerOk, ChanOk, StagedOk, InStep;
    SourceHolds(cfg, s, Land(r));
    hide Inv, RankOk;
  }

  // ----- Why no assertion fails -----

  /** A message is sent only when no reply is outstanding, and awaited only when one is. The worker maps the buffer
      once, before anything else, loads only after that, and its last message is the end, after all rounds. */
  ghost predicate InTurn(cfg: Config, p: Rank)
    requires p.round <= |cfg.jobs|
  {
    && (p.phase == 4 && p.round < |cfg.jobs| ==> p.chan.Idle?)
    && (p.round == |cfg.jobs| && p.phase == 1 ==> p.chan.Idle?)
    && (p.phase == 2 || (p.round == |cfg.jobs| && p.phase == 0) ==> !p.chan.Idle?)
    && (p.chan.Handling? ==>
          match p.chan.msg
          case Handle => !p.attached && p.loaded == []
          case Weights(_) => p.attached && !p.ended
          case Finished => p.attached && !p.ended && p.loaded == Delivered(cfg, |cfg.jobs|))
  }

  lemma {:induction false} AlwaysInTurn(cfg: Config, init: State, steps: seq<Step>, s: State, r: nat)
    requires cfg.Valid() && Initial(cfg, init) && Runs(cfg, init, steps, s) && r < cfg.n
    ensures |s| == cfg.n && s[r].round <= |cfg.jobs| && InTurn(cfg, s[r])
  {
    hide *;
    Reached(cfg, init, steps, s, r);
    RankInTurn(cfg, r, s[r]);
  }

  lemma RankInTurn(cfg: Config, r: nat, p: Rank)
    requires RankOk(cfg, r, p)
    ensures p.round <= |cfg.jobs| && InTurn(cfg, p)
  {
    hide BuffersOk, StagedOk;
  }
}
