/** What rollback consistency means for the runs of the agent loop: shape, environment, costs, rework and length. */
module AgentRuns {
  import opened Sequences
  import opened AgentLoop
  import Tail = TailModel

  // ----- Shape and environment at the loop head -----

  /** The environment after the logged actions. */
  function RunActions<E>(cfg: Config<E>, entries: seq<StepEntry>): E
  {
    if entries == [] then cfg.base
    else cfg.exec(RunActions(cfg, entries[..|entries| - 1]), entries[|entries| - 1].action)
  }

  function EnvCost(entries: seq<StepEntry>): real
  {
    if entries == [] then 0.0 else EnvCost(entries[..|entries| - 1]) + entries[|entries| - 1].elapsed
  }

  function LlmCost(entries: seq<StepEntry>): real
  {
    if entries == [] then 0.0 else LlmCost(entries[..|entries| - 1]) + entries[|entries| - 1].llmElapsed
  }

  lemma {:induction false} Snoc<E>(cfg: Config<E>, entries: seq<StepEntry>, e: StepEntry)
    ensures RunActions(cfg, entries + [e]) == cfg.exec(RunActions(cfg, entries), e.action)
    ensures EnvCost(entries + [e]) == EnvCost(entries) + e.elapsed
    ensures LlmCost(entries + [e]) == LlmCost(entries) + e.llmElapsed
  {
    assert (entries + [e])[..|entries|] == entries;
  }

  /** The environment and the cumulative costs of a replay are determined by its step log. */
  lemma {:induction false} ReplayFollowsLog<E>(cfg: Config<E>, kept: seq<Kept>)
    ensures var c := Replay(cfg, kept);
            c.env == RunActions(cfg, c.stepDebug) && c.cumulativeEnv == EnvCost(c.stepDebug)
            && c.cumulativeLlm == LlmCost(c.stepDebug)
  {
    if kept != [] {
      var init, k := kept[..|kept| - 1], kept[|kept| - 1];
      var c := Replay(cfg, init);
      ReplayFollowsLog(cfg, init);
      hide RunActions, EnvCost, LlmCost;
      if cfg.parse(k.text).Some? {
        Snoc(cfg, c.stepDebug, Replay(cfg, kept).stepDebug[|c.stepDebug|]);
      }
    }
  }

  /** Turn i is in the conversation, the texts and the contexts, at the places that belong to it. */
  predicate TurnInPlace<E>(cfg: Config<E>, c: Core<E>, i: nat)
    requires |c.messages| >= 4 + 2 * i && |c.contexts| > i && |c.texts| > i
  {
    && c.messages[2 + 2 * i] == Message(Assistant, c.texts[i])
    && c.messages[3 + 2 * i].role == User
    && c.contexts[i] == cfg.contextOf(c.messages[..2 + 2 * i])
  }

  /** A turn in place stays in place when the lists grow. */
  lemma SamePlace<E>(cfg: Config<E>, c: Core<E>, d: Core<E>, i: nat)
    requires |c.messages| >= 4 + 2 * i && |c.contexts| > i && |c.texts| > i && TurnInPlace(cfg, c, i)
    requires c.messages <= d.messages && c.contexts <= d.contexts && c.texts <= d.texts
    ensures TurnInPlace(cfg, d, i)
  {
    assert d.messages[..2 + 2 * i] == c.messages[..2 + 2 * i];
  }

  lemma {:induction false} ReplayInPlace<E>(cfg: Config<E>, kept: seq<Kept>, i: nat)
    requires i < |kept|
    ensures var c := Replay(cfg, kept);
            |c.messages| == 2 + 2 * |kept| && |c.contexts| == |kept| == |c.texts| && TurnInPlace(cfg, c, i)
  {
    var init := kept[..|kept| - 1];
    ReplayShape(cfg, kept);
    ReplayShape(cfg, init);
    var c, d := Replay(cfg, init), Replay(cfg, kept);
    if i < |init| {
      ReplayInPlace(cfg, init, i);
      assert c.messages <= d.messages && c.contexts <= d.contexts && c.texts <= d.texts;
      hide Replay;
      SamePlace(cfg, c, d, i);
    } else {
      assert d.messages[..2 + 2 * i] == c.messages;
    }
  }

  /** At every loop head of every run, however many faults it had: the conversation holds the two prompts and two
      messages per retained turn, contexts and texts match the messages they came from, and the environment is the
      base one after exactly the logged actions. */
  lemma {:induction false} LoopHead<E>(cfg: Config<E>, script: seq<Turn>)
    requires After(cfg, script).status != Submitted
    ensures var c := After(cfg, script).core;
            && |c.messages| == 2 + 2 * c.step && |c.contexts| == c.step && |c.texts| == c.step
            && (forall i: nat :: i < c.step ==> TurnInPlace(cfg, c, i))
            && c.env == RunActions(cfg, c.stepDebug)
            && c.cumulativeEnv == EnvCost(c.stepDebug) && c.cumulativeLlm == LlmCost(c.stepDebug)
  {
    RollbackConsistent(cfg, script);
    var kept := KeptAfter(cfg, script);
    ReplayShape(cfg, kept);
    ReplayFollowsLog(cfg, kept);
    hide Replay, TurnInPlace, RunActions, LedgerOk;
    forall i: nat | i < |kept| ensures TurnInPlace(cfg, Replay(cfg, kept), i) {
      ReplayInPlace(cfg, kept, i);
    }
  }

  // ----- The cost of a fault -----

  /** The entries a resume at r discards. */
  function From(entries: seq<StepEntry>, r: nat): seq<StepEntry>
  {
    if entries == [] then []
    else From(entries[..|entries| - 1], r)
         + (if entries[|entries| - 1].stepIdx >= r then [entries[|entries| - 1]] else [])
  }

  lemma {:induction false} CostsSplit(entries: seq<StepEntry>, r: nat)
    ensures EnvCost(entries) == EnvCost(Before(entries, r)) + EnvCost(From(entries, r))
    ensures LlmCost(entries) == LlmCost(Before(entries, r)) + LlmCost(From(entries, r))
  {
    if entries != [] {
      var init, e := entries[..|entries| - 1], entries[|entries| - 1];
      CostsSplit(init, r);
      CostMaybe(Before(init, r), e, e.stepIdx < r);
      CostMaybe(From(init, r), e, e.stepIdx >= r);
    }
  }

  lemma {:induction false} CostMaybe(entries: seq<StepEntry>, e: StepEntry, more: bool)
    ensures EnvCost(entries + (if more then [e] else [])) == EnvCost(entries) + (if more then e.elapsed else 0.0)
    ensures LlmCost(entries + (if more then [e] else [])) == LlmCost(entries) + (if more then e.llmElapsed else 0.0)
  {
    if more {
      assert (entries + [e])[..|entries|] == entries;
    } else {
      assert entries + [] == entries;
    }
  }

  predicate Clocked(entries: seq<StepEntry>)
  {
    forall i :: 0 <= i < |entries| ==> entries[i].elapsed >= 0.0 && entries[i].llmElapsed >= 0.0
  }

  lemma {:induction false} CostsNonNegative(entries: seq<StepEntry>, r: nat)
    requires Clocked(entries)
    ensures EnvCost(From(entries, r)) >= 0.0 && LlmCost(From(entries, r)) >= 0.0
  {
    if entries != [] {
      var init, e := entries[..|entries| - 1], entries[|entries| - 1];
      CostsNonNegative(init, r);
      CostMaybe(From(init, r), e, e.stepIdx >= r);
    }
  }

  /** A ledger tied to the retained turns protects the costs of exactly the logged steps before its resume step. */
  lemma {:induction false} ProtectedIsRetained<E>(cfg: Config<E>, kept: seq<Kept>, l: Ledger<E>)
    requires LedgerOk(cfg, kept, l)
    ensures var c := Replay(cfg, kept);
            l.protectedEnv == EnvCost(Before(c.stepDebug, l.resume))
            && l.protectedLlm == LlmCost(Before(c.stepDebug, l.resume))
  {
    hide Replay, Before, EnvCost, LlmCost;
    ReplayFollowsLog(cfg, kept[..l.resume]);
    TrimmedReplay(cfg, kept, l.resume);
  }

  /** So the redo cost that the adaptive policy weighs is the cost of exactly the steps that a resume from the ready
      checkpoint discards, and no clamp is active. */
  lemma {:induction false} RedoIsDiscarded<E>(cfg: Config<E>, kept: seq<Kept>, l: Ledger<E>)
    requires LedgerOk(cfg, kept, l) && Clocked(Replay(cfg, kept).stepDebug)
    ensures var c := Replay(cfg, kept);
            && c.cumulativeEnv - l.protectedEnv == EnvCost(From(c.stepDebug, l.resume)) >= 0.0
            && c.cumulativeLlm - l.protectedLlm == LlmCost(From(c.stepDebug, l.resume)) >= 0.0
            && RedoCost(c, l) == EnvCost(From(c.stepDebug, l.resume)) + LlmCost(From(c.stepDebug, l.resume))
  {
    hide Replay, Before, From, EnvCost, LlmCost, LedgerOk;
    var c := Replay(cfg, kept);
    ReplayFollowsLog(cfg, kept);
    ProtectedIsRetained(cfg, kept, l);
    CostsSplit(c.stepDebug, l.resume);
    CostsNonNegative(c.stepDebug, l.resume);
  }

  lemma {:induction false} ReplayClocked<E>(cfg: Config<E>, kept: seq<Kept>)
    requires forall k :: 0 <= k < |kept| ==> kept[k].llmElapsed >= 0.0
    ensures Clocked(Replay(cfg, kept).stepDebug)
  {
    if kept != [] {
      ReplayClocked(cfg, kept[..|kept| - 1]);
    }
  }

  lemma {:induction false} KeptClocked<E>(cfg: Config<E>, script: seq<Turn>)
    requires forall k :: 0 <= k < |script| ==> script[k].llmElapsed >= 0.0
    ensures forall k :: 0 <= k < |KeptAfter(cfg, script)| ==> KeptAfter(cfg, script)[k].llmElapsed >= 0.0
  {
    if script != [] {
      KeptClocked(cfg, script[..|script| - 1]);
      hide After;
    }
  }

  /** Cost conservation at every point of every wait of every run. */
  lemma {:induction false} CostsConserved<E>(cfg: Config<E>, script: seq<Turn>, polls: seq<Poll>)
    requires After(cfg, script).status != Submitted
    requires forall k :: 0 <= k < |script| ==> script[k].llmElapsed >= 0.0
    ensures var c := After(cfg, script).core;
            var l := Wait(cfg, c, After(cfg, script).ledger, NEW_BUBBLE, polls);
            && l.protectedEnv == EnvCost(Before(c.stepDebug, l.resume))
               && l.protectedLlm == LlmCost(Before(c.stepDebug, l.resume))
            && RedoCost(c, l) == EnvCost(From(c.stepDebug, l.resume)) + LlmCost(From(c.stepDebug, l.resume))
  {
    hide Replay, LedgerOk, RedoCost;
    var kept := KeptAfter(cfg, script);
    RollbackConsistent(cfg, script);
    WaitOk(cfg, kept, After(cfg, script).ledger, NEW_BUBBLE, polls);
    KeptClocked(cfg, script);
    ReplayClocked(cfg, kept);
    var l := Wait(cfg, Replay(cfg, kept), After(cfg, script).ledger, NEW_BUBBLE, polls);
    ProtectedIsRetained(cfg, kept, l);
    RedoIsDiscarded(cfg, kept, l);
  }

  // ----- A run with faults leaves no trace of them -----

  function Undisturbed(kept: seq<Kept>): (r: seq<Turn>)
    ensures |r| == |kept|
  {
    seq(|kept|,
        i requires 0 <= i < |kept| => Turn([], Some(kept[i].text), kept[i].llmElapsed, Ran(kept[i].execution),
                                           kept[i].elapsed))
  }

  /** Retained turns are those the loop continued after. */
  ghost predicate Continues<E>(cfg: Config<E>, kept: seq<Kept>)
  {
    && |kept| <= cfg.stepLimit
    && forall k :: 0 <= k < |kept| ==> cfg.parse(kept[k].text).Some? ==> !cfg.submits(cfg.parse(kept[k].text).value)
  }

  ghost predicate Retained<E>(cfg: Config<E>, s: State<E>, kept: seq<Kept>)
  {
    if s.status == Submitted then
      kept != [] && Continues(cfg, kept[..|kept| - 1]) && |kept| <= cfg.stepLimit
      && cfg.parse(kept[|kept| - 1].text).Some? && cfg.submits(cfg.parse(kept[|kept| - 1].text).value)
    else Continues(cfg, kept)
  }

  lemma TurnRetained<E>(cfg: Config<E>, s: State<E>, kept: seq<Kept>, t: Turn)
    requires Running(cfg, s) && Retained(cfg, s, kept) && |kept| == s.core.step
    ensures Retained(cfg, TakeTurn(cfg, s, t), KeptNext(cfg, kept, t, TakeTurn(cfg, s, t)))
  {
    hide Wait;
    var next := kept + [KeptTurn(t)];
    assert next[..|kept|] == kept;
  }

  lemma {:induction false} RunRetained<E>(cfg: Config<E>, script: seq<Turn>)
    ensures Retained(cfg, After(cfg, script), KeptAfter(cfg, script))
  {
    if script != [] {
      var init := script[..|script| - 1];
      RunRetained(cfg, init);
      RollbackConsistent(cfg, init);
      hide Retained, TakeTurn, KeptNext, LedgerOk;
      if Running(cfg, After(cfg, init)) {
        TurnRetained(cfg, After(cfg, init), KeptAfter(cfg, init), script[|script| - 1]);
      }
    }
  }

  lemma {:induction false} UndisturbedReplays<E>(cfg: Config<E>, kept: seq<Kept>)
    requires Continues(cfg, kept)
    ensures After(cfg, Undisturbed(kept)).status == Going && After(cfg, Undisturbed(kept)).core == Replay(cfg, kept)
  {
    if kept != [] {
      var init := kept[..|kept| - 1];
      UndisturbedReplays(cfg, init);
      assert Undisturbed(kept)[..|kept| - 1] == Undisturbed(init);
    }
  }

  /** Every run with faults ends in the state, the remote environment included, that a run without any fault or
      checkpoint reaches on the retained turns alone. */
  lemma {:induction false} FaultsLeaveNoTrace<E>(cfg: Config<E>, script: seq<Turn>)
    ensures After(cfg, Undisturbed(KeptAfter(cfg, script))).core == After(cfg, script).core
  {
    var kept := KeptAfter(cfg, script);
    var s := After(cfg, script);
    RollbackConsistent(cfg, script);
    RunRetained(cfg, script);
    if s.status == Submitted {
      var init := kept[..|kept| - 1];
      UndisturbedReplays(cfg, init);
      assert Undisturbed(kept)[..|kept| - 1] == Undisturbed(init);
      SubmitReplays(cfg, Undisturbed(init), kept[|kept| - 1], Undisturbed(kept));
    } else {
      UndisturbedReplays(cfg, kept);
    }
  }

  lemma {:induction false} SubmitReplays<E>(cfg: Config<E>, before: seq<Turn>, k: Kept, script: seq<Turn>)
    requires Running(cfg, After(cfg, before)) && cfg.parse(k.text).Some? && cfg.submits(cfg.parse(k.text).value)
    requires |script| == |before| + 1 && script[..|before|] == before
    requires script[|before|] == Turn([], Some(k.text), k.llmElapsed, Ran(k.execution), k.elapsed)
    ensures After(cfg, script).core == Submitting(cfg, After(cfg, before).core, k)
  {
  }

  // ----- How long a run is -----

  predicate IsFault<E>(cfg: Config<E>, t: Turn)
  {
    t.reply.Some? && cfg.parse(t.reply.value).Some? && t.outcome.Faulted?
  }

  function Taken<E>(cfg: Config<E>, script: seq<Turn>): nat
  {
    if script == [] then 0
    else Taken(cfg, script[..|script| - 1]) + (if Running(cfg, After(cfg, script[..|script| - 1])) then 1 else 0)
  }

  function Faults<E>(cfg: Config<E>, script: seq<Turn>): nat
  {
    if script == [] then 0
    else Faults(cfg, script[..|script| - 1])
         + (if Running(cfg, After(cfg, script[..|script| - 1])) && IsFault(cfg, script[|script| - 1]) then 1 else 0)
  }

  /** What a turn does to the step and the ledger, in terms of the ledger after the wait. */
  lemma {:induction false} TurnEffect<E>(cfg: Config<E>, s: State<E>, t: Turn)
    ensures var s', l := TakeTurn(cfg, s, t), Wait(cfg, s.core, s.ledger, NEW_BUBBLE, t.polls);
            if IsFault(cfg, t) then
              && s'.status == Going
              && (if l.ready.Some? && t.outcome.rerunOk then s'.core.step == l.resume && s'.ledger == Rerun(l)
                  else s'.core.step == 0 && s'.ledger == BaseRestart(l))
            else s'.ledger == l && s'.core.step + Stopped(s') == s.core.step + 1
  {
    hide Wait, Take, Before, Rerun, Observation;
  }

  function Stopped<E>(s: State<E>): nat { if s.status == Going then 0 else 1 }

  function Times(f: nat, limit: nat): nat { f * limit }

  lemma TimesSucc(f: nat, limit: nat)
    ensures Times(f + 1, limit) == Times(f, limit) + limit
  {
    assert (f + 1) * limit == f * limit + limit;
  }

  lemma TurnsStep<E>(cfg: Config<E>, s: State<E>, kept: seq<Kept>, t: Turn, taken: nat, faults: nat)
    requires Running(cfg, s) && Consistent(cfg, s, kept) && taken <= Times(faults, cfg.stepLimit) + s.core.step
    ensures var s' := TakeTurn(cfg, s, t);
            && taken + 1 <= Times(faults + (if IsFault(cfg, t) then 1 else 0), cfg.stepLimit) + s'.core.step
               + Stopped(s')
            && s'.core.step + Stopped(s') <= cfg.stepLimit
  {
    WaitOk(cfg, kept, s.ledger, NEW_BUBBLE, t.polls);
    hide TakeTurn, Wait, IsFault, Times, Replay;
    TurnEffect(cfg, s, t);
    TimesSucc(faults, cfg.stepLimit);
  }

  lemma {:induction false} TurnsBySteps<E>(cfg: Config<E>, script: seq<Turn>)
    ensures var s := After(cfg, script);
            && Taken(cfg, script) <= Times(Faults(cfg, script), cfg.stepLimit) + s.core.step + Stopped(s)
            && s.core.step + Stopped(s) <= cfg.stepLimit
  {
    hide TakeTurn, Consistent, IsFault, Times;
    if script != [] {
      var init := script[..|script| - 1];
      TurnsBySteps(cfg, init);
      if Running(cfg, After(cfg, init)) {
        RollbackConsistent(cfg, init);
        TurnsStep(cfg, After(cfg, init), KeptAfter(cfg, init), script[|script| - 1], Taken(cfg, init),
                  Faults(cfg, init));
      }
    }
  }

  /** Under every policy a run with F faults takes at most (F + 1) * step_limit turns. */
  lemma {:induction false} TurnBound<E>(cfg: Config<E>, script: seq<Turn>)
    ensures Taken(cfg, script) <= (Faults(cfg, script) + 1) * cfg.stepLimit
  {
    TurnsBySteps(cfg, script);
    TimesSucc(Faults(cfg, script), cfg.stepLimit);
  }

  // ----- Rework under the fixed policies -----

  predicate Fixed<E>(cfg: Config<E>) { cfg.policy == Always || cfg.policy == EveryThree }

  /** The last checkpoint boundary not after a step. */
  function Boundary<E>(cfg: Config<E>, step: nat): nat
  {
    if cfg.policy == Always then step else step - step % 3
  }

  /** The model runs long enough for a checkpoint, which is ready, and reruns succeed. */
  predicate Nominal(t: Turn)
  {
    t.polls != [] && t.polls[0].live >= 2 && t.polls[0].fixed.Ready? && (t.outcome.Faulted? ==> t.outcome.rerunOk)
  }

  /** At a loop head of a nominal run the boundary of the current step is ready or due now. */
  predicate BoundaryOk<E>(cfg: Config<E>, step: nat, l: Ledger<E>)
  {
    && l.lastFixed == l.resume - 1
    && l.resume <= step
    && (l.resume == Boundary(cfg, step) || Boundary(cfg, step) == step)
  }

  lemma {:induction false} WaitSettled<E>(cfg: Config<E>, c: Core<E>, l: Ledger<E>, b: Bubble, polls: seq<Poll>)
    requires Fixed(cfg) && !FixedDue(cfg, c, l, b)
    ensures Wait(cfg, c, l, b, polls) == l
    decreases |polls|
  {
    if polls != [] {
      WaitSettled(cfg, c, l, b, polls[1..]);
    }
  }

  lemma {:induction false} WaitReachesBoundary<E>(cfg: Config<E>, c: Core<E>, l: Ledger<E>, polls: seq<Poll>)
    requires Fixed(cfg) && c.step < cfg.stepLimit && BoundaryOk(cfg, c.step, l)
    requires polls != [] && polls[0].live >= 2 && polls[0].fixed.Ready?
    ensures var l1 := Wait(cfg, c, l, NEW_BUBBLE, polls);
            l1.resume == Boundary(cfg, c.step) && l1.lastFixed == l1.resume - 1
    ensures l.resume == c.step ==> Wait(cfg, c, l, NEW_BUBBLE, polls) == l
  {
    if FixedDue(cfg, c, l, NEW_BUBBLE) {
      var (l1, b1, done) := PollOnce(cfg, c, l, NEW_BUBBLE, polls[0]);
      WaitSettled(cfg, c, l1, b1, polls[1..]);
    } else {
      WaitSettled(cfg, c, l, NEW_BUBBLE, polls);
    }
  }

  lemma NominalTurn<E>(cfg: Config<E>, s: State<E>, kept: seq<Kept>, t: Turn)
    requires Fixed(cfg) && Running(cfg, s) && Nominal(t) && Consistent(cfg, s, kept)
             && BoundaryOk(cfg, s.core.step, s.ledger)
    ensures var s' := TakeTurn(cfg, s, t);
            && (s'.status == Going ==> BoundaryOk(cfg, s'.core.step, s'.ledger))
            && (IsFault(cfg, t) ==> s'.core.step == Boundary(cfg, s.core.step))
  {
    hide Wait, Replay, Boundary, TakeTurn, LedgerOk, Consistent;
    NominalWait(cfg, s, kept, t);
    TurnEffect(cfg, s, t);
    NextBoundary(cfg, s.core.step);
  }

  lemma {:induction false} NominalWait<E>(cfg: Config<E>, s: State<E>, kept: seq<Kept>, t: Turn)
    requires Fixed(cfg) && Running(cfg, s) && Nominal(t) && Consistent(cfg, s, kept)
             && BoundaryOk(cfg, s.core.step, s.ledger)
    ensures var l := Wait(cfg, s.core, s.ledger, NEW_BUBBLE, t.polls);
            && l.resume == Boundary(cfg, s.core.step) && l.lastFixed == l.readyStep == l.resume - 1
            && (l.ready.None? ==> l.resume == 0)
  {
    WaitReachesBoundary(cfg, s.core, s.ledger, t.polls);
    WaitOk(cfg, kept, s.ledger, NEW_BUBBLE, t.polls);
    hide Wait, Replay, Boundary, BoundaryOk;
  }

  lemma NextBoundary<E>(cfg: Config<E>, step: nat)
    ensures Boundary(cfg, step) <= step
    ensures Boundary(cfg, Boundary(cfg, step)) == Boundary(cfg, step)
    ensures Boundary(cfg, step + 1) == Boundary(cfg, step) || Boundary(cfg, step + 1) == step + 1
    ensures Boundary(cfg, 0) == 0
  {
  }

  lemma {:induction false} NominalRun<E>(cfg: Config<E>, script: seq<Turn>)
    requires Fixed(cfg) && forall k :: 0 <= k < |script| ==> Nominal(script[k])
    ensures var s := After(cfg, script); s.status == Going ==> BoundaryOk(cfg, s.core.step, s.ledger)
  {
    if script != [] {
      var init := script[..|script| - 1];
      NominalRun(cfg, init);
      RollbackConsistent(cfg, init);
      hide Consistent, BoundaryOk, TakeTurn;
      if Running(cfg, After(cfg, init)) {
        NominalTurn(cfg, After(cfg, init), KeptAfter(cfg, init), script[|script| - 1]);
      }
    }
  }

  /** Bounded rework: as long as checkpoints and reruns succeed, a fault in step s resumes at s under `always` and at
      the last multiple of three under `every-3`, after any number of earlier faults; and a boundary that is ready
      already is not checkpointed again. */
  lemma {:induction false} FixedPolicyRework<E>(cfg: Config<E>, script: seq<Turn>, t: Turn)
    requires Fixed(cfg) && Nominal(t) && forall k :: 0 <= k < |script| ==> Nominal(script[k])
    requires Running(cfg, After(cfg, script))
    ensures var s := After(cfg, script);
            && (IsFault(cfg, t) ==> After(cfg, script + [t]).core.step
                                    == if cfg.policy == Always then s.core.step else s.core.step - s.core.step % 3)
            && (s.ledger.resume == s.core.step ==> Wait(cfg, s.core, s.ledger, NEW_BUBBLE, t.polls) == s.ledger)
  {
    var s := After(cfg, script);
    NominalRun(cfg, script);
    RollbackConsistent(cfg, script);
    WaitReachesBoundary(cfg, s.core, s.ledger, t.polls);
    NominalTurn(cfg, s, KeptAfter(cfg, script), t);
    assert (script + [t])[..|script|] == script;
    hide Wait, TakeTurn, Consistent;
  }
}
