/** When the agent loop takes checkpoints: never, on schedule, or when the expected redo cost outweighs the exposed
    overhead; and what a checkpoint request that is not granted leaves alone. */
module AgentPolicy {
  import opened Sequences
  import opened AgentLoop
  import opened AgentRuns
  import Tail = TailModel

  // ----- Never -----

  /** The policies without checkpoints, and the adaptive one without a tail model, leave the record alone. */
  lemma {:induction false} QuietPolicies<E>(cfg: Config<E>, c: Core<E>, l: Ledger<E>, b: Bubble, polls: seq<Poll>)
    requires cfg.policy == Never || cfg.policy == OracleNoFault || (cfg.policy == AdaptiveRisk && cfg.tail.None?)
    ensures Wait(cfg, c, l, b, polls) == l
    decreases |polls|
  {
    if polls != [] {
      var (l1, b1, done) := PollOnce(cfg, c, l, b, polls[0]);
      assert l1 == l;
      QuietPolicies(cfg, c, l, b1, polls[1..]);
    }
  }

  // ----- What is saved -----

  /** The same checkpoint is ready as before. */
  ghost predicate SameSaved<E>(l: Ledger<E>, m: Ledger<E>)
  {
    m == l.(lastFixed := m.lastFixed, counters := m.counters) && m.counters.created == l.counters.created
  }

  /** The checkpoint that is ready now saves the current environment, step and costs. */
  ghost predicate SavedNow<E>(c: Core<E>, l: Ledger<E>)
  {
    && l.ready == Some(c.env) && l.readyStep == c.step - 1 && l.resume == c.step
    && l.protectedEnv == c.cumulativeEnv && l.protectedLlm == c.cumulativeLlm
  }

  predicate Granted(polls: seq<Poll>)
  {
    exists i :: 0 <= i < |polls| && (polls[i].fixed.Ready? || polls[i].adaptive.Ready?)
  }

  lemma PollSaves<E>(cfg: Config<E>, c: Core<E>, l: Ledger<E>, b: Bubble, p: Poll)
    ensures var m := PollOnce(cfg, c, l, b, p).0;
            SameSaved(l, m) || (SavedNow(c, m) && (p.fixed.Ready? || p.adaptive.Ready?))
  {
    hide FixedDue, ProbeDue;
  }

  /** A wait saves the current state or nothing, and nothing unless some request was granted. */
  lemma {:induction false} WaitSaves<E>(cfg: Config<E>, c: Core<E>, l: Ledger<E>, b: Bubble, polls: seq<Poll>)
    ensures var m := Wait(cfg, c, l, b, polls); SameSaved(l, m) || (SavedNow(c, m) && Granted(polls))
    decreases |polls|
  {
    if polls != [] {
      var (l1, b1, done) := PollOnce(cfg, c, l, b, polls[0]);
      PollSaves(cfg, c, l, b, polls[0]);
      WaitSaves(cfg, c, l1, b1, polls[1..]);
      GrantedTail(polls);
      hide PollOnce, Granted;
    }
  }

  lemma GrantedTail(polls: seq<Poll>)
    requires polls != []
    ensures Granted(polls[1..]) || polls[0].fixed.Ready? || polls[0].adaptive.Ready? ==> Granted(polls)
  {
    if i :| 0 <= i < |polls[1..]| && (polls[1..][i].fixed.Ready? || polls[1..][i].adaptive.Ready?) {
      assert polls[i + 1] == polls[1..][i];
    }
  }

  // ----- On schedule -----

  /** The model is seen running, so a checkpoint that is due can be asked for. */
  predicate Seen(t: Turn) { t.polls != [] && t.polls[0].live >= 2 }

  /** How many checkpoints a fixed policy has asked for when it arrives at a step: one at every earlier step but the
      first, or at every third of them. */
  function Asked<E>(cfg: Config<E>, step: nat): nat
  {
    if step == 0 then 0 else if cfg.policy == Always then step - 1 else (step - 1) / 3
  }

  predicate OnSchedule<E>(cfg: Config<E>, c: Core<E>, l: Ledger<E>)
  {
    && l.counters.attempts == Asked(cfg, c.step) && l.counters.probes == 0
    && (c.step > 0 ==> l.lastFixed < c.step - 1) && (c.step == 0 ==> l.lastFixed == -1)
  }

  lemma {:induction false} ScheduledWait<E>(cfg: Config<E>, c: Core<E>, l: Ledger<E>, polls: seq<Poll>)
    requires Fixed(cfg) && c.step < cfg.stepLimit && OnSchedule(cfg, c, l) && polls != [] && polls[0].live >= 2
    ensures var m := Wait(cfg, c, l, NEW_BUBBLE, polls);
            && m.counters.attempts == Asked(cfg, c.step + 1) && m.counters.probes == 0 && m.lastFixed < c.step
  {
    if FixedDue(cfg, c, l, NEW_BUBBLE) {
      var (l1, b1, done) := PollOnce(cfg, c, l, NEW_BUBBLE, polls[0]);
      WaitSettled(cfg, c, l1, b1, polls[1..]);
    } else {
      WaitSettled(cfg, c, l, NEW_BUBBLE, polls);
    }
  }

  /** As long as no fault rolls the loop back, the fixed policies ask at exactly the scheduled steps, once at each,
      whatever the answers are. */
  lemma {:induction false} AskedOnSchedule<E>(cfg: Config<E>, script: seq<Turn>)
    requires Fixed(cfg) && forall k :: 0 <= k < |script| ==> Seen(script[k]) && !IsFault(cfg, script[k])
    ensures After(cfg, script).status == Going ==> OnSchedule(cfg, After(cfg, script).core, After(cfg, script).ledger)
  {
    if script != [] {
      var init, t := script[..|script| - 1], script[|script| - 1];
      AskedOnSchedule(cfg, init);
      var s := After(cfg, init);
      if Running(cfg, s) {
        ScheduledWait(cfg, s.core, s.ledger, t.polls);
        TurnEffect(cfg, s, t);
        hide TakeTurn, Wait;
      }
    }
  }

  // ----- When it pays -----

  /** What a fault now would lose: the cost of the steps after the ready checkpoint. */
  function Lost<E>(c: Core<E>, l: Ledger<E>): real
  {
    EnvCost(From(c.stepDebug, l.resume)) + LlmCost(From(c.stepDebug, l.resume))
  }

  /** Of the recorded waits longer than the time waited, the share that also outlasts a checkpoint. */
  function Outlasting(waits: seq<real>, waited: real, budget: real): real
    requires Tail.Longer(waits, waited) > 0
  {
    Tail.Longer(waits, waited + budget) as real / Tail.Longer(waits, waited) as real
  }

  /** By how much a checkpoint would stick out of these waits on average. */
  function MeanExposed(waits: seq<real>, waited: real, budget: real): real
    requires Tail.Longer(waits, waited) > 0
  {
    Tail.TotalExposed(waits, waited, budget) / Tail.Longer(waits, waited) as real
  }

  /** The steps since the ready checkpoint's last one, or since the start. */
  function StepsSince<E>(c: Core<E>, l: Ledger<E>): int { if l.resume == 0 then c.step else c.step - l.resume + 1 }

  /** The adaptive rule on what has been recorded: late and costly enough, not tried yet in this wait, and the cost that
      a fault may lose, times its probability and the chance that the checkpoint stays hidden, exceeds the overhead. */
  predicate Pays<E>(cfg: Config<E>, c: Core<E>, l: Ledger<E>, b: Bubble, waits: seq<real>, waited: real, budget: real)
  {
    && c.step >= 3 && !b.probeAttempted && !b.submitted
    && EnvCost(From(c.stepDebug, l.resume)) >= cfg.minDeltaEnv
    && StepsSince(c, l) >= cfg.minSteps
    && Tail.Longer(waits, waited) > 0
    && Worth(cfg.failureProbability, Outlasting(waits, waited, budget), Lost(c, l), MeanExposed(waits, waited, budget))
  }

  /** What a fault is expected to lose, if the checkpoint stays hidden, exceeds what the checkpoint costs. */
  predicate Worth(probability: real, share: real, lost: real, overhead: real)
  {
    probability * share * lost > overhead
  }

  lemma {:induction false} DueIfPays<E>(cfg: Config<E>, kept: seq<Kept>, l: Ledger<E>, b: Bubble, waits: seq<real>,
                                        waited: real)
    requires cfg.tail.Some? && Tail.Models(cfg.tail.value, waits) && cfg.tail.value.budget >= 0.0 && waited >= 0.0
    requires LedgerOk(cfg, kept, l) && Clocked(Replay(cfg, kept).stepDebug)
    ensures ProbeDue(cfg, Replay(cfg, kept), l, b, waited)
       <==> Pays(cfg, Replay(cfg, kept), l, b, waits, waited, cfg.tail.value.budget)
  {
    var c, m := Replay(cfg, kept), cfg.tail.value;
    LostIsRedo(cfg, kept, l);
    TailRule(waits, m, cfg.failureProbability, Lost(c, l), waited);
    hide LedgerOk, Replay, Lost, EnvCost, From, Tail.Models, RedoCost, Tail.Redo, Clocked, Outlasting, MeanExposed,
         Worth;
    hide Tail.ExpectedBenefit, Tail.ExpectedExposedOverhead, Tail.ConditionalTailProbability, Tail.Longer;
  }

  lemma {:induction false} LostIsRedo<E>(cfg: Config<E>, kept: seq<Kept>, l: Ledger<E>)
    requires LedgerOk(cfg, kept, l) && Clocked(Replay(cfg, kept).stepDebug)
    ensures var c := Replay(cfg, kept);
            && RedoCost(c, l) == Lost(c, l) && l.readyStep == l.resume - 1 && l.resume <= c.step
            && Tail.Redo(c.cumulativeEnv, l.protectedEnv) == EnvCost(From(c.stepDebug, l.resume))
  {
    RedoIsDiscarded(cfg, kept, l);
    hide Replay, EnvCost, LlmCost, From, RedoCost, Clocked;
  }

  lemma BenefitOver(probability: real, share: real, lost: real, overhead: real)
    requires overhead >= 0.0
    ensures Tail.ExpectedBenefit(probability, share, lost) > overhead <==> Worth(probability, share, lost, overhead)
    ensures share == 0.0 ==> !(Tail.ExpectedBenefit(probability, share, lost) > overhead)
  {
    if share == 0.0 {
      assert probability * share == 0.0;
      assert probability * share * lost == 0.0;
    }
  }

  lemma {:induction false} TailReads(waits: seq<real>, m: Tail.TailTable, waited: real)
    requires Tail.Models(m, waits) && m.budget >= 0.0 && waited >= 0.0
    ensures var share, overhead :=
              Tail.ConditionalTailProbability(m, waited, m.budget), Tail.ExpectedExposedOverhead(m, waited);
            && overhead >= 0.0
            && if Tail.Longer(waits, waited) == 0 then share == 0.0
               else share == Outlasting(waits, waited, m.budget) && overhead == MeanExposed(waits, waited, m.budget)
  {
    Tail.OverheadIsMean(waits, m, waited);
    Tail.TailProbabilityIsRatio(waits, m, waited, m.budget);
    hide Tail.Models, Tail.Longer, Tail.TotalExposed, Tail.ExpectedExposedOverhead, Tail.ConditionalTailProbability;
  }

  /** The fast forms decide as the recorded waits do. */
  lemma {:induction false} TailRule(waits: seq<real>, m: Tail.TailTable, probability: real, lost: real, waited: real)
    requires Tail.Models(m, waits) && m.budget >= 0.0 && waited >= 0.0
    ensures Tail.ExpectedBenefit(probability, Tail.ConditionalTailProbability(m, waited, m.budget), lost)
            > Tail.ExpectedExposedOverhead(m, waited)
       <==> Tail.Longer(waits, waited) > 0
            && Worth(probability, Outlasting(waits, waited, m.budget), lost, MeanExposed(waits, waited, m.budget))
  {
    hide *;
    TailReads(waits, m, waited);
    BenefitOver(probability, Tail.ConditionalTailProbability(m, waited, m.budget), lost,
                Tail.ExpectedExposedOverhead(m, waited));
  }

  /** In every wait of every run the adaptive policy asks for a checkpoint exactly when it pays, and otherwise leaves
      the record alone. */
  lemma {:induction false} AdaptiveAsksIff<E>(cfg: Config<E>, script: seq<Turn>, polls: seq<Poll>, b: Bubble, p: Poll,
                                              waits: seq<real>)
    requires After(cfg, script).status != Submitted
    requires forall k :: 0 <= k < |script| ==> script[k].llmElapsed >= 0.0
    requires cfg.policy == AdaptiveRisk && cfg.tail.Some? && Tail.Models(cfg.tail.value, waits)
    requires cfg.tail.value.budget >= 0.0 && p.live >= 5 && p.waited >= 0.0
    ensures var c := After(cfg, script).core;
            var l := Wait(cfg, c, After(cfg, script).ledger, NEW_BUBBLE, polls);
            var (l1, b1, done) := PollOnce(cfg, c, l, b, p);
            if Pays(cfg, c, l, b, waits, p.waited, cfg.tail.value.budget)
            then l1.counters.probes == l.counters.probes + 1 && l1.counters.attempts == l.counters.attempts + 1
                 && b1.probeAttempted
            else l1 == l && b1 == b
  {
    var kept := KeptAfter(cfg, script);
    RollbackConsistent(cfg, script);
    WaitOk(cfg, kept, After(cfg, script).ledger, NEW_BUBBLE, polls);
    KeptClocked(cfg, script);
    ReplayClocked(cfg, kept);
    hide LedgerOk, Replay, After, Wait, Pays, Tail.Models, Clocked, KeptAfter, PollOnce;
    var l := Wait(cfg, Replay(cfg, kept), After(cfg, script).ledger, NEW_BUBBLE, polls);
    DueIfPays(cfg, kept, l, b, waits, p.waited);
    AsksIfDue(cfg, Replay(cfg, kept), l, b, p);
  }

  lemma AsksIfDue<E>(cfg: Config<E>, c: Core<E>, l: Ledger<E>, b: Bubble, p: Poll)
    requires cfg.policy == AdaptiveRisk && cfg.tail.Some? && p.live >= 5
    ensures var (l1, b1, done) := PollOnce(cfg, c, l, b, p);
            if ProbeDue(cfg, c, l, b, p.waited)
            then l1.counters.probes == l.counters.probes + 1 && l1.counters.attempts == l.counters.attempts + 1
                 && b1.probeAttempted
            else l1 == l && b1 == b
  {
    hide ProbeDue;
  }
}
