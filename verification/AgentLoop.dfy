/** The agent loop of swe-rl/generate_with_swe_remote.py with its checkpoints and rollbacks, on values. */
module AgentLoop {
  import opened Sequences
  import Tail = TailModel

  datatype Role = System | User | Assistant
  datatype Message = Message(role: Role, content: string)
  datatype Execution = Execution(returncode: int, output: string)
  datatype StepEntry = StepEntry(stepIdx: nat, action: string, execution: Execution, elapsed: real, llmElapsed: real)
  datatype Policy = OracleNoFault | Never | Always | EveryThree | AdaptiveRisk

  /** The prompts, the remote environment as a state E that executed actions change, and the policy. */
  datatype Config<!E> = Config(
    system: string, instance: string, base: E, exec: (E, string) -> E,
    parse: string -> Option<string>, submits: string -> bool,
    render: Execution -> string, reminder: nat -> string, contextOf: seq<Message> -> seq<Message>,
    stepLimit: nat, policy: Policy, tail: Option<Tail.TailTable>,
    failureProbability: real, minDeltaEnv: real, minSteps: int)

  /** What a fault rolls back together: conversation, step log, training contexts, environment and costs. */
  datatype Core<E> = Core(
    messages: seq<Message>, stepDebug: seq<StepEntry>, contexts: seq<seq<Message>>, texts: seq<string>,
    env: E, cumulativeEnv: real, cumulativeLlm: real, step: nat)

  datatype Counters = Counters(attempts: nat, created: nat, busySkips: nat, probes: nat, probeBusySkips: nat,
                               rerunFromCheckpoint: nat, rerunFromBase: nat)

  /** The checkpoint record; `ready` is the environment saved in the latest ready checkpoint. */
  datatype Ledger<E> = Ledger(
    ready: Option<E>, readyStep: int, resume: nat, protectedEnv: real, protectedLlm: real, lastFixed: int,
    counters: Counters)

  // ----- One turn without a fault -----

  function Start<E>(cfg: Config<E>): Core<E>
  {
    Core([Message(System, cfg.system), Message(User, cfg.instance)], [], [], [], cfg.base, 0.0, 0.0, 0)
  }

  /** The model's reply is recorded with the context it was given. */
  function Answered<E>(cfg: Config<E>, c: Core<E>, text: string): Core<E>
  {
    c.(contexts := c.contexts + [cfg.contextOf(c.messages)],
       messages := c.messages + [Message(Assistant, text)],
       texts := c.texts + [text])
  }

  function Observed<E>(c: Core<E>, observation: string): Core<E>
  {
    c.(messages := c.messages + [Message(User, observation)], step := c.step + 1)
  }

  function Executed<E>(cfg: Config<E>, c: Core<E>, cmd: string, x: Execution, elapsed: real, llmElapsed: real): Core<E>
  {
    var spent := Tail.Max(0.0, elapsed);
    c.(stepDebug := c.stepDebug + [StepEntry(c.step, cmd, x, spent, llmElapsed)],
       env := cfg.exec(c.env, cmd),
       cumulativeEnv := c.cumulativeEnv + spent,
       cumulativeLlm := c.cumulativeLlm + llmElapsed)
  }

  function Observation<E>(cfg: Config<E>, step: nat, x: Execution): string
  {
    cfg.render(x) + (if cfg.stepLimit > step + 1 then cfg.reminder(cfg.stepLimit - (step + 1)) else "")
  }

  const NO_ACTION := Execution(-1, "No valid bash command found in response.")

  // ----- Checkpoints while waiting for the model -----

  datatype Created = Ready | Busy | Failed

  /** One pass of the waiting loop: how many of its completion checks still see the model running, the time waited, and
      the answers a checkpoint request would get. */
  datatype Poll = Poll(live: nat, waited: real, fixed: Created, adaptive: Created)

  datatype Bubble = Bubble(fixedAttempted: bool, probeAttempted: bool, submitted: bool)

  /** A ready checkpoint protects everything up to the current step. */
  function Create<E>(c: Core<E>, l: Ledger<E>, answer: Created): Ledger<E>
  {
    if answer.Ready? then
      l.(ready := Some(c.env), readyStep := c.step - 1, resume := c.step,
         protectedEnv := c.cumulativeEnv, protectedLlm := c.cumulativeLlm)
    else l
  }

  predicate FixedDue<E>(cfg: Config<E>, c: Core<E>, l: Ledger<E>, b: Bubble)
  {
    && !b.fixedAttempted && 0 < c.step < cfg.stepLimit && l.lastFixed < c.step - 1
    && (cfg.policy == Always || (cfg.policy == EveryThree && c.step % 3 == 0))
  }

  function FixedAttempt<E>(c: Core<E>, l: Ledger<E>, answer: Created): Ledger<E>
  {
    var n := l.counters;
    Create(c, l.(lastFixed := c.step - 1,
                 counters := n.(attempts := n.attempts + 1,
                                created := n.created + (if answer.Ready? then 1 else 0),
                                busySkips := n.busySkips + (if answer.Busy? then 1 else 0))), answer)
  }

  function RedoCost<E>(c: Core<E>, l: Ledger<E>): real
  {
    Tail.RedoReplayCost(c.cumulativeEnv, l.protectedEnv, c.cumulativeLlm, l.protectedLlm)
  }

  predicate ProbeDue<E>(cfg: Config<E>, c: Core<E>, l: Ledger<E>, b: Bubble, waited: real)
    requires cfg.tail.Some?
  {
    var sinceReady := if l.readyStep < 0 then c.step else if c.step < l.readyStep then 0 else c.step - l.readyStep;
    var m := cfg.tail.value;
    Tail.ShouldProbe(c.step, b.probeAttempted, b.submitted,
                     Tail.Redo(c.cumulativeEnv, l.protectedEnv), sinceReady,
                     Tail.ExpectedBenefit(cfg.failureProbability, Tail.ConditionalTailProbability(m, waited, m.budget),
                                          RedoCost(c, l)),
                     Tail.ExpectedExposedOverhead(m, waited), cfg.minDeltaEnv, cfg.minSteps)
  }

  function ProbeAttempt<E>(c: Core<E>, l: Ledger<E>, answer: Created): Ledger<E>
  {
    var n := l.counters;
    Create(c, l.(counters := n.(attempts := n.attempts + 1, probes := n.probes + 1,
                                created := n.created + (if answer.Ready? then 1 else 0),
                                probeBusySkips := n.probeBusySkips + (if answer.Busy? then 1 else 0))), answer)
  }

  /** One pass: the new ledger and flags, and whether the model was seen done. */
  function PollOnce<E>(cfg: Config<E>, c: Core<E>, l: Ledger<E>, b: Bubble, p: Poll): (Ledger<E>, Bubble, bool)
  {
    if p.live < 2 then (l, b, true)
    else
      var due := FixedDue(cfg, c, l, b);
      var l1 := if due then FixedAttempt(c, l, p.fixed) else l;
      var b1 := if due then b.(fixedAttempted := true) else b;
      if due && p.live < 3 then (l1, b1, true)
      else if cfg.policy == AdaptiveRisk && cfg.tail.Some? then
        if p.live < 5 then (l1, b1, true)
        else if ProbeDue(cfg, c, l1, b1, p.waited) then
          (ProbeAttempt(c, l1, p.adaptive),
           b1.(probeAttempted := true, submitted := b1.submitted || p.adaptive.Ready?), p.live < 6)
        else (l1, b1, p.live < 6)
      else (l1, b1, false)
  }

  function Wait<E>(cfg: Config<E>, c: Core<E>, l: Ledger<E>, b: Bubble, polls: seq<Poll>): Ledger<E>
    decreases |polls|
  {
    if polls == [] then l
    else
      var (l1, b1, done) := PollOnce(cfg, c, l, b, polls[0]);
      if done then l1 else Wait(cfg, c, l1, b1, polls[1..])
  }

  const NEW_BUBBLE := Bubble(false, false, false)

  // ----- Recovery -----

  function Take<T>(xs: seq<T>, n: nat): seq<T> { if n <= |xs| then xs[..n] else xs }

  function Before(entries: seq<StepEntry>, resume: nat): seq<StepEntry>
  {
    if entries == [] then []
    else Before(entries[..|entries| - 1], resume)
         + (if entries[|entries| - 1].stepIdx < resume then [entries[|entries| - 1]] else [])
  }

  function Trimmed<E>(c: Core<E>, resume: nat, env: E, cumulativeEnv: real, cumulativeLlm: real): Core<E>
  {
    Core(Take(c.messages, 2 + 2 * resume), Before(c.stepDebug, resume), Take(c.contexts, resume), Take(c.texts, resume),
         env, cumulativeEnv, cumulativeLlm, resume)
  }

  function Rerun<E>(l: Ledger<E>): Ledger<E>
  {
    l.(lastFixed := l.readyStep, counters := l.counters.(rerunFromCheckpoint := l.counters.rerunFromCheckpoint + 1))
  }

  function BaseRestart<E>(l: Ledger<E>): Ledger<E>
  {
    Ledger(None, -1, 0, 0.0, 0.0, -1, l.counters.(rerunFromBase := l.counters.rerunFromBase + 1))
  }

  /** The latest ready checkpoint if there is one and its rerun succeeds, else a fresh environment. */
  function Recovered<E>(cfg: Config<E>, c: Core<E>, l: Ledger<E>, rerunOk: bool): (Core<E>, Ledger<E>)
  {
    if l.ready.Some? && rerunOk then (Trimmed(c, l.resume, l.ready.value, l.protectedEnv, l.protectedLlm), Rerun(l))
    else (Trimmed(c, 0, cfg.base, 0.0, 0.0), BaseRestart(l))
  }

  // ----- The loop -----

  datatype Outcome = Ran(execution: Execution) | Faulted(rerunOk: bool)

  /** What the outside decides in one turn; no reply means that the model call failed. */
  datatype Turn = Turn(polls: seq<Poll>, reply: Option<string>, llmElapsed: real, outcome: Outcome, elapsed: real)

  datatype Status = Going | Submitted | LlmFailed

  datatype State<E> = State(core: Core<E>, ledger: Ledger<E>, status: Status)

  predicate Running<E>(cfg: Config<E>, s: State<E>) { s.status == Going && s.core.step < cfg.stepLimit }

  function TakeTurn<E>(cfg: Config<E>, s: State<E>, t: Turn): State<E>
  {
    var l := Wait(cfg, s.core, s.ledger, NEW_BUBBLE, t.polls);
    match t.reply
    case None => State(s.core, l, LlmFailed)
    case Some(text) =>
      var c := Answered(cfg, s.core, text);
      match cfg.parse(text)
      case None => State(Observed(c, cfg.render(NO_ACTION)), l, Going)
      case Some(cmd) =>
        match t.outcome
        case Faulted(rerunOk) =>
          var (back, l1) := Recovered(cfg, c, l, rerunOk);
          State(back, l1, Going)
        case Ran(x) =>
          var d := Executed(cfg, c, cmd, x, t.elapsed, t.llmElapsed);
          if cfg.submits(cmd) then State(d, l, Submitted)
          else State(Observed(d, Observation(cfg, c.step, x)), l, Going)
  }

  const NO_COUNTS := Counters(0, 0, 0, 0, 0, 0, 0)

  function Initial<E>(cfg: Config<E>): State<E>
  {
    State(Start(cfg), Ledger(None, -1, 0, 0.0, 0.0, -1, NO_COUNTS), Going)
  }

  /** The loop on the turns seen so far; it ignores turns after it has stopped. */
  function After<E>(cfg: Config<E>, script: seq<Turn>): State<E>
  {
    if script == [] then Initial(cfg)
    else
      var s := After(cfg, script[..|script| - 1]);
      if Running(cfg, s) then TakeTurn(cfg, s, script[|script| - 1]) else s
  }

  // ----- The retained turns -----

  /** A turn that no fault discarded. */
  datatype Kept = Kept(text: string, execution: Execution, elapsed: real, llmElapsed: real)

  function Advance<E>(cfg: Config<E>, c: Core<E>, k: Kept): Core<E>
  {
    match cfg.parse(k.text)
    case None => Observed(Answered(cfg, c, k.text), cfg.render(NO_ACTION))
    case Some(cmd) =>
      Observed(Executed(cfg, Answered(cfg, c, k.text), cmd, k.execution, k.elapsed, k.llmElapsed),
               Observation(cfg, c.step, k.execution))
  }

  /** The state after the retained turns alone, with no fault and no checkpoint. */
  function Replay<E>(cfg: Config<E>, kept: seq<Kept>): (c: Core<E>)
    ensures c.step == |kept|
  {
    if kept == [] then Start(cfg) else Advance(cfg, Replay(cfg, kept[..|kept| - 1]), kept[|kept| - 1])
  }

  function KeptTurn(t: Turn): Kept
  {
    Kept(if t.reply.Some? then t.reply.value else "",
         if t.outcome.Ran? then t.outcome.execution else NO_ACTION, t.elapsed, t.llmElapsed)
  }

  /** What a turn does to the list of retained turns: a fault cuts it, every other reply extends it. */
  function KeptNext<E>(cfg: Config<E>, kept: seq<Kept>, t: Turn, s': State<E>): seq<Kept>
  {
    if t.reply.None? then kept
    else if cfg.parse(t.reply.value).Some? && t.outcome.Faulted? then Take(kept, s'.core.step)
    else kept + [KeptTurn(t)]
  }

  function KeptAfter<E>(cfg: Config<E>, script: seq<Turn>): seq<Kept>
  {
    if script == [] then []
    else
      var init := script[..|script| - 1];
      var kept := KeptAfter(cfg, init);
      if Running(cfg, After(cfg, init)) then KeptNext(cfg, kept, script[|script| - 1], After(cfg, script)) else kept
  }

  // ----- Rollback consistency -----

  /** The ready checkpoint is the replay of the turns before its resume step, and its costs are theirs. */
  ghost predicate LedgerOk<E>(cfg: Config<E>, kept: seq<Kept>, l: Ledger<E>)
  {
    && l.resume <= |kept|
    && l.readyStep == l.resume - 1
    && (l.ready.None? ==> l.resume == 0)
    && (l.ready.Some? ==> l.ready.value == Replay(cfg, kept[..l.resume]).env)
    && l.protectedEnv == Replay(cfg, kept[..l.resume]).cumulativeEnv
    && l.protectedLlm == Replay(cfg, kept[..l.resume]).cumulativeLlm
  }

  /** The submitting turn is executed and recorded, but gets no observation. */
  function Submitting<E>(cfg: Config<E>, c: Core<E>, k: Kept): Core<E>
    requires cfg.parse(k.text).Some?
  {
    Executed(cfg, Answered(cfg, c, k.text), cfg.parse(k.text).value, k.execution, k.elapsed, k.llmElapsed)
  }

  ghost predicate Consistent<E>(cfg: Config<E>, s: State<E>, kept: seq<Kept>)
  {
    if s.status == Submitted then
      kept != [] && cfg.parse(kept[|kept| - 1].text).Some?
      && s.core == Submitting(cfg, Replay(cfg, kept[..|kept| - 1]), kept[|kept| - 1])
    else s.core == Replay(cfg, kept) && LedgerOk(cfg, kept, s.ledger)
  }

  lemma {:induction false} ReplayShape<E>(cfg: Config<E>, kept: seq<Kept>)
    ensures var c := Replay(cfg, kept);
            && |c.messages| == 2 + 2 * |kept| && |c.contexts| == |kept| && |c.texts| == |kept|
            && (forall i :: 0 <= i < |c.stepDebug| ==> c.stepDebug[i].stepIdx < |kept|)
  {
    if kept != [] {
      ReplayShape(cfg, kept[..|kept| - 1]);
    }
  }

  lemma {:induction false} BeforeAll(entries: seq<StepEntry>, r: nat)
    requires forall i :: 0 <= i < |entries| ==> entries[i].stepIdx < r
    ensures Before(entries, r) == entries
  {
    if entries != [] {
      BeforeAll(entries[..|entries| - 1], r);
    }
  }

  lemma {:induction false} BeforeSnoc(entries: seq<StepEntry>, e: StepEntry, r: nat)
    ensures Before(entries + [e], r) == Before(entries, r) + (if e.stepIdx < r then [e] else [])
  {
    assert (entries + [e])[..|entries|] == entries;
  }

  lemma TakeAll<T>(xs: seq<T>)
    ensures Take(xs, |xs|) == xs
  {
  }

  lemma {:induction false} TrimmedWhole<E>(cfg: Config<E>, kept: seq<Kept>)
    ensures var c, r := Replay(cfg, kept), |kept|;
            && kept[..r] == kept && Take(c.messages, 2 + 2 * r) == c.messages && Take(c.contexts, r) == c.contexts
            && Take(c.texts, r) == c.texts && Before(c.stepDebug, r) == c.stepDebug
  {
    hide Replay, Before, Take;
    var c := Replay(cfg, kept);
    ReplayShape(cfg, kept);
    BeforeAll(c.stepDebug, |kept|);
    TakeAll(c.messages);
    TakeAll(c.contexts);
    TakeAll(c.texts);
    assert kept[..|kept|] == kept;
  }

  /** Cutting the lists of a replay at a step gives the lists of the shorter replay. */
  lemma {:induction false} TrimmedReplay<E>(cfg: Config<E>, kept: seq<Kept>, r: nat)
    requires r <= |kept|
    ensures var c, d := Replay(cfg, kept), Replay(cfg, kept[..r]);
            && Take(c.messages, 2 + 2 * r) == d.messages && Take(c.contexts, r) == d.contexts
            && Take(c.texts, r) == d.texts && Before(c.stepDebug, r) == d.stepDebug
  {
    hide Take, Before, Advance;
    var n := |kept|;
    if r == n {
      TrimmedWhole(cfg, kept);
    } else {
      var init := kept[..n - 1];
      ReplayShape(cfg, init);
      TrimmedReplay(cfg, init, r);
      assert init[..r] == kept[..r];
      TrimmedAdvance(cfg, Replay(cfg, init), kept[n - 1], r);
    }
  }

  lemma {:induction false} TrimmedAdvance<E>(cfg: Config<E>, c: Core<E>, k: Kept, r: nat)
    requires r <= c.step && |c.messages| == 2 + 2 * c.step && |c.contexts| == c.step && |c.texts| == c.step
    ensures var d := Advance(cfg, c, k);
            && Take(d.messages, 2 + 2 * r) == Take(c.messages, 2 + 2 * r) && Take(d.contexts, r) == Take(c.contexts, r)
            && Take(d.texts, r) == Take(c.texts, r) && Before(d.stepDebug, r) == Before(c.stepDebug, r)
  {
    var d := Advance(cfg, c, k);
    if cfg.parse(k.text).Some? {
      BeforeSnoc(c.stepDebug, d.stepDebug[|c.stepDebug|], r);
    }
  }

  lemma {:induction false} CreateOk<E>(cfg: Config<E>, kept: seq<Kept>, l: Ledger<E>, answer: Created)
    requires LedgerOk(cfg, kept, l)
    ensures LedgerOk(cfg, kept, Create(Replay(cfg, kept), l, answer))
  {
    hide Replay;
    assert kept[..|kept|] == kept;
  }

  lemma {:induction false} PollOk<E>(cfg: Config<E>, kept: seq<Kept>, l: Ledger<E>, b: Bubble, p: Poll)
    requires LedgerOk(cfg, kept, l)
    ensures LedgerOk(cfg, kept, PollOnce(cfg, Replay(cfg, kept), l, b, p).0)
  {
    hide Replay, FixedDue, ProbeDue, Create;
    var c := Replay(cfg, kept);
    forall m: Ledger<E>, n, lastFixed | LedgerOk(cfg, kept, m)
      ensures LedgerOk(cfg, kept, m.(counters := n, lastFixed := lastFixed)) {
    }
    forall m: Ledger<E>, answer | LedgerOk(cfg, kept, m) ensures LedgerOk(cfg, kept, Create(c, m, answer)) {
      CreateOk(cfg, kept, m, answer);
    }
  }

  /** Waiting keeps the ledger tied to the retained turns, whatever the policy decides and the server answers. */
  lemma {:induction false} WaitOk<E>(cfg: Config<E>, kept: seq<Kept>, l: Ledger<E>, b: Bubble, polls: seq<Poll>)
    requires LedgerOk(cfg, kept, l)
    ensures LedgerOk(cfg, kept, Wait(cfg, Replay(cfg, kept), l, b, polls))
    decreases |polls|
  {
    hide LedgerOk, PollOnce, Replay;
    if polls != [] {
      var (l1, b1, done) := PollOnce(cfg, Replay(cfg, kept), l, b, polls[0]);
      PollOk(cfg, kept, l, b, polls[0]);
      if !done {
        WaitOk(cfg, kept, l1, b1, polls[1..]);
      }
    }
  }

  lemma TrimmedAnswer<E>(cfg: Config<E>, c: Core<E>, text: string, r: nat)
    requires r <= c.step && |c.messages| == 2 + 2 * c.step && |c.contexts| == c.step && |c.texts| == c.step
    ensures var a := Answered(cfg, c, text);
            && Take(a.messages, 2 + 2 * r) == Take(c.messages, 2 + 2 * r) && Take(a.contexts, r) == Take(c.contexts, r)
            && Take(a.texts, r) == Take(c.texts, r)
  {
  }

  /** Recovery from a fault in the turn after the retained ones. */
  lemma {:induction false} RecoveredOk<E>(cfg: Config<E>, kept: seq<Kept>, l: Ledger<E>, text: string, rerunOk: bool)
    requires LedgerOk(cfg, kept, l)
    ensures var (c, l1) := Recovered(cfg, Answered(cfg, Replay(cfg, kept), text), l, rerunOk);
            c.step <= |kept| && c == Replay(cfg, kept[..c.step]) && LedgerOk(cfg, kept[..c.step], l1)
  {
    var r := if l.ready.Some? && rerunOk then l.resume else 0;
    ReplayShape(cfg, kept);
    TrimmedReplay(cfg, kept, r);
    assert Replay(cfg, kept[..0]) == Start(cfg);
    hide Replay, Take, Before, Answered;
    TrimmedAnswer(cfg, Replay(cfg, kept), text, r);
    AnsweredLog(cfg, Replay(cfg, kept), text);
    assert kept[..r][..r] == kept[..r];
  }

  lemma AnsweredLog<E>(cfg: Config<E>, c: Core<E>, text: string)
    ensures Answered(cfg, c, text).stepDebug == c.stepDebug
  {
  }

  lemma TurnConsistent<E>(cfg: Config<E>, s: State<E>, kept: seq<Kept>, t: Turn)
    requires Running(cfg, s) && Consistent(cfg, s, kept)
    ensures Consistent(cfg, TakeTurn(cfg, s, t), KeptNext(cfg, kept, t, TakeTurn(cfg, s, t)))
  {
    var l := Wait(cfg, s.core, s.ledger, NEW_BUBBLE, t.polls);
    WaitOk(cfg, kept, s.ledger, NEW_BUBBLE, t.polls);
    if t.reply.Some? {
      var text := t.reply.value;
      if cfg.parse(text).Some? && t.outcome.Faulted? {
        RecoveredOk(cfg, kept, l, text, t.outcome.rerunOk);
      } else {
        var next := kept + [KeptTurn(t)];
        assert next[..|kept|] == kept;
        assert forall r :: 0 <= r <= |kept| ==> next[..r] == kept[..r];
      }
    }
  }

  /** Rollback consistency: after any script with any number of faults, successful and failed reruns included, the whole
      rolled-back state is exactly the fault-free replay of the retained turns, and so is the ready checkpoint of the
      turns it covers. */
  lemma {:induction false} RollbackConsistent<E>(cfg: Config<E>, script: seq<Turn>)
    ensures Consistent(cfg, After(cfg, script), KeptAfter(cfg, script))
  {
    if script == [] {
    } else {
      var init := script[..|script| - 1];
      RollbackConsistent(cfg, init);
      hide Consistent, TakeTurn, KeptNext;
      if Running(cfg, After(cfg, init)) {
        TurnConsistent(cfg, After(cfg, init), KeptAfter(cfg, init), script[|script| - 1]);
      }
    }
  }
}
