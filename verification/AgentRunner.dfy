/** The agent loop as the source runs it: helpers that update the shared checkpoint record, and a loop over local
    lists. */
module AgentRunner {
  import opened Sequences
  import opened AgentLoop
  import Tail = TailModel

  class CheckpointState<E> {
    var latestReady: Option<E>
    var latestReadyStep: int
    var latestReadyResume: nat
    var protectedEnv: real
    var protectedLlm: real
    var cumulativeEnv: real
    var cumulativeLlm: real
    var lastFixedAttempt: int
    var counters: Counters

    constructor ()
      ensures Record() == Ledger(None, -1, 0, 0.0, 0.0, -1, NO_COUNTS)
      ensures cumulativeEnv == 0.0 && cumulativeLlm == 0.0
    {
      latestReady, latestReadyStep, latestReadyResume := None, -1, 0;
      protectedEnv, protectedLlm, cumulativeEnv, cumulativeLlm := 0.0, 0.0, 0.0, 0.0;
      lastFixedAttempt, counters := -1, NO_COUNTS;
    }

    function Record(): Ledger<E>
      reads this
    {
      Ledger(latestReady, latestReadyStep, latestReadyResume, protectedEnv, protectedLlm, lastFixedAttempt, counters)
    }

    /** The record belongs to a run at core c. */
    ghost predicate At(c: Core<E>)
      reads this
    {
      cumulativeEnv == c.cumulativeEnv && cumulativeLlm == c.cumulativeLlm
    }

    method AttemptCreate(ghost c: Core<E>, env: E, step: nat, answer: Created) returns (created: bool, busy: bool)
      requires At(c) && c.env == env && c.step == step
      modifies this
      ensures At(c) && Record() == Create(c, old(Record()), answer)
      ensures created == answer.Ready? && busy == answer.Busy?
    {
      created, busy := false, false;
      match answer
      case Ready =>
        latestReady, latestReadyStep, latestReadyResume := Some(env), step - 1, step;
        protectedEnv, protectedLlm := cumulativeEnv, cumulativeLlm;
        created := true;
      case Busy =>
        busy := true;
      case Failed =>
    }

    method FixedCheckpoint(ghost c: Core<E>, env: E, step: nat, answer: Created)
      requires At(c) && c.env == env && c.step == step
      modifies this
      ensures At(c) && Record() == FixedAttempt(c, old(Record()), answer)
    {
      lastFixedAttempt := step - 1;
      counters := counters.(attempts := counters.attempts + 1);
      var created, busy := AttemptCreate(c, env, step, answer);
      if created {
        counters := counters.(created := counters.created + 1);
      } else if busy {
        counters := counters.(busySkips := counters.busySkips + 1);
      }
    }

    method ProbeCheckpoint(ghost c: Core<E>, env: E, step: nat, answer: Created) returns (created: bool)
      requires At(c) && c.env == env && c.step == step
      modifies this
      ensures At(c) && Record() == ProbeAttempt(c, old(Record()), answer) && created == answer.Ready?
    {
      counters := counters.(attempts := counters.attempts + 1, probes := counters.probes + 1);
      var busy;
      created, busy := AttemptCreate(c, env, step, answer);
      if created {
        counters := counters.(created := counters.created + 1);
      } else if busy {
        counters := counters.(probeBusySkips := counters.probeBusySkips + 1);
      }
    }

    /** One pass of the waiting loop. */
    method PollBubble(cfg: Config<E>, ghost c: Core<E>, env: E, step: nat, b: Bubble, p: Poll)
      returns (b': Bubble, done: bool)
      requires At(c) && c.env == env && c.step == step
      modifies this
      ensures At(c) && PollOnce(cfg, c, old(Record()), b, p) == (Record(), b', done)
    {
      hide FixedAttempt, ProbeAttempt, Tail.ShouldProbe, Tail.ConditionalTailProbability, Tail.ExpectedExposedOverhead;
      b' := b;
      if p.live < 2 {
        return b', true;
      }
      if !b.fixedAttempted && step > 0 && step < cfg.stepLimit && lastFixedAttempt < step - 1
         && (cfg.policy == Always || (cfg.policy == EveryThree && step % 3 == 0))
      {
        b' := b'.(fixedAttempted := true);
        FixedCheckpoint(c, env, step, p.fixed);
        if p.live < 3 {
          return b', true;
        }
      }
      if cfg.policy == AdaptiveRisk && cfg.tail.Some? {
        if p.live < 5 {
          return b', true;
        }
        if ProbeDue(cfg, Core([], [], [], [], env, cumulativeEnv, cumulativeLlm, step), Record(), b', p.waited) {
          b' := b'.(probeAttempted := true);
          var created := ProbeCheckpoint(c, env, step, p.adaptive);
          if created {
            b' := b'.(submitted := true);
          }
        }
        return b', p.live < 6;
      }
      done := false;
    }

    method WaitForLlm(cfg: Config<E>, ghost c: Core<E>, env: E, step: nat, polls: seq<Poll>)
      requires At(c) && c.env == env && c.step == step
      modifies this
      ensures At(c) && Record() == Wait(cfg, c, old(Record()), NEW_BUBBLE, polls)
    {
      var b, i := NEW_BUBBLE, 0;
      while i < |polls|
        invariant i <= |polls| && At(c)
        invariant Wait(cfg, c, Record(), b, polls[i..]) == Wait(cfg, c, old(Record()), NEW_BUBBLE, polls)
      {
        assert polls[i..][1..] == polls[i + 1..];
        hide PollOnce;
        var done;
        b, done := PollBubble(cfg, c, env, step, b, polls[i]);
        if done {
          return;
        }
        i := i + 1;
      }
    }

    /** Returns the environment to go on with and the step to resume at. */
    method RecoverFromInjectedFault(base: E, rerunOk: bool) returns (env: E, resume: nat)
      modifies this
      ensures if old(latestReady).Some? && rerunOk then
                && env == old(latestReady).value && resume == old(latestReadyResume) && Record() == Rerun(old(Record()))
                && cumulativeEnv == old(protectedEnv) && cumulativeLlm == old(protectedLlm)
              else
                && env == base && resume == 0 && Record() == BaseRestart(old(Record()))
                && cumulativeEnv == 0.0 && cumulativeLlm == 0.0
    {
      if latestReady.Some? && rerunOk {
        counters := counters.(rerunFromCheckpoint := counters.rerunFromCheckpoint + 1);
        cumulativeEnv, cumulativeLlm := protectedEnv, protectedLlm;
        lastFixedAttempt := latestReadyStep;
        return latestReady.value, latestReadyResume;
      }
      counters := counters.(rerunFromBase := counters.rerunFromBase + 1);
      latestReady, latestReadyStep, latestReadyResume := None, -1, 0;
      protectedEnv, protectedLlm, cumulativeEnv, cumulativeLlm := 0.0, 0.0, 0.0, 0.0;
      lastFixedAttempt := -1;
      return base, 0;
    }
  }

  /** The lists and the environment that one run owns. */
  class AgentRun<E> {
    const cfg: Config<E>
    const checkpoint: CheckpointState<E>
    var messages: seq<Message>
    var stepDebug: seq<StepEntry>
    var contexts: seq<seq<Message>>
    var texts: seq<string>
    var env: E
    var step: nat
    var status: Status

    function View(): State<E>
      reads this, checkpoint
    {
      State(Core(messages, stepDebug, contexts, texts, env, checkpoint.cumulativeEnv, checkpoint.cumulativeLlm, step),
            checkpoint.Record(), status)
    }

    constructor (cfg: Config<E>)
      ensures this.cfg == cfg && fresh(checkpoint) && View() == Initial(cfg)
    {
      this.cfg := cfg;
      checkpoint := new CheckpointState<E>();
      messages := [Message(System, cfg.system), Message(User, cfg.instance)];
      stepDebug, contexts, texts := [], [], [];
      env, step, status := cfg.base, 0, Going;
    }

    /** One pass of the loop body. */
    method Turn(t: Turn)
      modifies this, checkpoint
      requires status == Going
      ensures View() == TakeTurn(cfg, old(View()), t)
    {
      ghost var start := View().core;
      var context := cfg.contextOf(messages);
      checkpoint.WaitForLlm(cfg, start, env, step, t.polls);
      if t.reply.None? {
        status := LlmFailed;
        return;
      }
      hide Wait, Executed, Recovered;
      var text := t.reply.value;
      contexts := contexts + [context];
      messages := messages + [Message(Assistant, text)];
      texts := texts + [text];
      var action := cfg.parse(text);
      if action.None? {
        messages := messages + [Message(User, cfg.render(NO_ACTION))];
        step := step + 1;
        return;
      }
      if t.outcome.Faulted? {
        Rollback(t.outcome.rerunOk);
        return;
      }
      Execute(action.value, t.outcome.execution, t.elapsed, t.llmElapsed);
      if cfg.submits(action.value) {
        status := Submitted;
        return;
      }
      messages := messages + [Message(User, Observation(cfg, step, t.outcome.execution))];
      step := step + 1;
    }

    /** Runs an action and records it with its costs. */
    method Execute(action: string, x: Execution, elapsed: real, llmElapsed: real)
      modifies this, checkpoint
      ensures View() == old(View()).(core := Executed(cfg, old(View()).core, action, x, elapsed, llmElapsed))
    {
      env := cfg.exec(env, action);
      stepDebug := stepDebug + [StepEntry(step, action, x, Tail.Max(0.0, elapsed), llmElapsed)];
      checkpoint.cumulativeEnv := checkpoint.cumulativeEnv + stepDebug[|stepDebug| - 1].elapsed;
      checkpoint.cumulativeLlm := checkpoint.cumulativeLlm + llmElapsed;
    }

    /** Recovers the environment and cuts every list back to the resume step. */
    method Rollback(rerunOk: bool)
      modifies this, checkpoint
      ensures var (c, l) := Recovered(cfg, old(View()).core, old(View()).ledger, rerunOk);
              View() == State(c, l, old(status))
    {
      var resume;
      env, resume := checkpoint.RecoverFromInjectedFault(cfg.base, rerunOk);
      messages := Take(messages, 2 + 2 * resume);
      stepDebug := Before(stepDebug, resume);
      contexts := Take(contexts, resume);
      texts := Take(texts, resume);
      step := resume;
    }

    /** The whole loop on what the outside does in each turn. */
    method Run(script: seq<AgentLoop.Turn>)
      requires View() == Initial(cfg)
      modifies this, checkpoint
      ensures View() == After(cfg, script)
    {
      var i := 0;
      while i < |script| && status == Going && step < cfg.stepLimit
        invariant i <= |script| && View() == After(cfg, script[..i])
      {
        assert script[..i + 1][..i] == script[..i];
        hide TakeTurn, View;
        Turn(script[i]);
        i := i + 1;
      }
      StoppedRun(cfg, script, i);
      assert script[..|script|] == script;
    }
  }

  lemma {:induction false} StoppedRun<E>(cfg: Config<E>, script: seq<Turn>, i: nat)
    requires i <= |script| && (i < |script| ==> !Running(cfg, After(cfg, script[..i])))
    ensures After(cfg, script) == After(cfg, script[..i])
    decreases |script| - i
  {
    if i < |script| {
      assert script[..i + 1][..i] == script[..i];
      StoppedRun(cfg, script, i + 1);
    } else {
      assert script[..i] == script;
    }
  }
}
