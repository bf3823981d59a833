/** What the agent loop has recorded, turn by turn: which turns of the outside the retained ones are, and what the
    conversation and the step log hold of each. */
module AgentHistory {
  import opened Sequences
  import opened AgentLoop
  import AgentRuns

  // ----- The record of one turn -----

  /** The log entries are in step order, one for a step at most. */
  predicate LogOrdered(log: seq<StepEntry>, step: nat)
  {
    && (forall x, y :: 0 <= x < y < |log| ==> log[x].stepIdx < log[y].stepIdx)
    && (forall x :: 0 <= x < |log| ==> log[x].stepIdx < step)
  }

  /** Entry x is the one entry of step i, and says what the command of turn t did. */
  predicate Logged(log: seq<StepEntry>, x: nat, i: nat, cmd: string, t: Turn)
    requires t.outcome.Ran? && x < |log|
  {
    && log[x].stepIdx == i && log[x].action == cmd && log[x].execution == t.outcome.execution
    && log[x].elapsed == (if t.elapsed < 0.0 then 0.0 else t.elapsed) && log[x].llmElapsed == t.llmElapsed
    && forall y :: 0 <= y < |log| && log[y].stepIdx == i ==> y == x
  }

  /** What an answered command is answered with: the rendered result, and how many turns remain, if any do. */
  function Answer<E>(cfg: Config<E>, x: Execution, i: nat): string
  {
    var remaining := cfg.stepLimit - (i + 1);
    if remaining > 0 then cfg.render(x) + cfg.reminder(remaining) else cfg.render(x)
  }

  /** The reply of turn t is recorded as turn i, with the context that the model was given. */
  predicate ReplyRecorded<E>(cfg: Config<E>, c: Core<E>, i: nat, t: Turn)
    requires |c.messages| >= 3 + 2 * i && |c.contexts| > i && |c.texts| > i
  {
    && t.reply == Some(c.texts[i])
    && c.messages[2 + 2 * i] == Message(Assistant, c.texts[i])
    && c.contexts[i] == cfg.contextOf(c.messages[..2 + 2 * i])
  }

  /** Turn t is recorded as turn i: a reply without a command is answered as such and logged nowhere; a command has run,
      was no submission, is the one log entry of its step, and is answered with its own result. */
  ghost predicate TurnRecorded<E>(cfg: Config<E>, c: Core<E>, i: nat, t: Turn)
    requires |c.messages| >= 4 + 2 * i && |c.contexts| > i && |c.texts| > i
  {
    && ReplyRecorded(cfg, c, i, t)
    && match cfg.parse(c.texts[i])
       case None =>
         && c.messages[3 + 2 * i]
            == Message(User, cfg.render(Execution(-1, "No valid bash command found in response.")))
         && forall x :: 0 <= x < |c.stepDebug| ==> c.stepDebug[x].stepIdx != i
       case Some(cmd) =>
         && t.outcome.Ran? && !cfg.submits(cmd)
         && c.messages[3 + 2 * i] == Message(User, Answer(cfg, t.outcome.execution, i))
         && exists x :: 0 <= x < |c.stepDebug| && Logged(c.stepDebug, x, i, cmd, t)
  }

  /** The core only grew: nothing that was recorded has changed. */
  predicate Grown<E>(c: Core<E>, d: Core<E>)
  {
    c.messages <= d.messages && c.contexts <= d.contexts && c.texts <= d.texts && c.stepDebug <= d.stepDebug
  }

  lemma RecordedGrows<E>(cfg: Config<E>, c: Core<E>, d: Core<E>, i: nat, t: Turn)
    requires |c.messages| >= 4 + 2 * i && |c.contexts| > i && |c.texts| > i && TurnRecorded(cfg, c, i, t)
    requires Grown(c, d) && forall x :: |c.stepDebug| <= x < |d.stepDebug| ==> d.stepDebug[x].stepIdx > i
    ensures TurnRecorded(cfg, d, i, t)
  {
    assert d.messages[..2 + 2 * i] == c.messages[..2 + 2 * i];
    if cfg.parse(c.texts[i]).Some? {
      var cmd := cfg.parse(c.texts[i]).value;
      var x :| 0 <= x < |c.stepDebug| && Logged(c.stepDebug, x, i, cmd, t);
      assert Logged(d.stepDebug, x, i, cmd, t);
    }
  }

  /** A turn that leaves these things behind. */
  function TurnOf(k: Kept): Turn
  {
    Turn([], Some(k.text), k.llmElapsed, Ran(k.execution), k.elapsed)
  }

  predicate Unsubmitted<E>(cfg: Config<E>, k: Kept)
  {
    cfg.parse(k.text).Some? ==> !cfg.submits(cfg.parse(k.text).value)
  }

  lemma {:induction false} ReplayLog<E>(cfg: Config<E>, kept: seq<Kept>)
    ensures LogOrdered(Replay(cfg, kept).stepDebug, |kept|)
  {
    if kept != [] {
      ReplayLog(cfg, kept[..|kept| - 1]);
    }
  }

  /** The last turn of a replay is recorded. */
  lemma LastRecorded<E>(cfg: Config<E>, c: Core<E>, k: Kept)
    requires |c.messages| == 2 + 2 * c.step && |c.contexts| == c.step == |c.texts| && LogOrdered(c.stepDebug, c.step)
    requires Unsubmitted(cfg, k)
    ensures var d := Advance(cfg, c, k);
            && Grown(c, d) && d.step == c.step + 1
            && (forall x :: |c.stepDebug| <= x < |d.stepDebug| ==> d.stepDebug[x].stepIdx == c.step)
            && |d.messages| == 4 + 2 * c.step && |d.contexts| == c.step + 1 == |d.texts|
            && TurnRecorded(cfg, d, c.step, TurnOf(k))
  {
    var d := Advance(cfg, c, k);
    assert d.messages[..2 + 2 * c.step] == c.messages;
    if cfg.parse(k.text).Some? {
      assert Logged(d.stepDebug, |c.stepDebug|, c.step, cfg.parse(k.text).value, TurnOf(k));
    }
  }

  /** The last retained turn is recorded, and the record of the earlier ones only grows. */
  lemma {:induction false} ReplayStep<E>(cfg: Config<E>, kept: seq<Kept>)
    requires kept != [] && Unsubmitted(cfg, kept[|kept| - 1])
    ensures var c, d := Replay(cfg, kept[..|kept| - 1]), Replay(cfg, kept);
            && Grown(c, d) && (forall x :: |c.stepDebug| <= x < |d.stepDebug| ==> d.stepDebug[x].stepIdx == |kept| - 1)
            && |d.messages| == 2 + 2 * |kept| && |d.contexts| == |kept| == |d.texts|
            && TurnRecorded(cfg, d, |kept| - 1, TurnOf(kept[|kept| - 1]))
  {
    var init := kept[..|kept| - 1];
    ReplayShape(cfg, init);
    ReplayLog(cfg, init);
    LastRecorded(cfg, Replay(cfg, init), kept[|kept| - 1]);
    hide TurnRecorded, LogOrdered, Grown, Advance;
  }

  lemma {:induction false} ReplayRecorded<E>(cfg: Config<E>, kept: seq<Kept>, i: nat)
    requires i < |kept| && forall k :: 0 <= k < |kept| ==> Unsubmitted(cfg, kept[k])
    ensures var c := Replay(cfg, kept);
            && |c.messages| == 2 + 2 * |kept| && |c.contexts| == |kept| == |c.texts|
            && TurnRecorded(cfg, c, i, TurnOf(kept[i]))
  {
    hide *;
    ReplayStep(cfg, kept);
    if i < |kept| - 1 {
      var init := kept[..|kept| - 1];
      ReplayRecorded(cfg, init, i);
      RecordedGrows(cfg, Replay(cfg, init), Replay(cfg, kept), i, TurnOf(kept[i]));
    }
  }

  // ----- Where the retained turns come from -----

  /** Turn j of the script is taken at step i. */
  predicate StartsAt<E>(cfg: Config<E>, script: seq<Turn>, j: nat, i: nat)
  {
    j < |script| && Running(cfg, After(cfg, script[..j])) && After(cfg, script[..j]).core.step == i
  }

  /** It is the last one taken at step i: all later ones are taken at later steps. */
  ghost predicate LastAt<E>(cfg: Config<E>, script: seq<Turn>, j: nat, i: nat): (last: bool)
    ensures last ==> j < |script|
  {
    && StartsAt(cfg, script, j, i)
    && forall k: nat, later: nat :: j < k < |script| && StartsAt(cfg, script, k, later) ==> later > i
  }

  /** Retained turn i is the last turn taken at step i, which answered and did not fault. */
  ghost predicate Origin<E>(cfg: Config<E>, script: seq<Turn>, j: nat, i: nat, k: Kept): (origin: bool)
    ensures origin ==> j < |script|
  {
    LastAt(cfg, script, j, i) && script[j].reply.Some? && !AgentRuns.IsFault(cfg, script[j]) && k == KeptTurn(script[j])
  }

  ghost predicate HasOrigin<E>(cfg: Config<E>, script: seq<Turn>, i: nat, k: Kept)
  {
    exists j: nat :: Origin(cfg, script, j, i, k)
  }

  lemma {:induction false} OriginGrows<E>(cfg: Config<E>, script: seq<Turn>, j: nat, i: nat, k: Kept)
    requires script != [] && Origin(cfg, script[..|script| - 1], j, i, k)
    requires StartsAt(cfg, script, |script| - 1, After(cfg, script[..|script| - 1]).core.step) ==>
               After(cfg, script[..|script| - 1]).core.step > i
    ensures Origin(cfg, script, j, i, k)
  {
    var n := |script| - 1;
    var init := script[..n];
    assert forall m :: 0 <= m <= n ==> init[..m] == script[..m];
    forall m: nat, later: nat | j < m < |script| && StartsAt(cfg, script, m, later) ensures later > i {
      if m < n {
        assert StartsAt(cfg, init, m, later);
      }
    }
  }

  lemma {:induction false} KeptOrigin<E>(cfg: Config<E>, script: seq<Turn>, i: nat)
    requires i < |KeptAfter(cfg, script)|
    ensures HasOrigin(cfg, script, i, KeptAfter(cfg, script)[i])
  {
    var n := |script| - 1;
    var init, t := script[..n], script[n];
    var s, kept := After(cfg, init), KeptAfter(cfg, init);
    RollbackConsistent(cfg, init);
    RollbackConsistent(cfg, script);
    hide Replay, LedgerOk, TakeTurn, Submitting;
    if i < |kept| && (Running(cfg, s) ==> i < s.core.step && KeptAfter(cfg, script)[i] == kept[i]) {
      KeptOrigin(cfg, init, i);
      var j: nat :| Origin(cfg, init, j, i, kept[i]);
      OriginGrows(cfg, script, j, i, kept[i]);
    } else {
      assert StartsAt(cfg, script, n, i);
      assert Origin(cfg, script, n, i, KeptAfter(cfg, script)[i]);
    }
  }

  // ----- The conversation and the log at every loop head -----

  /** Turn i of the core is the last turn of the script that was taken at step i. */
  ghost predicate RecordedAt<E>(cfg: Config<E>, script: seq<Turn>, c: Core<E>, i: nat)
    requires |c.messages| >= 4 + 2 * i && |c.contexts| > i && |c.texts| > i
  {
    exists j: nat :: LastAt(cfg, script, j, i) && TurnRecorded(cfg, c, i, script[j])
  }

  /** The record of a loop head: the two prompts, and all its turns. */
  ghost predicate Recorded<E>(cfg: Config<E>, script: seq<Turn>, c: Core<E>)
  {
    && |c.messages| == 2 + 2 * c.step && |c.contexts| == c.step == |c.texts| && LogOrdered(c.stepDebug, c.step)
    && c.messages[0] == Message(System, cfg.system) && c.messages[1] == Message(User, cfg.instance)
    && forall i: nat :: i < c.step ==> RecordedAt(cfg, script, c, i)
  }

  lemma {:induction false} ReplayPrompts<E>(cfg: Config<E>, kept: seq<Kept>)
    ensures var m := Replay(cfg, kept).messages;
            |m| >= 2 && m[0] == Message(System, cfg.system) && m[1] == Message(User, cfg.instance)
  {
    if kept != [] {
      ReplayPrompts(cfg, kept[..|kept| - 1]);
    }
  }

  lemma KeptRecord<E>(cfg: Config<E>, c: Core<E>, i: nat, t: Turn)
    requires |c.messages| >= 4 + 2 * i && |c.contexts| > i && |c.texts| > i
    requires t.reply.Some? && !AgentRuns.IsFault(cfg, t) && TurnRecorded(cfg, c, i, TurnOf(KeptTurn(t)))
    ensures TurnRecorded(cfg, c, i, t)
  {
    if cfg.parse(c.texts[i]).Some? {
      var cmd := cfg.parse(c.texts[i]).value;
      var x :| 0 <= x < |c.stepDebug| && Logged(c.stepDebug, x, i, cmd, TurnOf(KeptTurn(t)));
      assert Logged(c.stepDebug, x, i, cmd, t);
    }
  }

  lemma {:induction false} ReplayIsRecorded<E>(cfg: Config<E>, script: seq<Turn>, kept: seq<Kept>)
    requires forall k :: 0 <= k < |kept| ==> Unsubmitted(cfg, kept[k])
    requires forall i: nat :: i < |kept| ==> HasOrigin(cfg, script, i, kept[i])
    ensures Recorded(cfg, script, Replay(cfg, kept))
  {
    var c := Replay(cfg, kept);
    ReplayShape(cfg, kept);
    ReplayLog(cfg, kept);
    ReplayPrompts(cfg, kept);
    hide Replay, TurnRecorded, LastAt, LogOrdered;
    forall i: nat | i < c.step ensures RecordedAt(cfg, script, c, i) {
      assert HasOrigin(cfg, script, i, kept[i]);
      var j: nat :| Origin(cfg, script, j, i, kept[i]);
      ReplayRecorded(cfg, kept, i);
      KeptRecord(cfg, c, i, script[j]);
    }
  }

  /** At every loop head of every run, however many faults it had, the conversation and the log are exactly those of the
      retained turns, and retained turn i is the last turn that was taken at step i. */
  lemma {:induction false} LoopRecorded<E>(cfg: Config<E>, script: seq<Turn>)
    requires After(cfg, script).status != Submitted
    ensures Recorded(cfg, script, After(cfg, script).core)
  {
    RollbackConsistent(cfg, script);
    AgentRuns.RunRetained(cfg, script);
    var kept := KeptAfter(cfg, script);
    assert forall k :: 0 <= k < |kept| ==> Unsubmitted(cfg, kept[k]);
    hide Recorded, Replay, LedgerOk, After, HasOrigin, KeptAfter;
    forall i: nat | i < |kept| ensures HasOrigin(cfg, script, i, kept[i]) {
      KeptOrigin(cfg, script, i);
    }
    ReplayIsRecorded(cfg, script, kept);
  }

  /** The submitting turn: its command ran and is the last log entry, and it got no answer. */
  ghost predicate SubmittedBy<E>(cfg: Config<E>, c: Core<E>, t: Turn)
    requires |c.messages| == 3 + 2 * c.step && |c.contexts| == c.step + 1 == |c.texts|
  {
    && ReplyRecorded(cfg, c, c.step, t) && t.outcome.Ran?
    && cfg.parse(c.texts[c.step]).Some? && cfg.submits(cfg.parse(c.texts[c.step]).value)
    && c.stepDebug != [] && LogOrdered(c.stepDebug[..|c.stepDebug| - 1], c.step)
    && Logged(c.stepDebug, |c.stepDebug| - 1, c.step, cfg.parse(c.texts[c.step]).value, t)
  }

  lemma SubmittingRecorded<E>(cfg: Config<E>, before: Core<E>, k: Kept)
    requires |before.messages| == 2 + 2 * before.step && |before.contexts| == before.step == |before.texts|
    requires LogOrdered(before.stepDebug, before.step)
    requires cfg.parse(k.text).Some? && cfg.submits(cfg.parse(k.text).value)
    ensures var c := Submitting(cfg, before, k);
            && |c.messages| == 3 + 2 * c.step && |c.contexts| == c.step + 1 == |c.texts|
            && SubmittedBy(cfg, c, TurnOf(k))
  {
    var c := Submitting(cfg, before, k);
    assert c.messages[..2 + 2 * c.step] == before.messages;
    assert c.stepDebug[..|c.stepDebug| - 1] == before.stepDebug;
  }

  /** A run that has submitted stopped at the last turn taken at its step, which is its submitting turn. */
  lemma {:induction false} SubmissionRecorded<E>(cfg: Config<E>, script: seq<Turn>)
    requires After(cfg, script).status == Submitted
    ensures var c := After(cfg, script).core;
            && |c.messages| == 3 + 2 * c.step && |c.contexts| == c.step + 1 == |c.texts|
            && exists j: nat :: LastAt(cfg, script, j, c.step) && SubmittedBy(cfg, c, script[j])
  {
    RollbackConsistent(cfg, script);
    AgentRuns.RunRetained(cfg, script);
    var c, kept := After(cfg, script).core, KeptAfter(cfg, script);
    var n := |kept| - 1;
    ReplayShape(cfg, kept[..n]);
    ReplayLog(cfg, kept[..n]);
    KeptOrigin(cfg, script, n);
    hide After, Replay, LastAt, KeptAfter;
    SubmittingRecorded(cfg, Replay(cfg, kept[..n]), kept[n]);
    var j: nat :| Origin(cfg, script, j, n, kept[n]);
    hide LogOrdered;
    assert SubmittedBy(cfg, c, script[j]);
  }
}
