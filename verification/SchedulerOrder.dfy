/** In which order prompts are admitted, what keeps one waiting, and what the counters and caps count. */
module SchedulerOrder {
  import opened Sequences
  import opened SchedulerRules
  import opened SchedulerRuns

  // ----- First in, first out -----

  function Ids(pending: seq<Pending>): (r: seq<nat>)
    ensures |r| == |pending|
  {
    seq(|pending|, i requires 0 <= i < |pending| => pending[i].prompt.id)
  }

  /** The prompts enqueued by the first n events, in order. */
  function Line(events: seq<Event>, n: nat): seq<nat>
    requires n <= |events|
  {
    if n == 0 then []
    else Line(events, n - 1) + (if events[n - 1].Enqueue? then [events[n - 1].p.id] else [])
  }

  /** The first `a` of the line have been admitted, and the others wait in their order. */
  ghost predicate InLine(w: World, line: seq<nat>, a: nat)
  {
    && a <= |line| && Ids(w.sched.pending) == line[a..]
    && forall id :: id in line[..a] <==> id in w.sched.active || id in w.finished
  }

  /** The order of arrival is kept: in head-of-line mode, and with requeueing switched off. */
  predicate KeepsOrder(cfg: Config) { cfg.preserveOrder && cfg.requeueThreshold <= 0 }

  lemma HeadOnly(cfg: Config, s: State, budget: ResourceVector, startupCap: int, s': State, r: Option<Prompt>)
    requires KeepsOrder(cfg) && AdmitNext(cfg, s, budget, startupCap, s', r)
    ensures r.None? ==> Ids(s'.pending) == Ids(s.pending) && s'.active == s.active
    ensures r.Some? ==> s.pending != [] && r.value == s.pending[0].prompt
                        && s'.active == s.active[r.value.id := r.value]
                        && exists q: seq<Pending> :: Ids(q) == Ids(s.pending) && s'.pending == Without(q, r.value.id)
  {
    if s.pending != [] && !Closed(cfg, s, startupCap) {
      var head := s.pending[0].prompt;
      assert Ids(s.pending[0 := Pending(head, 0)]) == Ids(s.pending);
      assert Ids(s.pending[0 := Pending(head, s.pending[0].blocked + 1)]) == Ids(s.pending);
    }
  }

  lemma {:induction false} WithoutIds(q: seq<Pending>, ids: seq<nat>)
    requires Ids(q) == ids && q != [] && forall i, j :: 0 <= i < j < |ids| ==> ids[i] != ids[j]
    ensures Ids(Without(q, ids[0])) == ids[1..]
  {
    assert forall i :: 0 <= i < |q| ==> q[i].prompt.id == ids[i];
    WithoutExact(q, 0);
    assert q[..0] + q[1..] == q[1..];
  }

  lemma {:induction false} AdmitInLine(cfg: Config, w: World, budget: ResourceVector, startupCap: int, w': World,
                                       line: seq<nat>, a: nat) returns (b: nat)
    requires KeepsOrder(cfg) && Placed(w) && InLine(w, line, a) && Step(cfg, w, Event.Admit(budget, startupCap), w')
    ensures InLine(w', line, b)
  {
    var s := w.sched;
    var r :| AdmitNext(cfg, s, budget, startupCap, w'.sched, r);
    HeadOnly(cfg, s, budget, startupCap, w'.sched, r);
    hide AdmitNext;
    if r.None? {
      b := a;
    } else {
      b := a + 1;
      var q: seq<Pending> :| Ids(q) == Ids(s.pending) && w'.sched.pending == Without(q, r.value.id);
      assert Ids(s.pending)[0] == r.value.id == line[a];
      forall i, j | 0 <= i < j < |Ids(s.pending)| ensures Ids(s.pending)[i] != Ids(s.pending)[j] {
        assert s.pending[i].prompt.id != s.pending[j].prompt.id;
      }
      WithoutIds(q, line[a..]);
      assert line[a..][1..] == line[b..] && line[..b] == line[..a] + [line[a]];
    }
  }

  lemma {:induction false} OtherInLine(cfg: Config, w: World, e: Event, w': World, line: seq<nat>, a: nat)
    requires Placed(w) && InLine(w, line, a) && Step(cfg, w, e, w') && !e.Admit?
    ensures InLine(w', line + (if e.Enqueue? then [e.p.id] else []), a)
  {
    assert line + [] == line;
    match e
    case Enqueue(p) =>
      var more := line + [p.id];
      assert Ids(w'.sched.pending) == Ids(w.sched.pending) + [p.id];
      assert more[..a] == line[..a] && more[a..] == line[a..] + [p.id];
    case Repredict(pending) =>
      assert Ids(pending) == Ids(w.sched.pending);
    case _ =>
  }

  lemma {:induction false} NextInLine(cfg: Config, w: World, e: Event, w': World, line: seq<nat>, a: nat)
    returns (b: nat)
    requires KeepsOrder(cfg) && Placed(w) && InLine(w, line, a) && Step(cfg, w, e, w')
    ensures InLine(w', line + (if e.Enqueue? then [e.p.id] else []), b)
  {
    hide Step, Placed, InLine, KeepsOrder;
    if e.Admit? {
      b := AdmitInLine(cfg, w, e.budget, e.startupCap, w', line, a);
      assert line + [] == line;
    } else {
      OtherInLine(cfg, w, e, w', line, a);
      b := a;
    }
  }

  /** With order kept, prompts become active in the order in which they were enqueued: at any time of any run those that
      have ever been admitted are exactly the first of the line, and the others wait in order. */
  lemma {:induction false} FirstEnqueuedFirst(cfg: Config, states: seq<World>, events: seq<Event>, n: nat)
    returns (a: nat)
    requires KeepsOrder(cfg) && Run(cfg, states, events) && Initial(states[0]) && n <= |events|
    ensures InLine(states[n], Line(events, n), a)
  {
    if n == 0 {
      a := 0;
    } else {
      assert Step(cfg, states[n - 1], events[n - 1], states[n]);
      hide Step, Run, Accounted, Capped, InLine, Placed, KeepsOrder;
      a := FirstEnqueuedFirst(cfg, states, events, n - 1);
      ReachableInv(cfg, states, events, n - 1);
      a := NextInLine(cfg, states[n - 1], events[n - 1], states[n], Line(events, n - 1), a);
    }
  }

  // ----- Deferring a blocked head -----

  /** The head goes behind k others, with a fresh counter. */
  function Behind(pending: seq<Pending>, k: nat): seq<Pending>
    requires 0 < k < |pending|
  {
    pending[1..k + 1] + [Pending(pending[0].prompt, 0)] + pending[k + 1..]
  }

  /** As many others as configured, at least one and at most all. */
  function Others(cfg: Config, n: nat): int
  {
    if cfg.requeueOffset >= n - 1 then n - 1 else if cfg.requeueOffset <= 1 then 1 else cfg.requeueOffset
  }

  /** The line after m attempts that change nothing but it. */
  function Attempts(cfg: Config, s: State, budget: ResourceVector, m: nat): (t: State)
    requires s.pending != [] && cfg.requeueThreshold != 1
    ensures |t.pending| == |s.pending|
  {
    if m == 0 then s
    else
      var t := Attempts(cfg, s, budget, m - 1);
      t.(pending := HeadOfLine(cfg, t, budget).pending)
  }

  /** A head that cannot be admitted is counted once by every attempt, and stays the head below the threshold. */
  lemma {:induction false} BlockedHeadCounts(cfg: Config, s: State, budget: ResourceVector, m: nat)
    requires |s.pending| > 1 && cfg.requeueThreshold != 1 && s.pending[0].blocked == 0
    requires Eligible(cfg, s, s.pending[0].prompt) && !Stops(cfg, s, budget, s.pending[0].prompt)
    requires cfg.requeueThreshold <= 0 || m < cfg.requeueThreshold
    ensures Attempts(cfg, s, budget, m) == s.(pending := s.pending[0 := Pending(s.pending[0].prompt, m)])
  {
    if m > 0 {
      BlockedHeadCounts(cfg, s, budget, m - 1);
      var t := Attempts(cfg, s, budget, m - 1);
      assert t.pending[0] == Pending(s.pending[0].prompt, m - 1);
      assert !Stops(cfg, t, budget, t.pending[0].prompt) && Eligible(cfg, t, t.pending[0].prompt);
      hide Stops, Eligible;
      assert t.pending[0 := Pending(s.pending[0].prompt, m)] == s.pending[0 := Pending(s.pending[0].prompt, m)];
    } else {
      assert s.pending[0 := Pending(s.pending[0].prompt, 0)] == s.pending;
    }
  }

  /** At exactly its threshold-th consecutive block the head goes behind exactly as many others as configured, and the
      attempt goes on with the next head. */
  lemma {:induction false} BlockedHeadMoves(cfg: Config, s: State, budget: ResourceVector)
    requires |s.pending| > 1 && cfg.requeueThreshold > 1 && s.pending[0].blocked == 0
    requires Eligible(cfg, s, s.pending[0].prompt) && !Stops(cfg, s, budget, s.pending[0].prompt)
    ensures 0 < Others(cfg, |s.pending|) < |s.pending|
    ensures HeadOfLine(cfg, Attempts(cfg, s, budget, cfg.requeueThreshold - 1), budget)
         == HeadOfLine(cfg, s.(pending := Behind(s.pending, Others(cfg, |s.pending|))), budget)
  {
    var m := cfg.requeueThreshold - 1;
    BlockedHeadCounts(cfg, s, budget, m);
    var t := Attempts(cfg, s, budget, m);
    assert t.pending[0] == Pending(s.pending[0].prompt, m);
    assert !Stops(cfg, t, budget, t.pending[0].prompt) && Eligible(cfg, t, t.pending[0].prompt);
    assert Deferred(cfg, t) == s.(pending := Behind(s.pending, Others(cfg, |s.pending|)));
    hide Stops, Eligible, Deferred;
  }

  // ----- What keeps a prompt waiting -----

  /** How much one unit of reserved resources counts against the budget. */
  function Weight(cfg: Config, realtime: bool): real
  {
    if !realtime then 1.0 else if cfg.discount < 0.0 then 0.0 else cfg.discount
  }

  function Weighted(cfg: Config, realtime: bool, x: real): real { x * Weight(cfg, realtime) }

  /** The weighted reservations leave room for the request in all four dimensions. */
  predicate Room(cfg: Config, reserved: ResourceVector, p: ResourceVector, budget: ResourceVector)
  {
    && Weighted(cfg, cfg.realtimeMemory, reserved.memory) + p.memory <= budget.memory
    && Weighted(cfg, cfg.realtimeCpu, reserved.cpu) + p.cpu <= budget.cpu
    && Weighted(cfg, cfg.realtimeDisk, reserved.diskRead) + p.diskRead <= budget.diskRead
    && Weighted(cfg, cfg.realtimeDisk, reserved.diskWrite) + p.diskWrite <= budget.diskWrite
  }

  /** Nothing counts against the budget. */
  predicate Unloaded(cfg: Config, reserved: ResourceVector)
  {
    && Weighted(cfg, cfg.realtimeMemory, reserved.memory) == 0.0 && Weighted(cfg, cfg.realtimeCpu, reserved.cpu) == 0.0
    && Weighted(cfg, cfg.realtimeDisk, reserved.diskRead) == 0.0
    && Weighted(cfg, cfg.realtimeDisk, reserved.diskWrite) == 0.0
  }

  /** The budget has no room for the request even with nothing else counted. */
  predicate TooLarge(p: ResourceVector, budget: ResourceVector)
  {
    p.memory > budget.memory || p.cpu > budget.cpu || p.diskRead > budget.diskRead || p.diskWrite > budget.diskWrite
  }

  lemma CountedIsWeighted(cfg: Config, realtime: bool, x: real)
    requires x >= 0.0
    ensures Counted(cfg, realtime, x) == Weighted(cfg, realtime, x)
  {
    if realtime && cfg.discount > 0.0 {
      assert x * cfg.discount >= 0.0;
    }
  }

  lemma CountsWeighted(cfg: Config, reserved: ResourceVector, p: ResourceVector, budget: ResourceVector)
    requires reserved.NonNegative()
    ensures Fits(cfg, reserved, p, budget) <==> Room(cfg, reserved, p, budget)
    ensures Forced(cfg, reserved, p, budget) <==> Unloaded(cfg, reserved) && TooLarge(p, budget)
  {
    CountedIsWeighted(cfg, cfg.realtimeMemory, reserved.memory);
    CountedIsWeighted(cfg, cfg.realtimeCpu, reserved.cpu);
    CountedIsWeighted(cfg, cfg.realtimeDisk, reserved.diskRead);
    CountedIsWeighted(cfg, cfg.realtimeDisk, reserved.diskWrite);
    hide Counted, Weighted;
  }

  /** A prompt must wait for its turn among workloads without history, or for room, unless it can never have room and
      nothing counts. */
  predicate MustWait(cfg: Config, s: State, budget: ResourceVector, p: Prompt)
  {
    || (!p.hasHistory && cfg.unknownCap > 0 && |set k | k in s.active && !s.active[k].hasHistory| >= cfg.unknownCap)
    || (!Room(cfg, s.reserved, p.predicted, budget)
        && !(Unloaded(cfg, s.reserved) && TooLarge(p.predicted, budget)))
  }

  /** Some cap on admissions is reached. */
  predicate Full(cfg: Config, s: State, startupCap: int)
  {
    || (0 < cfg.windowCap <= s.admittedInWindow) || (0 < cfg.activeCap <= |s.active|) || (0 < startupCap <= |s.active|)
  }

  lemma WaitsIff(cfg: Config, s: State, budget: ResourceVector, p: Prompt)
    requires s.reserved.NonNegative()
    ensures Admissible(cfg, s, budget, p) <==> !MustWait(cfg, s, budget, p)
  {
    CountsWeighted(cfg, s.reserved, p.predicted, budget);
    assert Unknown(s.active) == set k | k in s.active && !s.active[k].hasHistory;
    hide Fits, Forced, Room, Unloaded, TooLarge;
  }

  /** In reorder mode an attempt is refused exactly if nothing waits, a cap is reached, or every prompt must wait. */
  lemma ReorderRefusedIff(cfg: Config, s: State, budget: ResourceVector, startupCap: int, s': State, r: Option<Prompt>)
    requires !cfg.preserveOrder && s.reserved.NonNegative() && AdmitNext(cfg, s, budget, startupCap, s', r)
    ensures r.None? <==> s.pending == [] || Full(cfg, s, startupCap)
                         || forall i :: 0 <= i < |s.pending| ==> MustWait(cfg, s, budget, s.pending[i].prompt)
  {
    forall i | 0 <= i < |s.pending|
      ensures MustWait(cfg, s, budget, s.pending[i].prompt)
         <==> !Candidate(cfg, s, budget, i) && !Waiting(cfg, s, budget, i)
    {
      WaitsIff(cfg, s, budget, s.pending[i].prompt);
    }
    hide MustWait, Candidate, Waiting, Mark;
  }

  /** In head-of-line mode the head after the attempt is one that must wait, unless nothing waits or a cap is reached;
      with order kept, an attempt is refused exactly for these reasons. */
  lemma {:induction false} HeadRefused(cfg: Config, s: State, budget: ResourceVector, startupCap: int, s': State,
                                       r: Option<Prompt>)
    requires cfg.preserveOrder && s.reserved.NonNegative() && AdmitNext(cfg, s, budget, startupCap, s', r)
    ensures r.None? ==> s.pending == [] || Full(cfg, s, startupCap)
                        || (s'.pending != [] && MustWait(cfg, s, budget, s'.pending[0].prompt))
    ensures r.Some? ==> !Full(cfg, s, startupCap) && !MustWait(cfg, s, budget, r.value)
    ensures KeepsOrder(cfg) && s.pending != [] && !Full(cfg, s, startupCap) ==>
              (r.None? <==> MustWait(cfg, s, budget, s.pending[0].prompt))
  {
    if s.pending != [] && !Closed(cfg, s, startupCap) {
      HeadOfLineSound(cfg, s, budget);
      HeadWaits(cfg, s, budget);
      var q := HeadOfLine(cfg, s, budget).pending;
      WaitsIff(cfg, s, budget, q[0].prompt);
      WaitsIff(cfg, s, budget, s.pending[0].prompt);
      hide MustWait, Admissible, Mark;
      if KeepsOrder(cfg) {
        HeadOnly(cfg, s, budget, startupCap, s', r);
        assert Ids(q)[0] == Ids(s.pending)[0];
        HeadStays(cfg, s, budget);
      }
    }
  }

  lemma {:induction false} HeadStays(cfg: Config, s: State, budget: ResourceVector)
    requires KeepsOrder(cfg) && s.pending != []
    ensures HeadOfLine(cfg, s, budget).pending[0].prompt == s.pending[0].prompt
  {
    hide Stops, Eligible;
  }

  /** When the loop stops without admitting, the head of the line must wait. */
  lemma {:induction false} HeadWaits(cfg: Config, s: State, budget: ResourceVector)
    requires s.pending != [] && Halts(cfg, s, budget)
    ensures HeadOfLine(cfg, s, budget).Wait? ==>
              !Admissible(cfg, s, budget, HeadOfLine(cfg, s, budget).pending[0].prompt)
    decreases Effort(cfg, s, budget)
  {
    if Eligible(cfg, s, s.pending[0].prompt) && Defers(cfg, s, budget) {
      DeferralProgress(cfg, s, budget);
      HeadWaits(cfg, Deferred(cfg, s), budget);
      hide Effort, Halts, Fits, Forced;
    }
  }

  // ----- What the counters and the caps count -----

  datatype Dimension = Memory | Cpu | DiskRead | DiskWrite

  function Amount(v: ResourceVector, d: Dimension): real
  {
    match d
    case Memory => v.memory
    case Cpu => v.cpu
    case DiskRead => v.diskRead
    case DiskWrite => v.diskWrite
  }

  /** The sum of one dimension over the active prompts. */
  ghost function SumOf(m: map<nat, Prompt>, d: Dimension): real
    decreases |m|
  {
    if m == map[] then 0.0 else Amount(m[Pick(m)].predicted, d) + SumOf(m - {Pick(m)}, d)
  }

  lemma {:induction false} TotalIsSum(m: map<nat, Prompt>, d: Dimension)
    ensures Amount(Total(m), d) == SumOf(m, d)
    decreases |m|
  {
    if m != map[] {
      TotalIsSum(m - {Pick(m)}, d);
    }
  }

  /** How many prompts were admitted since resources were last released or refreshed. */
  function AdmittedSince(states: seq<World>, events: seq<Event>, n: nat): int
    requires n <= |events| && |states| == |events| + 1
  {
    if n == 0 || events[n - 1].FinishPrompt? || events[n - 1].ResetWindow? then 0
    else AdmittedSince(states, events, n - 1) + |states[n].sched.active| - |states[n - 1].sched.active|
  }

  lemma WindowStep(cfg: Config, w: World, e: Event, w': World)
    requires Inv(cfg, w) && Step(cfg, w, e, w')
    ensures if e.FinishPrompt? || e.ResetWindow? then w'.sched.admittedInWindow == 0
            else w'.sched.admittedInWindow - w.sched.admittedInWindow == |w'.sched.active| - |w.sched.active|
    ensures |w'.sched.active| > |w.sched.active| ==> e.Admit? && !Closed(cfg, w.sched, e.startupCap)
                                                     && |w'.sched.active| == |w.sched.active| + 1
  {
    hide Total, Accounted, Capped;
    match e
    case Admit(budget, startupCap) =>
      var r :| AdmitNext(cfg, w.sched, budget, startupCap, w'.sched, r);
      AdmitSound(cfg, w.sched, budget, startupCap, w'.sched, r);
      hide AdmitNext;
      AdmitGrows(cfg, w, budget, w'.sched, r);
    case FinishPrompt(id) =>
      assert id in w.sched.active && w'.sched.active.Keys == w.sched.active.Keys - {id};
    case _ =>
  }

  lemma AdmitGrows(cfg: Config, w: World, budget: ResourceVector, s': State, r: Option<Prompt>)
    requires Placed(w) && AdmitEffect(cfg, w.sched, budget, s', r)
    ensures if r.None? then s'.active == w.sched.active && s'.admittedInWindow == w.sched.admittedInWindow
            else |s'.active| == |w.sched.active| + 1 && s'.admittedInWindow == w.sched.admittedInWindow + 1
  {
    if r.Some? {
      var s, p := w.sched, r.value;
      var q: seq<Pending> :| multiset(Prompts(q)) == multiset(Prompts(s.pending))
        && p in Prompts(q) && Admissible(cfg, s, budget, p) && s' == Mark(s.(pending := q), p);
      hide Admissible, Without;
      ReorderedPlaced(w, q);
      MarkPlaced(w.(sched := s.(pending := q)), p);
      UnknownAdded(s.active, p);
    }
  }

  /** In every run the window counts the prompts admitted since the last release or refresh. */
  lemma {:induction false} WindowCounts(cfg: Config, states: seq<World>, events: seq<Event>, n: nat)
    requires Run(cfg, states, events) && Initial(states[0]) && n <= |events|
    ensures states[n].sched.admittedInWindow == AdmittedSince(states, events, n)
  {
    hide *;
    if n == 0 {
      NothingAdmitted(cfg, states, events);
    } else {
      RunStep(cfg, states, events, n - 1);
      WindowCounts(cfg, states, events, n - 1);
      ReachableInv(cfg, states, events, n - 1);
      WindowStep(cfg, states[n - 1], events[n - 1], states[n]);
      SinceStep(states, events, n);
    }
  }

  lemma {:induction false} NothingAdmitted(cfg: Config, states: seq<World>, events: seq<Event>)
    requires Run(cfg, states, events) && Initial(states[0])
    ensures states[0].sched.admittedInWindow == AdmittedSince(states, events, 0)
  {
    hide Step;
  }

  lemma RunStep(cfg: Config, states: seq<World>, events: seq<Event>, i: nat)
    requires Run(cfg, states, events) && i < |events|
    ensures |states| == |events| + 1 && Step(cfg, states[i], events[i], states[i + 1])
  {
  }

  lemma {:induction false} SinceStep(states: seq<World>, events: seq<Event>, n: nat)
    requires 0 < n <= |events| && |states| == |events| + 1
    ensures AdmittedSince(states, events, n)
         == if events[n - 1].FinishPrompt? || events[n - 1].ResetWindow? then 0
            else AdmittedSince(states, events, n - 1) + |states[n].sched.active| - |states[n - 1].sched.active|
  {
  }

  /** In every run the reservation is, in each dimension, the sum over the active prompts. */
  lemma {:induction false} ReservedIsSum(cfg: Config, states: seq<World>, events: seq<Event>, n: nat, d: Dimension)
    requires Run(cfg, states, events) && Initial(states[0]) && n <= |events|
    ensures Amount(states[n].sched.reserved, d) == SumOf(states[n].sched.active, d)
  {
    hide Step, Placed, Capped, Total, SumOf, Initial;
    ReachableInv(cfg, states, events, n);
    TotalIsSum(states[n].sched.active, d);
  }

  /** While the startup cap stands there are never more active prompts than it allows. */
  lemma {:induction false} StartupCapHolds(cfg: Config, states: seq<World>, events: seq<Event>, n: nat, cap: int)
    requires Run(cfg, states, events) && Initial(states[0]) && n <= |events| && cap > 0
    requires forall i :: 0 <= i < |events| && events[i].Admit? ==> events[i].startupCap == cap
    ensures |states[n].sched.active| <= cap
  {
    if n > 0 {
      StartupCapHolds(cfg, states, events, n - 1, cap);
      ReachableInv(cfg, states, events, n - 1);
      assert Step(cfg, states[n - 1], events[n - 1], states[n]);
      hide Step, Inv;
      WindowStep(cfg, states[n - 1], events[n - 1], states[n]);
    }
  }
}
