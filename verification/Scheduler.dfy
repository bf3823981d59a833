/** The admission rules of swe-rl/online_env_docker_scheduler.py, on values. */
module SchedulerRules {
  import opened Sequences

  datatype ResourceVector = ResourceVector(memory: real, cpu: real, diskRead: real, diskWrite: real)
  {
    function Plus(o: ResourceVector): ResourceVector
    {
      ResourceVector(memory + o.memory, cpu + o.cpu, diskRead + o.diskRead, diskWrite + o.diskWrite)
    }

    /** Subtraction, clamped at zero in every dimension. */
    function Minus(o: ResourceVector): ResourceVector
    {
      ResourceVector(Clamp(memory - o.memory), Clamp(cpu - o.cpu), Clamp(diskRead - o.diskRead),
                     Clamp(diskWrite - o.diskWrite))
    }

    predicate Leq(o: ResourceVector)
    {
      memory <= o.memory && cpu <= o.cpu && diskRead <= o.diskRead && diskWrite <= o.diskWrite
    }

    predicate NonNegative() { ZERO.Leq(this) }
  }

  const ZERO := ResourceVector(0.0, 0.0, 0.0, 0.0)

  function Clamp(x: real): (r: real)
    ensures r >= 0.0 && r >= x && (r == x || r == 0.0)
  {
    if x < 0.0 then 0.0 else x
  }

  function Max(x: real, y: real): real { if x >= y then x else y }

  datatype Config = Config(
    activeCap: int, unknownCap: int, windowCap: int,
    requeueThreshold: int, requeueOffset: int,
    discount: real, realtimeMemory: bool, realtimeCpu: bool, realtimeDisk: bool,
    preserveOrder: bool)

  datatype Prompt = Prompt(id: nat, dataKey: string, predicted: ResourceVector, hasHistory: bool, createdAt: real)

  /** A waiting prompt and how often it blocked the head of the line. */
  datatype Pending = Pending(prompt: Prompt, blocked: nat)

  datatype State = State(pending: seq<Pending>, active: map<nat, Prompt>, reserved: ResourceVector,
                         admittedInWindow: nat)

  // ----- Predictions -----

  datatype Profile = Profile(samples: int, peakMemory: real, cpu: real, diskRead: real, diskWrite: real)

  datatype Defaults = Defaults(memory: real, cpu: real, diskRead: real, diskWrite: real, memoryMultiplier: real,
                               cpuMultiplier: real, minProfileMemory: real, peakScale: real, minSamples: int)

  function Scaled(x: real, factor: real): real { x * factor }

  /** Reservations of real prompts: memory and CPU are positive and disk rates are not negative. */
  predicate Reservable(v: ResourceVector) { v.NonNegative() && v.memory > 0.0 && v.cpu > 0.0 }

  function Predict(d: Defaults, profile: Option<Profile>): (r: (ResourceVector, bool))
    ensures d.diskRead >= 0.0 && d.diskWrite >= 0.0 ==> Reservable(r.0)
    ensures r.1 ==> profile.Some? && profile.value.samples >= d.minSamples && profile.value.samples > 0
  {
    var memMul, cpuMul := Max(1.0, d.memoryMultiplier), Max(1.0, d.cpuMultiplier);
    if profile.None? || profile.value.samples <= 0 then
      (ResourceVector(Max(1.0, Scaled(d.memory, memMul)), Max(0.1, Scaled(d.cpu, cpuMul)), d.diskRead, d.diskWrite),
       false)
    else
      var p := profile.value;
      var scale := if d.peakScale > 1.0 then 1.0 else Clamp(d.peakScale);
      var v := ResourceVector(Max(Max(1.0, Clamp(d.minProfileMemory)), Scaled(p.peakMemory, scale)),
                              Max(0.1, p.cpu), Max(1.0, p.diskRead), Max(1.0, p.diskWrite));
      if p.samples < (if d.minSamples < 0 then 0 else d.minSamples) then
        (ResourceVector(Max(v.memory, Scaled(d.memory, memMul)), Max(v.cpu, Scaled(d.cpu, cpuMul)),
                        Max(v.diskRead, d.diskRead), Max(v.diskWrite, d.diskWrite)), false)
      else (v, true)
  }

  predicate Sampled(profile: Option<Profile>) { profile.Some? && profile.value.samples > 0 }

  /** What a workload without history is assumed to need. */
  function ColdStart(d: Defaults): ResourceVector
  {
    ResourceVector(Scaled(d.memory, Max(1.0, d.memoryMultiplier)), Scaled(d.cpu, Max(1.0, d.cpuMultiplier)),
                   d.diskRead, d.diskWrite)
  }

  /** What the profile has observed, with the scale on its memory peak kept between 0 and 1. */
  function Observed(d: Defaults, p: Profile): ResourceVector
  {
    var scale := if d.peakScale < 0.0 then 0.0 else if d.peakScale > 1.0 then 1.0 else d.peakScale;
    ResourceVector(Scaled(p.peakMemory, scale), p.cpu, p.diskRead, p.diskWrite)
  }

  /** The least amounts that are ever reserved. */
  function Floor(d: Defaults, sampled: bool): ResourceVector
  {
    if sampled then ResourceVector(Max(1.0, d.minProfileMemory), 0.1, 1.0, 1.0)
    else ResourceVector(1.0, 0.1, d.diskRead, d.diskWrite)
  }

  /** A reservation that is never too small: above the floor, above what was observed, and without enough samples above
      the cold start as well. */
  predicate Suffices(d: Defaults, profile: Option<Profile>, history: bool, v: ResourceVector)
  {
    && Floor(d, Sampled(profile)).Leq(v)
    && (Sampled(profile) ==> Observed(d, profile.value).Leq(v))
    && (!history ==> ColdStart(d).Leq(v))
  }

  /** The prediction is the least reservation that suffices, and it counts as history exactly with enough samples. */
  lemma PredictionIsLeast(d: Defaults, profile: Option<Profile>, v: ResourceVector)
    ensures Predict(d, profile).1 <==> Sampled(profile) && profile.value.samples >= d.minSamples
    ensures var (r, history) := Predict(d, profile);
            Suffices(d, profile, history, r) && (Suffices(d, profile, history, v) ==> r.Leq(v))
  {
    hide Scaled;
  }

  // ----- Admission tests -----

  /** One dimension of the active reservations as it counts against the budget: discounted where the budget follows
      live server data. */
  function Counted(cfg: Config, realtime: bool, x: real): real
  {
    var d := Clamp(cfg.discount);
    if !realtime || d == 1.0 then x else Clamp(x * d)
  }

  function ForBudget(cfg: Config, active: ResourceVector): ResourceVector
  {
    ResourceVector(Counted(cfg, cfg.realtimeMemory, active.memory), Counted(cfg, cfg.realtimeCpu, active.cpu),
                   Counted(cfg, cfg.realtimeDisk, active.diskRead), Counted(cfg, cfg.realtimeDisk, active.diskWrite))
  }

  predicate Fits(cfg: Config, reserved: ResourceVector, request: ResourceVector, budget: ResourceVector)
  {
    ForBudget(cfg, reserved).Plus(request).Leq(budget)
  }

  predicate Oversized(request: ResourceVector, budget: ResourceVector)
  {
    request.memory > budget.memory || request.cpu > budget.cpu
    || request.diskRead > budget.diskRead || request.diskWrite > budget.diskWrite
  }

  /** The escape hatch: nothing counts against the budget and the request can never fit. */
  predicate Forced(cfg: Config, reserved: ResourceVector, request: ResourceVector, budget: ResourceVector)
  {
    ForBudget(cfg, reserved) == ZERO && Oversized(request, budget)
  }

  function Unknown(active: map<nat, Prompt>): set<nat>
  {
    set k | k in active && !active[k].hasHistory
  }

  predicate Eligible(cfg: Config, s: State, p: Prompt)
  {
    p.hasHistory || cfg.unknownCap <= 0 || |Unknown(s.active)| < cfg.unknownCap
  }

  predicate Admissible(cfg: Config, s: State, budget: ResourceVector, p: Prompt)
  {
    Eligible(cfg, s, p) && (Fits(cfg, s.reserved, p.predicted, budget) || Forced(cfg, s.reserved, p.predicted, budget))
  }

  /** A cap is reached: the window's, the active prompts', or the startup one when positive. */
  predicate Closed(cfg: Config, s: State, startupCap: int)
  {
    || (cfg.windowCap > 0 && s.admittedInWindow >= cfg.windowCap)
    || (cfg.activeCap > 0 && |s.active| >= cfg.activeCap)
    || (startupCap > 0 && |s.active| >= startupCap)
  }

  // ----- Effects -----

  function Without(pending: seq<Pending>, id: nat): (r: seq<Pending>)
    ensures forall q :: q in r <==> q in pending && q.prompt.id != id
  {
    if pending == [] then []
    else if pending[0].prompt.id == id then Without(pending[1..], id)
    else [pending[0]] + Without(pending[1..], id)
  }

  /** Among prompts with different ids, taking one out leaves the others in their order. */
  lemma {:induction false} WithoutExact(pending: seq<Pending>, k: nat)
    requires k < |pending|
    requires forall i, j :: 0 <= i < j < |pending| ==> pending[i].prompt.id != pending[j].prompt.id
    ensures Without(pending, pending[k].prompt.id) == pending[..k] + pending[k + 1..]
  {
    var id, rest := pending[k].prompt.id, pending[1..];
    if k == 0 {
      WithoutNone(rest, id);
    } else {
      WithoutExact(rest, k - 1);
      assert rest[k - 1] == pending[k] && [pending[0]] + rest[..k - 1] == pending[..k] && rest[k..] == pending[k + 1..];
    }
  }

  lemma {:induction false} WithoutNone(pending: seq<Pending>, id: nat)
    requires forall i :: 0 <= i < |pending| ==> pending[i].prompt.id != id
    ensures Without(pending, id) == pending
  {
    if pending != [] {
      WithoutNone(pending[1..], id);
    }
  }

  function Mark(s: State, p: Prompt): State
  {
    State(Without(s.pending, p.id), s.active[p.id := p], s.reserved.Plus(p.predicted), s.admittedInWindow + 1)
  }

  function Finish(s: State, id: nat): State
  {
    if id !in s.active then s
    else State(s.pending, s.active - {id}, s.reserved.Minus(s.active[id].predicted), 0)
  }

  // ----- Reorder mode -----

  predicate Candidate(cfg: Config, s: State, budget: ResourceVector, i: nat)
    requires i < |s.pending|
  {
    var p := s.pending[i].prompt;
    Eligible(cfg, s, p) && Fits(cfg, s.reserved, p.predicted, budget)
  }

  predicate Waiting(cfg: Config, s: State, budget: ResourceVector, i: nat)
    requires i < |s.pending|
  {
    var p := s.pending[i].prompt;
    Eligible(cfg, s, p) && !Fits(cfg, s.reserved, p.predicted, budget) && Forced(cfg, s.reserved, p.predicted, budget)
  }

  /** The first fitting prompt of greatest score; if none fits, the oldest forced one; otherwise none. */
  ghost predicate ReorderChoice(cfg: Config, s: State, budget: ResourceVector, score: Prompt -> real, r: Option<nat>)
  {
    match r
    case None =>
      forall i :: 0 <= i < |s.pending| ==> !Candidate(cfg, s, budget, i) && !Waiting(cfg, s, budget, i)
    case Some(i) =>
      && i < |s.pending|
      && if Candidate(cfg, s, budget, i) then
           forall j :: 0 <= j < |s.pending| && Candidate(cfg, s, budget, j) ==>
             score(s.pending[j].prompt) < score(s.pending[i].prompt)
             || (score(s.pending[j].prompt) == score(s.pending[i].prompt) && i <= j)
         else
           && Waiting(cfg, s, budget, i)
           && (forall j :: 0 <= j < |s.pending| ==> !Candidate(cfg, s, budget, j))
           && (forall j :: 0 <= j < |s.pending| && Waiting(cfg, s, budget, j) ==>
                s.pending[i].prompt.createdAt < s.pending[j].prompt.createdAt
                || (s.pending[i].prompt.createdAt == s.pending[j].prompt.createdAt && i <= j))
  }

  // ----- Head-of-line mode -----

  /** A head that ends the loop: it is admitted, or an unknown workload that must wait. */
  predicate Stops(cfg: Config, s: State, budget: ResourceVector, p: Prompt)
  {
    !Eligible(cfg, s, p) || Fits(cfg, s.reserved, p.predicted, budget) || Forced(cfg, s.reserved, p.predicted, budget)
  }

  /** Where a deferred head is put back among the others. */
  function InsertAt(cfg: Config, n: nat): (i: nat)
    requires n > 1
    ensures 1 <= i <= n - 1
  {
    var offset := if cfg.requeueOffset < 1 then 1 else cfg.requeueOffset;
    if offset < n - 1 then offset else n - 1
  }

  function Requeue(pending: seq<Pending>, at: nat): (r: seq<Pending>)
    requires 1 <= at < |pending|
    ensures |r| == |pending|
  {
    pending[1..at + 1] + [Pending(pending[0].prompt, 0)] + pending[at + 1..]
  }

  datatype HeadResult = Admit(pending: seq<Pending>) | Wait(pending: seq<Pending>)

  predicate Defers(cfg: Config, s: State, budget: ResourceVector)
  {
    && |s.pending| > 1
    && !Stops(cfg, s, budget, s.pending[0].prompt)
    && cfg.requeueThreshold > 0 && s.pending[0].blocked + 1 >= cfg.requeueThreshold
  }

  function Deferred(cfg: Config, s: State): State
    requires |s.pending| > 1
  {
    s.(pending := Requeue(s.pending, InsertAt(cfg, |s.pending|)))
  }

  /** The heads that a requeue threshold of 1 ever looks at. */
  function Window(cfg: Config, s: State): (w: nat)
    ensures w <= |s.pending|
  {
    if |s.pending| <= 1 then |s.pending| else InsertAt(cfg, |s.pending|) + 1
  }

  /** When the head-of-line loop ends. */
  predicate Halts(cfg: Config, s: State, budget: ResourceVector)
  {
    || cfg.requeueThreshold != 1
    || |s.pending| <= 1
    || exists i :: 0 <= i < Window(cfg, s) && Stops(cfg, s, budget, s.pending[i].prompt)
  }

  /** Pending prompts that the next visit to the head would defer. */
  function Hot(cfg: Config, pending: seq<Pending>): nat
  {
    if pending == [] then 0
    else (if pending[0].blocked + 1 >= cfg.requeueThreshold then 1 else 0) + Hot(cfg, pending[1..])
  }

  function FirstStop(cfg: Config, s: State, budget: ResourceVector, pending: seq<Pending>): (i: nat)
    ensures i <= |pending|
    ensures i < |pending| ==> Stops(cfg, s, budget, pending[i].prompt)
    ensures forall k :: 0 <= k < i ==> !Stops(cfg, s, budget, pending[k].prompt)
  {
    if pending == [] || Stops(cfg, s, budget, pending[0].prompt) then 0
    else 1 + FirstStop(cfg, s, budget, pending[1..])
  }

  /** What bounds the number of deferrals still to come. */
  function Effort(cfg: Config, s: State, budget: ResourceVector): nat
  {
    if cfg.requeueThreshold == 1 then FirstStop(cfg, s, budget, s.pending) else Hot(cfg, s.pending)
  }

  lemma {:induction false} HotConcat(cfg: Config, a: seq<Pending>, b: seq<Pending>)
    ensures Hot(cfg, a + b) == Hot(cfg, a) + Hot(cfg, b)
  {
    if a == [] {
      assert a + b == b;
    } else {
      HotConcat(cfg, a[1..], b);
      assert (a + b)[1..] == a[1..] + b;
    }
  }

  lemma {:induction false} RequeueCools(cfg: Config, pending: seq<Pending>, at: nat)
    requires 1 <= at < |pending| && cfg.requeueThreshold >= 2 && pending[0].blocked + 1 >= cfg.requeueThreshold
    ensures Hot(cfg, Requeue(pending, at)) == Hot(cfg, pending) - 1
  {
    var a, mid, b := pending[1..at + 1], [Pending(pending[0].prompt, 0)], pending[at + 1..];
    HotConcat(cfg, a + mid, b);
    HotConcat(cfg, a, mid);
    HotConcat(cfg, a, b);
    assert mid[1..] == [];
    assert a + b == pending[1..];
  }

  /** A deferral brings the first stopping prompt of the window one place nearer, and keeps it in the window. */
  lemma {:induction false} RequeueAdvances(cfg: Config, s: State, budget: ResourceVector)
    requires cfg.requeueThreshold == 1 && Halts(cfg, s, budget) && Defers(cfg, s, budget)
    ensures Halts(cfg, Deferred(cfg, s), budget)
    ensures FirstStop(cfg, s, budget, Deferred(cfg, s).pending) < FirstStop(cfg, s, budget, s.pending)
  {
    var i :| 0 <= i < Window(cfg, s) && Stops(cfg, s, budget, s.pending[i].prompt);
    var next := Deferred(cfg, s).pending;
    var f := FirstStop(cfg, s, budget, s.pending);
    assert 0 < f <= i;
    assert next[f - 1] == s.pending[f];
    assert Eligible(cfg, Deferred(cfg, s), s.pending[f].prompt) == Eligible(cfg, s, s.pending[f].prompt);
    assert Stops(cfg, Deferred(cfg, s), budget, next[f - 1].prompt);
    assert Stops(cfg, s, budget, next[f - 1].prompt);
  }

  lemma DeferralProgress(cfg: Config, s: State, budget: ResourceVector)
    requires Halts(cfg, s, budget) && Defers(cfg, s, budget)
    ensures Halts(cfg, Deferred(cfg, s), budget)
    ensures Effort(cfg, Deferred(cfg, s), budget) < Effort(cfg, s, budget)
  {
    if cfg.requeueThreshold == 1 {
      RequeueAdvances(cfg, s, budget);
      SameStops(cfg, s, Deferred(cfg, s), budget, Deferred(cfg, s).pending);
    } else {
      RequeueCools(cfg, s.pending, InsertAt(cfg, |s.pending|));
    }
  }

  lemma {:induction false} SameStops(cfg: Config, s: State, s': State, budget: ResourceVector, pending: seq<Pending>)
    requires s'.active == s.active && s'.reserved == s.reserved
    ensures FirstStop(cfg, s, budget, pending) == FirstStop(cfg, s', budget, pending)
  {
    if pending != [] {
      SameStops(cfg, s, s', budget, pending[1..]);
    }
  }

  /** The head-of-line loop. */
  function HeadOfLine(cfg: Config, s: State, budget: ResourceVector): (r: HeadResult)
    requires s.pending != [] && Halts(cfg, s, budget)
    ensures |r.pending| == |s.pending|
    decreases Effort(cfg, s, budget)
  {
    var head := s.pending[0];
    if !Eligible(cfg, s, head.prompt) then Wait(s.pending)
    else if Stops(cfg, s, budget, head.prompt) then Admit(s.pending[0 := Pending(head.prompt, 0)])
    else if Defers(cfg, s, budget) then
      DeferralProgress(cfg, s, budget);
      HeadOfLine(cfg, Deferred(cfg, s), budget)
    else Wait(s.pending[0 := Pending(head.prompt, head.blocked + 1)])
  }

  function Prompts(pending: seq<Pending>): (r: seq<Prompt>)
    ensures |r| == |pending|
  {
    seq(|pending|, i requires 0 <= i < |pending| => pending[i].prompt)
  }

  lemma RequeuePermutes(pending: seq<Pending>, at: nat)
    requires 1 <= at < |pending|
    ensures multiset(Prompts(Requeue(pending, at))) == multiset(Prompts(pending))
  {
    var ps := Prompts(pending);
    assert Prompts(Requeue(pending, at)) == ps[1..at + 1] + [ps[0]] + ps[at + 1..];
    assert ps == [ps[0]] + ps[1..at + 1] + ps[at + 1..];
  }

  /** Head-of-line admission only moves heads back: the prompts stay the same as a multiset, and an admitted one is at
      the head and admissible. */
  lemma {:induction false} HeadOfLineSound(cfg: Config, s: State, budget: ResourceVector)
    requires s.pending != [] && Halts(cfg, s, budget)
    ensures var r := HeadOfLine(cfg, s, budget);
            && multiset(Prompts(r.pending)) == multiset(Prompts(s.pending))
            && (r.Admit? ==> Admissible(cfg, s, budget, r.pending[0].prompt))
    decreases Effort(cfg, s, budget)
  {
    var head := s.pending[0];
    if Defers(cfg, s, budget) {
      DeferralProgress(cfg, s, budget);
      HeadOfLineSound(cfg, Deferred(cfg, s), budget);
      RequeuePermutes(s.pending, InsertAt(cfg, |s.pending|));
    } else {
      assert Prompts(s.pending[0 := Pending(head.prompt, 0)]) == Prompts(s.pending);
      assert Prompts(s.pending[0 := Pending(head.prompt, head.blocked + 1)]) == Prompts(s.pending);
    }
  }

  // ----- Exactly when the head-of-line loop ends -----

  /** The state after n deferrals, if the loop is still running then. */
  function Loop(cfg: Config, s: State, budget: ResourceVector, n: nat): Option<State>
  {
    if n == 0 then Some(s)
    else
      match Loop(cfg, s, budget, n - 1)
      case None => None
      case Some(t) => if Defers(cfg, t, budget) then Some(Deferred(cfg, t)) else None
  }

  lemma {:induction false} LoopShift(cfg: Config, s: State, budget: ResourceVector, n: nat)
    requires Defers(cfg, s, budget)
    ensures Loop(cfg, s, budget, n + 1) == Loop(cfg, Deferred(cfg, s), budget, n)
  {
    if n > 0 {
      LoopShift(cfg, s, budget, n - 1);
    }
  }

  lemma {:induction false} LoopEnds(cfg: Config, s: State, budget: ResourceVector)
    requires Halts(cfg, s, budget)
    ensures Loop(cfg, s, budget, Effort(cfg, s, budget) + 1) == None
    decreases Effort(cfg, s, budget)
  {
    if Defers(cfg, s, budget) {
      DeferralProgress(cfg, s, budget);
      var t := Deferred(cfg, s);
      hide Loop, Effort, Halts, Defers, Deferred;
      LoopEnds(cfg, t, budget);
      LoopShift(cfg, s, budget, Effort(cfg, t, budget) + 1);
      LoopStaysDone(cfg, s, budget, Effort(cfg, t, budget) + 2, Effort(cfg, s, budget) + 1);
    } else {
      assert Loop(cfg, s, budget, 1) == None;
      hide Loop, Effort, Halts, Defers;
      LoopStaysDone(cfg, s, budget, 1, Effort(cfg, s, budget) + 1);
    }
  }

  lemma {:induction false} LoopStaysDone(cfg: Config, s: State, budget: ResourceVector, m: nat, n: nat)
    requires m <= n && Loop(cfg, s, budget, m) == None
    ensures Loop(cfg, s, budget, n) == None
  {
    if m < n {
      LoopStaysDone(cfg, s, budget, m, n - 1);
    }
  }

  /** With threshold 1 and no stopping prompt in its window the loop only rotates the window. */
  lemma {:induction false} LoopRotates(cfg: Config, s: State, budget: ResourceVector, n: nat)
    requires !Halts(cfg, s, budget)
    ensures Loop(cfg, s, budget, n).Some?
    ensures var t := Loop(cfg, s, budget, n).value;
            t.active == s.active && t.reserved == s.reserved && !Halts(cfg, t, budget)
  {
    if n > 0 {
      LoopRotates(cfg, s, budget, n - 1);
      var t := Loop(cfg, s, budget, n - 1).value;
      var w := Window(cfg, t);
      assert !Stops(cfg, t, budget, t.pending[0].prompt);
      var u := Deferred(cfg, t);
      forall i | 0 <= i < w ensures !Stops(cfg, u, budget, u.pending[i].prompt) {
        var k := if i == w - 1 then 0 else i + 1;
        assert u.pending[i].prompt == t.pending[k].prompt;
        assert !Stops(cfg, t, budget, t.pending[k].prompt);
      }
    }
  }

  /** The head-of-line loop ends exactly when the requeue threshold is not 1, at most one prompt waits, or one of the
      heads that threshold 1 rotates through can be admitted or must wait as an unknown workload. */
  lemma {:induction false} HeadOfLineEndsIff(cfg: Config, s: State, budget: ResourceVector)
    ensures (exists n: nat :: Loop(cfg, s, budget, n) == None) <==> Halts(cfg, s, budget)
  {
    if Halts(cfg, s, budget) {
      LoopEnds(cfg, s, budget);
    } else {
      forall n: nat ensures Loop(cfg, s, budget, n).Some? {
        LoopRotates(cfg, s, budget, n);
      }
    }
  }

  // ----- One admission attempt, either mode -----

  ghost predicate AdmitNext(cfg: Config, s: State, budget: ResourceVector, startupCap: int, s': State,
                            r: Option<Prompt>)
  {
    if s.pending == [] || Closed(cfg, s, startupCap) then s' == s && r == None
    else if cfg.preserveOrder then
      Halts(cfg, s, budget) &&
      match HeadOfLine(cfg, s, budget)
      case Wait(q) => r == None && s' == s.(pending := q)
      case Admit(q) => r == Some(q[0].prompt) && s' == Mark(s.(pending := q), q[0].prompt)
    else
      exists score: Prompt -> real, choice :: ReorderChoice(cfg, s, budget, score, choice) &&
        match choice
        case None => r == None && s' == s
        case Some(i) => r == Some(s.pending[i].prompt) && s' == Mark(s, s.pending[i].prompt)
  }
}
