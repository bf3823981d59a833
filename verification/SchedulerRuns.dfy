/** Safety and progress of the admission scheduler over all runs. */
module SchedulerRuns {
  import opened Sequences
  import opened SchedulerRules

  // ----- Sum of reservations -----

  ghost function Pick(m: map<nat, Prompt>): (k: nat)
    requires m != map[]
    ensures k in m
  {
    var k :| k in m;
    k
  }

  ghost function Total(m: map<nat, Prompt>): ResourceVector
    decreases |m|
  {
    if m == map[] then ZERO else m[Pick(m)].predicted.Plus(Total(m - {Pick(m)}))
  }

  /** The sum does not depend on the order of the prompts. */
  lemma {:induction false} TotalRemove(m: map<nat, Prompt>, k: nat)
    requires k in m
    ensures Total(m) == m[k].predicted.Plus(Total(m - {k}))
    decreases |m|
  {
    var j := Pick(m);
    if j != k {
      TotalRemove(m - {j}, k);
      TotalRemove(m - {k}, j);
      assert m - {j} - {k} == m - {k} - {j};
    }
  }

  lemma TotalAdd(m: map<nat, Prompt>, p: Prompt)
    requires p.id !in m
    ensures Total(m[p.id := p]) == Total(m).Plus(p.predicted)
  {
    TotalRemove(m[p.id := p], p.id);
    assert m[p.id := p] - {p.id} == m;
  }

  lemma {:induction false} TotalNonNegative(m: map<nat, Prompt>)
    requires forall k :: k in m ==> Reservable(m[k].predicted)
    ensures Total(m).NonNegative() && (m != map[] ==> Total(m).memory > 0.0)
    decreases |m|
  {
    if m != map[] {
      TotalNonNegative(m - {Pick(m)});
    }
  }

  // ----- Runs -----

  /** The scheduler together with the callers: every prompt ever enqueued, the calls of `admit_prompt` that have not
      returned, the tickets handed out, and the finished prompts. */
  datatype World = World(sched: State, enqueued: set<nat>, waiting: set<nat>, holding: set<nat>, finished: set<nat>)

  datatype Event =
    | Enqueue(p: Prompt)
    | Admit(budget: ResourceVector, startupCap: int)
    | Ticket(id: nat)
    | FinishPrompt(id: nat)
    | Repredict(pending: seq<Pending>)
    | ResetWindow

  predicate IsPending(s: State, id: nat) { exists i :: 0 <= i < |s.pending| && s.pending[i].prompt.id == id }

  /** Live profile updates rewrite reservations of waiting prompts in place, never their identity or place in line. */
  predicate Repredicted(before: seq<Pending>, after: seq<Pending>)
  {
    && |after| == |before|
    && forall i :: 0 <= i < |after| ==>
         after[i].prompt.id == before[i].prompt.id && Reservable(after[i].prompt.predicted)
  }

  ghost predicate Step(cfg: Config, w: World, e: Event, w': World)
  {
    match e
    case Enqueue(p) =>
      && p.id !in w.enqueued && Reservable(p.predicted)
      && w' == w.(sched := w.sched.(pending := w.sched.pending + [Pending(p, 0)]),
                  enqueued := w.enqueued + {p.id}, waiting := w.waiting + {p.id})
    case Admit(budget, startupCap) =>
      exists r :: AdmitNext(cfg, w.sched, budget, startupCap, w'.sched, r) && w' == w.(sched := w'.sched)
    case Ticket(id) =>
      && id in w.waiting && !IsPending(w.sched, id)
      && w' == w.(waiting := w.waiting - {id}, holding := w.holding + {id})
    case FinishPrompt(id) =>
      && id in w.holding
      && w' == w.(sched := Finish(w.sched, id), holding := w.holding - {id}, finished := w.finished + {id})
    case Repredict(pending) =>
      Repredicted(w.sched.pending, pending) && w' == w.(sched := w.sched.(pending := pending))
    case ResetWindow => w' == w.(sched := w.sched.(admittedInWindow := 0))
  }

  ghost predicate DistinctIds(pending: seq<Pending>)
  {
    forall i, j :: 0 <= i < j < |pending| ==> pending[i].prompt.id != pending[j].prompt.id
  }

  /** Every enqueued prompt is pending, active or finished, and in one of these only; a caller that has not finished
      its prompt finds it pending or active. */
  ghost predicate Placed(w: World)
  {
    var s := w.sched;
    && DistinctIds(s.pending)
    && (forall id :: id in w.enqueued <==> IsPending(s, id) || id in s.active || id in w.finished)
    && (forall id :: id in s.active ==> !IsPending(s, id) && id !in w.finished)
    && (forall id :: id in w.finished ==> !IsPending(s, id))
    && (forall id :: id in w.waiting ==> IsPending(s, id) || id in s.active)
    && (forall id :: id in w.holding ==> id in s.active && id !in w.waiting)
    && (forall id :: id in s.active ==> s.active[id].id == id)
  }

  /** The cached aggregate is the sum of the active reservations. */
  ghost predicate Accounted(s: State)
  {
    && s.reserved == Total(s.active)
    && (forall id :: id in s.active ==> Reservable(s.active[id].predicted))
    && (forall i :: 0 <= i < |s.pending| ==> Reservable(s.pending[i].prompt.predicted))
  }

  ghost predicate Capped(cfg: Config, s: State)
  {
    && s.admittedInWindow <= |s.active|
    && (cfg.windowCap > 0 ==> s.admittedInWindow <= cfg.windowCap)
    && (cfg.activeCap > 0 ==> |s.active| <= cfg.activeCap)
    && (cfg.unknownCap > 0 ==> |Unknown(s.active)| <= cfg.unknownCap)
  }

  /** What holds in every reachable state. */
  ghost predicate Inv(cfg: Config, w: World)
  {
    Placed(w) && Accounted(w.sched) && Capped(cfg, w.sched)
  }

  predicate Initial(w: World)
  {
    w == World(State([], map[], ZERO, 0), {}, {}, {}, {})
  }

  /** What one admission attempt does in either mode: it moves one admissible prompt from pending to active, keeping the
      others, or changes nothing but the order and counters of the pending prompts. */
  ghost predicate AdmitEffect(cfg: Config, s: State, budget: ResourceVector, s': State, r: Option<Prompt>)
  {
    exists q: seq<Pending> ::
      && multiset(Prompts(q)) == multiset(Prompts(s.pending))
      && match r
         case None => s' == s.(pending := q)
         case Some(p) => p in Prompts(q) && Admissible(cfg, s, budget, p) && s' == Mark(s.(pending := q), p)
  }

  lemma AdmitSound(cfg: Config, s: State, budget: ResourceVector, startupCap: int, s': State, r: Option<Prompt>)
    requires AdmitNext(cfg, s, budget, startupCap, s', r)
    ensures AdmitEffect(cfg, s, budget, s', r)
    ensures r.Some? ==> !Closed(cfg, s, startupCap)
  {
    if s.pending == [] || Closed(cfg, s, startupCap) {
      assert s.(pending := s.pending) == s;
    } else if cfg.preserveOrder {
      HeadOfLineSound(cfg, s, budget);
      var q := HeadOfLine(cfg, s, budget).pending;
      assert q[0].prompt == Prompts(q)[0];
    } else {
      assert s.(pending := s.pending) == s;
      var score: Prompt -> real, choice :| ReorderChoice(cfg, s, budget, score, choice) &&
        match choice
        case None => r == None && s' == s
        case Some(i) => r == Some(s.pending[i].prompt) && s' == Mark(s, s.pending[i].prompt);
      if choice.Some? {
        assert Prompts(s.pending)[choice.value] == s.pending[choice.value].prompt;
      }
    }
  }

  // ----- Every step keeps the invariant -----

  lemma CountedTwice<T>(xs: seq<T>, i: nat, j: nat)
    requires i < j < |xs| && xs[i] == xs[j]
    ensures multiset(xs)[xs[i]] >= 2
  {
    assert xs == xs[..j] + [xs[j]] + xs[j + 1..];
    assert xs[..j][i] == xs[i] && xs[i] in multiset(xs[..j]);
  }

  lemma TwoPlaces<T>(xs: seq<T>, x: T) returns (i: nat, j: nat)
    requires multiset(xs)[x] >= 2
    ensures i < j < |xs| && xs[i] == x && xs[j] == x
  {
    assert x in multiset(xs);
    j :| 0 <= j < |xs| && xs[j] == x;
    var rest := RemoveAt(xs, j);
    assert x in multiset(rest);
    var k: nat :| k < |rest| && rest[k] == x;
    if k < j {
      i := k;
    } else {
      i, j := j, k + 1;
    }
  }

  lemma SamePrompt(a: seq<Pending>, b: seq<Pending>, i: nat) returns (k: nat)
    requires multiset(Prompts(a)) == multiset(Prompts(b)) && i < |a|
    ensures k < |b| && b[k].prompt == a[i].prompt
  {
    assert Prompts(a)[i] in multiset(Prompts(a));
    assert Prompts(a)[i] in multiset(Prompts(b));
    k :| 0 <= k < |Prompts(b)| && Prompts(b)[k] == Prompts(a)[i];
  }

  /** Reordering the line keeps its prompts pairwise distinct and changes no membership. */
  lemma Permuted(a: seq<Pending>, b: seq<Pending>)
    requires multiset(Prompts(a)) == multiset(Prompts(b)) && DistinctIds(a)
    ensures DistinctIds(b)
    ensures forall i :: 0 <= i < |b| ==> exists k :: 0 <= k < |a| && a[k].prompt == b[i].prompt
    ensures forall i :: 0 <= i < |a| ==> exists k :: 0 <= k < |b| && b[k].prompt == a[i].prompt
  {
    forall i | 0 <= i < |b| ensures exists k :: 0 <= k < |a| && a[k].prompt == b[i].prompt {
      var k := SamePrompt(b, a, i);
    }
    forall i | 0 <= i < |a| ensures exists k :: 0 <= k < |b| && b[k].prompt == a[i].prompt {
      var k := SamePrompt(a, b, i);
    }
    forall i, j | 0 <= i < j < |b| ensures b[i].prompt.id != b[j].prompt.id {
      if b[i].prompt.id == b[j].prompt.id {
        CountedTwice(Prompts(b), i, j);
        var x, y := TwoPlaces(Prompts(a), Prompts(b)[i]);
        assert false;
      }
    }
  }

  lemma {:induction false} WithoutDistinct(pending: seq<Pending>, id: nat)
    requires DistinctIds(pending)
    ensures DistinctIds(Without(pending, id))
  {
    if pending != [] {
      var rest := pending[1..];
      assert forall k :: 0 <= k < |rest| ==> rest[k] == pending[k + 1];
      WithoutDistinct(rest, id);
      var r := Without(rest, id);
      OthersDiffer(pending, rest, r);
      hide DistinctIds;
      DistinctCons(pending[0], r);
    }
  }

  lemma OthersDiffer(pending: seq<Pending>, rest: seq<Pending>, r: seq<Pending>)
    requires DistinctIds(pending) && pending != [] && |rest| == |pending| - 1
    requires forall k :: 0 <= k < |rest| ==> rest[k] == pending[k + 1]
    requires forall q :: q in r ==> q in rest
    ensures forall i :: 0 <= i < |r| ==> r[i].prompt.id != pending[0].prompt.id
  {
    forall i | 0 <= i < |r| ensures r[i].prompt.id != pending[0].prompt.id {
      assert r[i] in rest;
      var k :| 0 <= k < |rest| && rest[k] == r[i];
      assert pending[k + 1] == r[i];
    }
  }

  lemma DistinctCons(q: Pending, r: seq<Pending>)
    requires DistinctIds(r) && forall i :: 0 <= i < |r| ==> r[i].prompt.id != q.prompt.id
    ensures DistinctIds([q] + r)
  {
  }

  lemma {:induction false} WithoutPending(s: State, id: nat, other: nat)
    ensures IsPending(s.(pending := Without(s.pending, id)), other) <==> other != id && IsPending(s, other)
  {
    var r := Without(s.pending, id);
    var t := s.(pending := r);
    if IsPending(t, other) {
      var i :| 0 <= i < |r| && r[i].prompt.id == other;
      assert r[i] in r;
      var k :| 0 <= k < |s.pending| && s.pending[k] == r[i];
      assert s.pending[k].prompt.id == other;
    }
    if other != id && IsPending(s, other) {
      var i :| 0 <= i < |s.pending| && s.pending[i].prompt.id == other;
      assert s.pending[i] in r;
      var k :| 0 <= k < |r| && r[k] == s.pending[i];
      assert t.pending[k].prompt.id == other;
    }
  }

  lemma ReorderedPlaced(w: World, q: seq<Pending>)
    requires Placed(w) && multiset(Prompts(q)) == multiset(Prompts(w.sched.pending))
    ensures Placed(w.(sched := w.sched.(pending := q)))
    ensures forall id :: IsPending(w.sched.(pending := q), id) <==> IsPending(w.sched, id)
  {
    Permuted(w.sched.pending, q);
    Permuted(q, w.sched.pending);
  }

  lemma MarkPlaced(w: World, p: Prompt)
    requires Placed(w) && p in Prompts(w.sched.pending)
    ensures p.id !in w.sched.active
    ensures Placed(w.(sched := Mark(w.sched, p)))
  {
    var s := w.sched;
    var s' := Mark(s, p);
    var i :| 0 <= i < |s.pending| && Prompts(s.pending)[i] == p;
    assert IsPending(s, p.id);
    WithoutDistinct(s.pending, p.id);
    forall id ensures IsPending(s', id) <==> id != p.id && IsPending(s, id) {
      WithoutPending(s, p.id, id);
    }
  }

  lemma MarkAccounted(s: State, p: Prompt)
    requires Accounted(s) && p in Prompts(s.pending) && p.id !in s.active
    ensures Accounted(Mark(s, p))
  {
    var s' := Mark(s, p);
    TotalAdd(s.active, p);
    var i :| 0 <= i < |s.pending| && Prompts(s.pending)[i] == p;
    forall k | 0 <= k < |s'.pending| ensures Reservable(s'.pending[k].prompt.predicted) {
      assert s'.pending[k] in s'.pending && s'.pending[k] in s.pending;
    }
  }

  lemma UnknownAdded(active: map<nat, Prompt>, p: Prompt)
    requires p.id !in active
    ensures |active[p.id := p]| == |active| + 1
    ensures |Unknown(active[p.id := p])| == |Unknown(active)| + (if p.hasHistory then 0 else 1)
  {
    var more := active[p.id := p];
    assert more.Keys == active.Keys + {p.id};
    UnknownOf(active, p);
    hide Unknown;
  }

  lemma UnknownOf(active: map<nat, Prompt>, p: Prompt)
    requires p.id !in active
    ensures p.id !in Unknown(active)
    ensures Unknown(active[p.id := p]) == if p.hasHistory then Unknown(active) else Unknown(active) + {p.id}
  {
  }

  lemma MarkCapped(cfg: Config, s: State, p: Prompt, startupCap: int)
    requires Capped(cfg, s) && !Closed(cfg, s, startupCap) && Eligible(cfg, s, p) && p.id !in s.active
    ensures Capped(cfg, Mark(s, p))
  {
    hide Without, Fits, Forced;
    UnknownAdded(s.active, p);
  }

  lemma ReorderKeeps(cfg: Config, w: World, q: seq<Pending>)
    requires Inv(cfg, w) && multiset(Prompts(q)) == multiset(Prompts(w.sched.pending))
    ensures Inv(cfg, w.(sched := w.sched.(pending := q)))
  {
    ReorderedPlaced(w, q);
    Permuted(w.sched.pending, q);
    hide Placed, Total, Unknown;
  }

  lemma MarkKeeps(cfg: Config, w: World, p: Prompt, startupCap: int)
    requires Inv(cfg, w) && p in Prompts(w.sched.pending)
    requires !Closed(cfg, w.sched, startupCap) && Eligible(cfg, w.sched, p)
    ensures Inv(cfg, w.(sched := Mark(w.sched, p)))
  {
    hide Placed, Accounted, Capped, Closed, Eligible;
    MarkPlaced(w, p);
    MarkAccounted(w.sched, p);
    MarkCapped(cfg, w.sched, p, startupCap);
  }

  lemma AdmitKeeps(cfg: Config, w: World, budget: ResourceVector, startupCap: int, w': World)
    requires Inv(cfg, w) && Step(cfg, w, Event.Admit(budget, startupCap), w')
    ensures Inv(cfg, w')
  {
    hide Inv;
    var s := w.sched;
    var r :| AdmitNext(cfg, s, budget, startupCap, w'.sched, r);
    AdmitSound(cfg, s, budget, startupCap, w'.sched, r);
    hide AdmitNext, Mark, Prompts, Fits, Forced, Unknown, Oversized;
    var q: seq<Pending> :| multiset(Prompts(q)) == multiset(Prompts(s.pending)) &&
      match r
      case None => w'.sched == s.(pending := q)
      case Some(p) => p in Prompts(q) && Admissible(cfg, s, budget, p) && w'.sched == Mark(s.(pending := q), p);
    ReorderKeeps(cfg, w, q);
    if r.Some? {
      MarkKeeps(cfg, w.(sched := s.(pending := q)), r.value, startupCap);
    }
  }

  lemma FinishAccounted(cfg: Config, s: State, id: nat)
    requires Accounted(s) && Capped(cfg, s) && id in s.active
    ensures Accounted(Finish(s, id)) && Capped(cfg, Finish(s, id))
    ensures Finish(s, id).reserved.Plus(s.active[id].predicted) == s.reserved
  {
    TotalRemove(s.active, id);
    TotalNonNegative(s.active - {id});
    var s' := Finish(s, id);
    assert s'.active.Keys == s.active.Keys - {id};
    var u := Unknown(s.active);
    assert Unknown(s'.active) == u - {id};
    assert u - {id} <= u;
    if id in u {
      assert |u - {id}| == |u| - 1;
    } else {
      assert u - {id} == u;
    }
  }

  lemma EnqueuePlaced(w: World, p: Prompt)
    requires Placed(w) && p.id !in w.enqueued
    ensures Placed(w.(sched := w.sched.(pending := w.sched.pending + [Pending(p, 0)]),
                      enqueued := w.enqueued + {p.id}, waiting := w.waiting + {p.id}))
  {
    var s := w.sched;
    var s' := s.(pending := s.pending + [Pending(p, 0)]);
    forall id ensures IsPending(s', id) <==> id == p.id || IsPending(s, id) {
      if i :| 0 <= i < |s.pending| && s.pending[i].prompt.id == id {
        assert s'.pending[i].prompt.id == id;
      }
      if id == p.id {
        assert s'.pending[|s.pending|].prompt.id == id;
      }
      if i :| 0 <= i < |s'.pending| && s'.pending[i].prompt.id == id {
        if i < |s.pending| {
          assert s.pending[i].prompt.id == id;
        }
      }
    }
    assert !IsPending(s, p.id);
    forall i, j | 0 <= i < j < |s'.pending| ensures s'.pending[i].prompt.id != s'.pending[j].prompt.id {
      assert s'.pending[i] == s.pending[i];
      if j == |s.pending| {
        assert s.pending[i].prompt.id != p.id;
      }
    }
  }

  lemma RepredictPlaced(w: World, pending: seq<Pending>)
    requires Placed(w) && Repredicted(w.sched.pending, pending)
    ensures Placed(w.(sched := w.sched.(pending := pending)))
  {
    var s, s' := w.sched, w.sched.(pending := pending);
    forall id ensures IsPending(s', id) <==> IsPending(s, id) {
      if i :| 0 <= i < |s.pending| && s.pending[i].prompt.id == id {
        assert s'.pending[i].prompt.id == id;
      }
      if i :| 0 <= i < |s'.pending| && s'.pending[i].prompt.id == id {
        assert s.pending[i].prompt.id == id;
      }
    }
  }

  lemma SamePlaces(w: World, s': State)
    requires Placed(w) && s'.pending == w.sched.pending && s'.active == w.sched.active
    ensures Placed(w.(sched := s'))
  {
    assert forall id :: IsPending(s', id) <==> IsPending(w.sched, id);
  }

  lemma FinishKeeps(cfg: Config, w: World, id: nat, w': World)
    requires Inv(cfg, w) && Step(cfg, w, FinishPrompt(id), w')
    ensures Inv(cfg, w')
  {
    FinishAccounted(cfg, w.sched, id);
    hide Total, Unknown;
    assert forall k :: IsPending(w'.sched, k) <==> IsPending(w.sched, k);
  }

  lemma TicketKeeps(cfg: Config, w: World, id: nat, w': World)
    requires Inv(cfg, w) && Step(cfg, w, Ticket(id), w')
    ensures Inv(cfg, w')
  {
    hide Total, Unknown, DistinctIds;
  }

  /** Conservation: every step of the scheduler and of its callers keeps the invariant. */
  lemma StepInv(cfg: Config, w: World, e: Event, w': World)
    requires Inv(cfg, w) && Step(cfg, w, e, w')
    ensures Inv(cfg, w')
  {
    hide Placed, Total, Unknown, AdmitNext, Finish;
    match e
    case Enqueue(p) => EnqueuePlaced(w, p);
    case Admit(budget, startupCap) => AdmitKeeps(cfg, w, budget, startupCap, w');
    case Ticket(id) => TicketKeeps(cfg, w, id, w');
    case FinishPrompt(id) => FinishKeeps(cfg, w, id, w');
    case Repredict(pending) => RepredictPlaced(w, pending);
    case ResetWindow => SamePlaces(w, w'.sched);
  }

  /** A run: states and the events between them. */
  ghost predicate Run(cfg: Config, states: seq<World>, events: seq<Event>)
  {
    && |states| == |events| + 1
    && forall i :: 0 <= i < |events| ==> Step(cfg, states[i], events[i], states[i + 1])
  }

  /** The invariant holds throughout every run from the empty scheduler. */
  lemma {:induction false} ReachableInv(cfg: Config, states: seq<World>, events: seq<Event>, n: nat)
    requires Run(cfg, states, events) && Initial(states[0]) && n <= |events|
    ensures Inv(cfg, states[n])
  {
    if n == 0 {
    } else {
      hide Inv, Step;
      ReachableInv(cfg, states, events, n - 1);
      StepInv(cfg, states[n - 1], events[n - 1], states[n]);
    }
  }

  // ----- Consequences -----

  /** In every run, finishing a prompt gives back exactly its reservation: the clamping subtraction never clamps, and
      what remains reserved is the sum over the other active prompts. */
  lemma {:induction false} ReleaseIsExact(cfg: Config, states: seq<World>, events: seq<Event>, n: nat)
    requires Run(cfg, states, events) && Initial(states[0]) && n < |events| && events[n].FinishPrompt?
    ensures var (s, s', id) := (states[n].sched, states[n + 1].sched, events[n].id);
            && id in s.active && s'.active == s.active - {id} && s'.pending == s.pending
            && s'.reserved.Plus(s.active[id].predicted) == s.reserved && s'.reserved == Total(s.active - {id})
  {
    ReachableInv(cfg, states, events, n);
    assert Step(cfg, states[n], events[n], states[n + 1]);
    hide Total, Capped, Run;
    assert events[n].id in states[n].sched.active;
    FinishAccounted(cfg, states[n].sched, events[n].id);
  }

  /** In every run, a caller that wakes up with its ticket finds its active record, and a ticket holder that finishes
      still finds it: the branches that repair a missing record are never taken. */
  lemma {:induction false} NeverRepaired(cfg: Config, states: seq<World>, events: seq<Event>, n: nat)
    requires Run(cfg, states, events) && Initial(states[0]) && n < |events|
    requires events[n].Ticket? || events[n].FinishPrompt?
    ensures events[n].id in states[n].sched.active && states[n].sched.active[events[n].id].id == events[n].id
  {
    ReachableInv(cfg, states, events, n);
    assert Step(cfg, states[n], events[n], states[n + 1]);
    hide Accounted, Capped;
  }

  /** With no active prompt no cap is reached, and the head-of-line loop ends at the first head it looks at. */
  lemma {:induction false} IdleOpen(cfg: Config, w: World, budget: ResourceVector, startupCap: int)
    requires Inv(cfg, w) && w.sched.active == map[] && w.sched.pending != []
    ensures !Closed(cfg, w.sched, startupCap) && Halts(cfg, w.sched, budget)
    ensures Stops(cfg, w.sched, budget, w.sched.pending[0].prompt)
    ensures Admissible(cfg, w.sched, budget, w.sched.pending[0].prompt)
  {
    var s := w.sched;
    assert ForBudget(cfg, s.reserved) == ZERO;
    assert Unknown(s.active) == {};
    assert Fits(cfg, s.reserved, s.pending[0].prompt.predicted, budget)
           || Oversized(s.pending[0].prompt.predicted, budget);
    assert Window(cfg, s) > 0;
  }

  /** Deadlock freedom: whenever a run has reached a state with no active prompt and some prompt waiting, one
      admission attempt admits a prompt, whatever the budget, the caps and the mode, and head-of-line mode looks at
      its head only. */
  lemma {:induction false} IdleProgress(cfg: Config, states: seq<World>, events: seq<Event>, n: nat,
                                        budget: ResourceVector,
                                        startupCap: int, s': State, r: Option<Prompt>)
    requires Run(cfg, states, events) && Initial(states[0]) && n <= |events|
    requires states[n].sched.active == map[] && states[n].sched.pending != []
    requires AdmitNext(cfg, states[n].sched, budget, startupCap, s', r)
    ensures r.Some? && s'.active == map[r.value.id := r.value]
    ensures cfg.preserveOrder ==> r.value == states[n].sched.pending[0].prompt
  {
    var s := states[n].sched;
    hide Run, Inv;
    ReachableInv(cfg, states, events, n);
    IdleOpen(cfg, states[n], budget, startupCap);
    hide Closed, Halts, Eligible, Fits, Forced;
    if !cfg.preserveOrder {
      assert Candidate(cfg, s, budget, 0) || Waiting(cfg, s, budget, 0);
    }
  }

  // ----- Budget safety -----

  /** Admitting a request that fits keeps the counted reservations within the budget, for all reservations, requests and
      budgets, exactly when the discount does not exceed 1 or is never applied. */
  lemma FittingIsSafeIff(cfg: Config)
    ensures (forall reserved: ResourceVector, request: ResourceVector, budget: ResourceVector ::
               reserved.NonNegative() && request.NonNegative() && Fits(cfg, reserved, request, budget)
               ==> ForBudget(cfg, reserved.Plus(request)).Leq(budget))
       <==> cfg.discount <= 1.0 || !(cfg.realtimeMemory || cfg.realtimeCpu || cfg.realtimeDisk)
  {
    var d := cfg.discount;
    if d <= 1.0 || !(cfg.realtimeMemory || cfg.realtimeCpu || cfg.realtimeDisk) {
      forall reserved: ResourceVector, request: ResourceVector, budget: ResourceVector
        | reserved.NonNegative() && request.NonNegative() && Fits(cfg, reserved, request, budget)
        ensures ForBudget(cfg, reserved.Plus(request)).Leq(budget)
      {
        ForBudgetGrows(cfg, reserved, request);
      }
    } else {
      var one := ResourceVector(1.0, 1.0, 1.0, 1.0);
      var budget := ForBudget(cfg, one).Plus(one);
      assert Fits(cfg, one, one, budget);
      assert ForBudget(cfg, one.Plus(one)).Plus(ZERO) == ResourceVector(
          if cfg.realtimeMemory then 2.0 * d else 2.0, if cfg.realtimeCpu then 2.0 * d else 2.0,
          if cfg.realtimeDisk then 2.0 * d else 2.0, if cfg.realtimeDisk then 2.0 * d else 2.0);
      assert !ForBudget(cfg, one.Plus(one)).Leq(budget);
    }
  }

  lemma CountedGrows(cfg: Config, realtime: bool, x: real, y: real)
    requires x >= 0.0 && y >= 0.0
    ensures 0.0 <= Counted(cfg, realtime, x) <= Counted(cfg, realtime, x + y)
    ensures cfg.discount <= 1.0 || !realtime ==> Counted(cfg, realtime, x + y) <= Counted(cfg, realtime, x) + y
    ensures cfg.discount > 0.0 && x > 0.0 ==> Counted(cfg, realtime, x) > 0.0
  {
    var d := Clamp(cfg.discount);
    DiscountedSum(x, y, d);
    DiscountedSize(x, d);
    DiscountedSize(y, d);
  }

  lemma DiscountedSum(x: real, y: real, d: real)
    ensures (x + y) * d == x * d + y * d
  {
  }

  lemma DiscountedSize(x: real, d: real)
    requires x >= 0.0 && d >= 0.0
    ensures x * d >= 0.0 && (d <= 1.0 ==> x * d <= x) && (d > 0.0 && x > 0.0 ==> x * d > 0.0)
  {
    if d <= 1.0 {
      assert x * (1.0 - d) >= 0.0;
    }
  }

  /** Counted reservations grow with the reservations and, discounted by at most 1, by no more than a request adds. */
  lemma ForBudgetGrows(cfg: Config, reserved: ResourceVector, request: ResourceVector)
    requires reserved.NonNegative() && request.NonNegative()
    ensures ZERO.Leq(ForBudget(cfg, reserved)) && ForBudget(cfg, reserved).Leq(ForBudget(cfg, reserved.Plus(request)))
    ensures cfg.discount <= 1.0 || !(cfg.realtimeMemory || cfg.realtimeCpu || cfg.realtimeDisk) ==>
              ForBudget(cfg, reserved.Plus(request)).Leq(ForBudget(cfg, reserved).Plus(request))
    ensures cfg.discount > 0.0 && reserved.memory > 0.0 ==> ForBudget(cfg, reserved).memory > 0.0
  {
    hide Counted;
    CountedGrows(cfg, cfg.realtimeMemory, reserved.memory, request.memory);
    CountedGrows(cfg, cfg.realtimeCpu, reserved.cpu, request.cpu);
    CountedGrows(cfg, cfg.realtimeDisk, reserved.diskRead, request.diskRead);
    CountedGrows(cfg, cfg.realtimeDisk, reserved.diskWrite, request.diskWrite);
  }

  // ----- Runs that show the limits -----

  const UNIT := ResourceVector(1.0, 1.0, 0.0, 0.0)

  /** A prompt that needs one unit of memory and CPU. */
  function Small(id: nat): Prompt { Prompt(id, "small", UNIT, true, 0.0) }

  /** Head-of-line mode without caps; memory follows the server's live data. */
  function Uncapped(discount: real, threshold: int): Config
  {
    Config(0, 0, 0, threshold, 1, discount, true, false, false, true)
  }

  function Enqueued(w: World, p: Prompt): World
  {
    w.(sched := w.sched.(pending := w.sched.pending + [Pending(p, 0)]), enqueued := w.enqueued + {p.id},
       waiting := w.waiting + {p.id})
  }

  lemma EnqueueStep(cfg: Config, w: World, p: Prompt)
    requires p.id !in w.enqueued && Reservable(p.predicted)
    ensures Step(cfg, w, Enqueue(p), Enqueued(w, p))
  {
  }

  /** Admitting a head that fits. */
  lemma HeadFits(cfg: Config, w: World, budget: ResourceVector)
    requires cfg.preserveOrder && cfg.windowCap <= 0 && cfg.activeCap <= 0 && cfg.unknownCap <= 0
    requires w.sched.pending != [] && w.sched.pending[0].blocked == 0
    requires Fits(cfg, w.sched.reserved, w.sched.pending[0].prompt.predicted, budget)
    ensures Step(cfg, w, Event.Admit(budget, 0), w.(sched := Mark(w.sched, w.sched.pending[0].prompt)))
  {
    var s := w.sched;
    assert Stops(cfg, s, budget, s.pending[0].prompt) && Window(cfg, s) > 0;
    assert s.pending[0 := Pending(s.pending[0].prompt, 0)] == s.pending;
    assert s.(pending := s.pending) == s;
    assert AdmitNext(cfg, s, budget, 0, Mark(s, s.pending[0].prompt), Some(s.pending[0].prompt));
  }

  /** With discount 2 a run of two admissions under one budget takes the reservations over it: each request fits, tested
      undiscounted, and the two together count double. */
  lemma DiscountAboveOneOverruns() returns (cfg: Config, states: seq<World>, events: seq<Event>, budget: ResourceVector)
    ensures cfg.discount == 2.0 && Run(cfg, states, events) && Initial(states[0])
    ensures events == [Enqueue(Small(0)), Enqueue(Small(1)), Event.Admit(budget, 0), Event.Admit(budget, 0)]
    ensures !WithinBudget(cfg, budget, states[4].sched)
  {
    cfg, budget := Uncapped(2.0, 2), ResourceVector(3.0, 10.0, 0.0, 0.0);
    var w0 := World(State([], map[], ZERO, 0), {}, {}, {}, {});
    var w1 := Enqueued(w0, Small(0));
    var w2 := Enqueued(w1, Small(1));
    assert w2.sched.pending == [Pending(Small(0), 0), Pending(Small(1), 0)];
    var w3, w4 := BothFit(cfg, w2, budget);
    var admit := Event.Admit(budget, 0);
    states, events := [w0, w1, w2, w3, w4], [Enqueue(Small(0)), Enqueue(Small(1)), admit, admit];
    hide Step, WithinBudget;
    EnqueueStep(cfg, w0, Small(0));
    EnqueueStep(cfg, w1, Small(1));
    assert Initial(w0) && cfg.discount == 2.0;
    hide *;
    FourSteps(cfg, w0, Enqueue(Small(0)), w1, Enqueue(Small(1)), w2, admit, w3, admit, w4);
  }

  lemma BothFit(cfg: Config, w: World, budget: ResourceVector) returns (w': World, w'': World)
    requires cfg == Uncapped(2.0, 2) && budget == ResourceVector(3.0, 10.0, 0.0, 0.0)
    requires w.sched == State([Pending(Small(0), 0), Pending(Small(1), 0)], map[], ZERO, 0)
    ensures Step(cfg, w, Event.Admit(budget, 0), w') && Step(cfg, w', Event.Admit(budget, 0), w'')
    ensures !WithinBudget(cfg, budget, w''.sched)
  {
    w' := w.(sched := Mark(w.sched, Small(0)));
    w'' := w'.(sched := Mark(w'.sched, Small(1)));
    WithoutFirst(Pending(Small(0), 0), Pending(Small(1), 0));
    TwoActive(cfg, w.sched, budget);
    hide Step, WithinBudget, Without;
    HeadFits(cfg, w, budget);
    HeadFits(cfg, w', budget);
  }

  lemma FourSteps(cfg: Config, w0: World, e0: Event, w1: World, e1: Event, w2: World, e2: Event, w3: World, e3: Event,
                  w4: World)
    requires Step(cfg, w0, e0, w1) && Step(cfg, w1, e1, w2) && Step(cfg, w2, e2, w3) && Step(cfg, w3, e3, w4)
    ensures Run(cfg, [w0, w1, w2, w3, w4], [e0, e1, e2, e3])
  {
    hide Step;
  }

  lemma WithoutFirst(a: Pending, b: Pending)
    requires a.prompt.id != b.prompt.id
    ensures Without([a, b], a.prompt.id) == [b]
  {
    assert [a, b][1..] == [b] && [b][1..] == [];
    assert Without([b], a.prompt.id) == [b] + Without([], a.prompt.id);
  }

  lemma TwoActive(cfg: Config, s: State, budget: ResourceVector)
    requires cfg == Uncapped(2.0, 2) && budget.memory == 3.0 && s.active == map[] && s.reserved == ZERO
    ensures !WithinBudget(cfg, budget, Mark(Mark(s, Small(0)), Small(1)))
  {
    hide Without;
    var t := Mark(Mark(s, Small(0)), Small(1));
    assert 0 in t.active.Keys && 1 in t.active.Keys;
    assert t.reserved.memory == 2.0;
    assert ForBudget(cfg, t.reserved).memory == 4.0;
    assert !ForBudget(cfg, t.reserved).Leq(budget);
    assert t.active != map[];
    assert forall id :: t.active.Keys == {id} ==> 0 in {id} && 1 in {id};
  }

  /** With requeue threshold 1 a run reaches a state in which the head-of-line loop never ends: one prompt is active,
      and neither of the two that wait fits beside it. */
  lemma ThresholdOneSpins() returns (cfg: Config, states: seq<World>, events: seq<Event>, budget: ResourceVector)
    ensures cfg.requeueThreshold == 1 && Run(cfg, states, events) && Initial(states[0]) && |events| == 4
    ensures var s := states[4].sched;
            |s.pending| == 2 && !Closed(cfg, s, 0) && forall n: nat :: Loop(cfg, s, budget, n).Some?
  {
    cfg, budget := Uncapped(1.0, 1), UNIT;
    var w0 := World(State([], map[], ZERO, 0), {}, {}, {}, {});
    var w1 := Enqueued(w0, Small(0));
    assert w1.sched.pending == [Pending(Small(0), 0)];
    var w2 := OneFits(cfg, w1);
    var w3 := Enqueued(w2, Small(1));
    var w4 := Enqueued(w3, Small(2));
    assert w4.sched.pending == [Pending(Small(1), 0), Pending(Small(2), 0)];
    var e0, e1, e2, e3 := Enqueue(Small(0)), Event.Admit(budget, 0), Enqueue(Small(1)), Enqueue(Small(2));
    states, events := [w0, w1, w2, w3, w4], [e0, e1, e2, e3];
    hide Step, Loop, Halts, Closed;
    NothingFits(cfg, w4.sched, budget);
    EnqueueStep(cfg, w0, Small(0));
    EnqueueStep(cfg, w2, Small(1));
    EnqueueStep(cfg, w3, Small(2));
    assert Initial(w0) && cfg.requeueThreshold == 1;
    hide *;
    FourSteps(cfg, w0, e0, w1, e1, w2, e2, w3, e3, w4);
    forall n: nat ensures Loop(cfg, w4.sched, budget, n).Some? {
      LoopRotates(cfg, w4.sched, budget, n);
    }
  }

  lemma MarkOnly(s: State, p: Prompt)
    requires s.pending == [Pending(p, 0)] && s.reserved == ZERO
    ensures Mark(s, p).pending == [] && Mark(s, p).reserved == p.predicted
  {
    assert s.pending[1..] == [] && Without(s.pending, p.id) == Without(s.pending[1..], p.id);
    var v := p.predicted;
    assert ZERO.Plus(v) == ResourceVector(v.memory, v.cpu, v.diskRead, v.diskWrite) == v;
  }

  lemma OneFits(cfg: Config, w: World) returns (w': World)
    requires cfg == Uncapped(1.0, 1) && w.sched == State([Pending(Small(0), 0)], map[], ZERO, 0)
    ensures Step(cfg, w, Event.Admit(UNIT, 0), w')
    ensures w'.sched.pending == [] && w'.sched.reserved == UNIT && w'.enqueued == w.enqueued
  {
    w' := w.(sched := Mark(w.sched, Small(0)));
    MarkOnly(w.sched, Small(0));
    assert Fits(cfg, ZERO, UNIT, UNIT);
    hide Step, Fits, Mark;
    HeadFits(cfg, w, UNIT);
  }

  lemma NothingFits(cfg: Config, s: State, budget: ResourceVector)
    requires cfg == Uncapped(1.0, 1) && budget == UNIT && s.reserved == UNIT
    requires s.pending == [Pending(Small(1), 0), Pending(Small(2), 0)]
    ensures !Closed(cfg, s, 0) && !Halts(cfg, s, budget)
  {
    NoFit(cfg, s, 1);
    NoFit(cfg, s, 2);
    hide Stops, Small;
    forall i | 0 <= i < 2 ensures !Stops(cfg, s, budget, s.pending[i].prompt) {
    }
  }

  lemma NoFit(cfg: Config, s: State, id: nat)
    requires cfg == Uncapped(1.0, 1) && s.reserved == UNIT
    ensures !Stops(cfg, s, UNIT, Small(id))
  {
    assert ForBudget(cfg, UNIT) == UNIT;
    hide ForBudget;
    assert !Fits(cfg, s.reserved, UNIT, UNIT) && !Oversized(UNIT, UNIT);
  }

  // ----- Safety while the budget stays -----

  /** Nothing is active, or what is active counts within the budget, or one oversized prompt is active alone. */
  ghost predicate WithinBudget(cfg: Config, budget: ResourceVector, s: State)
  {
    || s.active == map[]
    || ForBudget(cfg, s.reserved).Leq(budget)
    || exists id :: id in s.active && s.active.Keys == {id} && Oversized(s.active[id].predicted, budget)
  }

  predicate Discounts(cfg: Config) { 0.0 < cfg.discount <= 1.0 }

  lemma CountedPositive(cfg: Config, s: State)
    requires Accounted(s) && s.active != map[] && Discounts(cfg)
    ensures s.reserved.NonNegative() && ForBudget(cfg, s.reserved).memory > 0.0
    ensures ForBudget(cfg, s.reserved).NonNegative()
  {
    TotalNonNegative(s.active);
    ForBudgetGrows(cfg, s.reserved, ZERO);
  }

  /** Reservations over the budget keep every further request out. */
  lemma OverBudgetBlocks(cfg: Config, s: State, budget: ResourceVector, p: Prompt)
    requires Accounted(s) && s.active != map[] && Discounts(cfg)
    requires !ForBudget(cfg, s.reserved).Leq(budget) && p.predicted.NonNegative()
    ensures !Admissible(cfg, s, budget, p)
  {
    CountedPositive(cfg, s);
    hide ForBudget;
  }

  lemma AdmitWithinBudget(cfg: Config, w: World, budget: ResourceVector, startupCap: int, w': World)
    requires Discounts(cfg) && Inv(cfg, w) && WithinBudget(cfg, budget, w.sched)
    requires Step(cfg, w, Event.Admit(budget, startupCap), w')
    ensures WithinBudget(cfg, budget, w'.sched)
  {
    hide Placed, Capped;
    var s := w.sched;
    var r :| AdmitNext(cfg, s, budget, startupCap, w'.sched, r);
    AdmitSound(cfg, s, budget, startupCap, w'.sched, r);
    hide AdmitNext, AdmitEffect, ForBudget, Mark, Admissible, Total;
    AdmitReserves(cfg, s, budget, w'.sched, r);
    if r.Some? {
      AdmissibleWithinBudget(cfg, s, budget, r.value);
    }
  }

  /** What an admission attempt does to the active prompts and their reservations. */
  lemma AdmitReserves(cfg: Config, s: State, budget: ResourceVector, s': State, r: Option<Prompt>)
    requires AdmitEffect(cfg, s, budget, s', r) && Accounted(s)
    ensures r.None? ==> s'.active == s.active && s'.reserved == s.reserved
    ensures r.Some? ==> Reservable(r.value.predicted) && Admissible(cfg, s, budget, r.value)
                        && s'.active == Mark(s, r.value).active && s'.reserved == Mark(s, r.value).reserved
  {
    hide Admissible, Total, Without, Reservable;
    if r.Some? {
      var p := r.value;
      var q: seq<Pending> :| multiset(Prompts(q)) == multiset(Prompts(s.pending))
        && p in Prompts(q) && Admissible(cfg, s, budget, p) && s' == Mark(s.(pending := q), p);
      assert p in multiset(Prompts(q)) && p in multiset(Prompts(s.pending));
      var i :| 0 <= i < |s.pending| && Prompts(s.pending)[i] == p;
    }
  }

  lemma AdmissibleWithinBudget(cfg: Config, s: State, budget: ResourceVector, p: Prompt)
    requires Discounts(cfg) && Accounted(s) && Reservable(p.predicted) && Admissible(cfg, s, budget, p)
    ensures WithinBudget(cfg, budget, Mark(s, p))
  {
    hide Without;
    if s.active != map[] {
      CountedPositive(cfg, s);
    } else {
      assert s.reserved == ZERO;
    }
    hide ForBudget;
    if Fits(cfg, s.reserved, p.predicted, budget) {
      ForBudgetGrows(cfg, s.reserved, p.predicted);
    } else {
      assert s.active == map[];
      assert Mark(s, p).active.Keys == {p.id};
    }
  }

  lemma FinishWithinBudget(cfg: Config, w: World, budget: ResourceVector, id: nat, w': World)
    requires Inv(cfg, w) && WithinBudget(cfg, budget, w.sched) && Step(cfg, w, FinishPrompt(id), w')
    ensures WithinBudget(cfg, budget, w'.sched)
  {
    var s := w.sched;
    FinishAccounted(cfg, s, id);
    TotalNonNegative(w'.sched.active);
    ForBudgetGrows(cfg, w'.sched.reserved, s.active[id].predicted);
    hide Total, ForBudget, Placed, Capped;
    if s.active.Keys == {id} {
      assert w'.sched.active == map[];
    }
  }

  lemma StepWithinBudget(cfg: Config, w: World, e: Event, w': World, budget: ResourceVector)
    requires Discounts(cfg) && Inv(cfg, w) && WithinBudget(cfg, budget, w.sched) && Step(cfg, w, e, w')
    requires e.Admit? ==> e.budget == budget
    ensures WithinBudget(cfg, budget, w'.sched)
  {
    hide Inv, AdmitNext, Finish, ForBudget;
    match e
    case Admit(_, startupCap) => AdmitWithinBudget(cfg, w, budget, startupCap, w');
    case FinishPrompt(id) => FinishWithinBudget(cfg, w, budget, id, w');
    case _ =>
  }

  /** Budget safety over every run whose admissions all see the same budget: the active prompts stay within it, or one
      oversized prompt is alone; and while they exceed it nothing else can be admitted. */
  lemma {:induction false} BudgetSafe(cfg: Config, states: seq<World>, events: seq<Event>, n: nat,
                                      budget: ResourceVector)
    requires Run(cfg, states, events) && Initial(states[0]) && n <= |events| && Discounts(cfg)
    requires forall i :: 0 <= i < |events| && events[i].Admit? ==> events[i].budget == budget
    ensures WithinBudget(cfg, budget, states[n].sched)
    ensures states[n].sched.active != map[] && !ForBudget(cfg, states[n].sched.reserved).Leq(budget) ==>
              forall p: Prompt :: p.predicted.NonNegative() ==> !Admissible(cfg, states[n].sched, budget, p)
  {
    hide Inv, Step, Admissible, ForBudget;
    if n > 0 {
      BudgetSafe(cfg, states, events, n - 1, budget);
      ReachableInv(cfg, states, events, n - 1);
      StepWithinBudget(cfg, states[n - 1], events[n - 1], states[n], budget);
    }
    ReachableInv(cfg, states, events, n);
    OverBudgetBlocksAll(cfg, states[n], budget);
  }

  lemma OverBudgetBlocksAll(cfg: Config, w: World, budget: ResourceVector)
    requires Inv(cfg, w) && Discounts(cfg)
    ensures w.sched.active != map[] && !ForBudget(cfg, w.sched.reserved).Leq(budget) ==>
              forall p: Prompt :: p.predicted.NonNegative() ==> !Admissible(cfg, w.sched, budget, p)
  {
    hide Placed, Capped, Accounted, Admissible, ForBudget;
    if w.sched.active != map[] && !ForBudget(cfg, w.sched.reserved).Leq(budget) {
      forall p: Prompt | p.predicted.NonNegative() ensures !Admissible(cfg, w.sched, budget, p) {
        OverBudgetBlocks(cfg, w.sched, budget, p);
      }
    }
  }
}
