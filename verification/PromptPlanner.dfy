/** The offline planner of swe-rl/online_env_docker_scheduler.py: greedy vector packing of prompts into waves. */
module PromptPlanner {
  import opened Sequences
  import opened SchedulerRules

  /** The requests in arrival order, the budget, and the packing score of a request against a residual. The score reads
      the clock, so it is another one in every turn of the loop: its first argument is how many requests remain. */
  datatype Plan = Plan(requests: seq<ResourceVector>, budget: ResourceVector, score: (nat, nat, ResourceVector) -> real)

  predicate FitsVirtual(active: ResourceVector, request: ResourceVector, budget: ResourceVector)
  {
    active.Plus(request).Leq(budget)
  }

  predicate Indexes(e: Plan, xs: seq<nat>)
  {
    forall k :: 0 <= k < |xs| ==> xs[k] < |e.requests|
  }

  predicate FitsAt(e: Plan, active: ResourceVector, remaining: seq<nat>, i: nat)
    requires Indexes(e, remaining) && i < |remaining|
  {
    FitsVirtual(active, e.requests[remaining[i]], e.budget)
  }

  /** Position i holds the first request of greatest score among those of the first n that fit. */
  predicate Best(e: Plan, active: ResourceVector, residual: ResourceVector, remaining: seq<nat>, n: nat, i: nat)
    requires Indexes(e, remaining) && i < n <= |remaining|
  {
    && FitsAt(e, active, remaining, i)
    && forall j :: 0 <= j < n && FitsAt(e, active, remaining, j) ==>
         e.score(|remaining|, remaining[j], residual) < e.score(|remaining|, remaining[i], residual)
         || (e.score(|remaining|, remaining[j], residual) == e.score(|remaining|, remaining[i], residual) && i <= j)
  }

  function Choice(e: Plan, active: ResourceVector, residual: ResourceVector, remaining: seq<nat>,
                  n: nat): (r: Option<nat>)
    requires Indexes(e, remaining) && n <= |remaining|
    ensures r.Some? ==> r.value < n && Best(e, active, residual, remaining, n, r.value)
    ensures r.None? ==> forall j :: 0 <= j < n ==> !FitsAt(e, active, remaining, j)
  {
    if n == 0 then None
    else
      var b := Choice(e, active, residual, remaining, n - 1);
      if FitsAt(e, active, remaining, n - 1)
         && (b.None?
             || e.score(|remaining|, remaining[n - 1], residual) > e.score(|remaining|, remaining[b.value], residual))
      then Some(n - 1)
      else b
  }

  /** A choice: its position, whether it starts from an empty virtual cluster, and whether it fits there. */
  datatype Pick = Pick(i: nat, newWave: bool, fits: bool)

  /** The best fitting request of the current wave, else of a fresh wave, else the oldest request. */
  function Picked(e: Plan, active: ResourceVector, remaining: seq<nat>): (r: Pick)
    requires Indexes(e, remaining) && remaining != []
    ensures r.i < |remaining|
    ensures r.fits ==> FitsAt(e, if r.newWave then ZERO else active, remaining, r.i)
    ensures r.newWave ==> forall j :: 0 <= j < |remaining| ==> !FitsAt(e, active, remaining, j)
    ensures !r.fits ==> r.newWave && r.i == 0 && forall j :: 0 <= j < |remaining| ==> !FitsAt(e, ZERO, remaining, j)
  {
    match Choice(e, active, e.budget.Minus(active), remaining, |remaining|)
    case Some(i) => Pick(i, false, true)
    case None =>
      match Choice(e, ZERO, e.budget, remaining, |remaining|)
      case Some(i) => Pick(i, true, true)
      case None => Pick(0, true, false)
  }

  /** The virtual reservations after a choice. */
  function After(e: Plan, active: ResourceVector, remaining: seq<nat>): (r: ResourceVector)
    requires Indexes(e, remaining) && remaining != []
  {
    var p := Picked(e, active, remaining);
    var start := if p.newWave then ZERO else active;
    if p.fits then start.Plus(e.requests[remaining[p.i]]) else start
  }

  function Order(e: Plan, active: ResourceVector, remaining: seq<nat>): (r: seq<nat>)
    requires Indexes(e, remaining)
    decreases |remaining|
  {
    if remaining == [] then []
    else
      var i := Picked(e, active, remaining).i;
      [remaining[i]] + Order(e, After(e, active, remaining), Drop(e, remaining, i))
  }

  function Drop(e: Plan, remaining: seq<nat>, i: nat): (r: seq<nat>)
    requires Indexes(e, remaining) && i < |remaining|
    ensures Indexes(e, r) && |r| == |remaining| - 1
    ensures multiset(r) == multiset(remaining) - multiset{remaining[i]}
  {
    RemoveAt(remaining, i)
  }

  function Arrivals(n: nat): (r: seq<nat>)
    ensures |r| == n && forall k :: 0 <= k < n ==> r[k] == k
  {
    seq(n, k => k)
  }

  method PlanPromptOrder(e: Plan) returns (ordered: seq<nat>)
    ensures ordered == Order(e, ZERO, Arrivals(|e.requests|))
  {
    ordered := [];
    var remaining := Arrivals(|e.requests|);
    var virtualActive := ZERO;
    while remaining != []
      invariant Indexes(e, remaining)
      invariant ordered + Order(e, virtualActive, remaining) == Order(e, ZERO, Arrivals(|e.requests|))
      decreases |remaining|
    {
      var at, next := PlanNext(e, virtualActive, remaining);
      hide After, Picked, Drop;
      OrderStep(ordered, e, virtualActive, remaining);
      ordered := ordered + [remaining[at]];
      remaining := Drop(e, remaining, at);
      virtualActive := next;
    }
  }

  /** One turn of the planning loop: the chosen position and the new virtual reservations. */
  method PlanNext(e: Plan, active: ResourceVector, remaining: seq<nat>) returns (at: nat, next: ResourceVector)
    requires Indexes(e, remaining) && remaining != []
    ensures at == Picked(e, active, remaining).i && next == After(e, active, remaining)
  {
    next := active;
    var residual := e.budget.Minus(next);
    var fit := GreatestFit(e, next, residual, remaining);
    if fit == None {
      next := ZERO;
      residual := e.budget;
      fit := GreatestFit(e, next, residual, remaining);
      if fit == None {
        fit := Some(0);
      }
    }
    at := fit.value;
    ghost var p := Picked(e, active, remaining);
    assert at == p.i && next == if p.newWave then ZERO else active;
    assert !p.fits ==> !FitsAt(e, ZERO, remaining, at);
    hide Picked, Choice;
    if FitsVirtual(next, e.requests[remaining[at]], e.budget) {
      next := next.Plus(e.requests[remaining[at]]);
    }
  }

  lemma {:induction false} OrderStep(ordered: seq<nat>, e: Plan, active: ResourceVector, remaining: seq<nat>)
    requires Indexes(e, remaining) && remaining != []
    ensures var i := Picked(e, active, remaining).i;
            ordered + Order(e, active, remaining)
            == (ordered + [remaining[i]]) + Order(e, After(e, active, remaining), Drop(e, remaining, i))
  {
    hide After, Picked, Drop;
  }

  /** The first of the fitting requests once they are sorted by falling score. */
  method GreatestFit(e: Plan, active: ResourceVector, residual: ResourceVector, remaining: seq<nat>)
    returns (fit: Option<nat>)
    requires Indexes(e, remaining)
    ensures fit == Choice(e, active, residual, remaining, |remaining|)
  {
    fit := None;
    for n := 0 to |remaining|
      invariant fit == Choice(e, active, residual, remaining, n)
    {
      if FitsAt(e, active, remaining, n)
         && (fit.None?
             || e.score(|remaining|, remaining[n], residual) > e.score(|remaining|, remaining[fit.value], residual)) {
        fit := Some(n);
      }
    }
  }

  // ----- Permutation -----

  lemma {:induction false} OrderPermutes(e: Plan, active: ResourceVector, remaining: seq<nat>)
    requires Indexes(e, remaining)
    ensures multiset(Order(e, active, remaining)) == multiset(remaining)
    decreases |remaining|
  {
    if remaining != [] {
      hide Picked, After, Drop;
      OrderPermutes(e, After(e, active, remaining), Drop(e, remaining, Picked(e, active, remaining).i));
    }
  }

  // ----- Waves -----

  function Load(e: Plan, wave: seq<nat>): ResourceVector
    requires Indexes(e, wave)
  {
    if wave == [] then ZERO else e.requests[wave[0]].Plus(Load(e, wave[1..]))
  }

  function Onto(c: nat, waves: seq<seq<nat>>): seq<seq<nat>>
    requires waves != []
  {
    [[c] + waves[0]] + waves[1..]
  }

  predicate WaveIndexes(e: Plan, waves: seq<seq<nat>>)
  {
    forall k :: 0 <= k < |waves| ==> Indexes(e, waves[k])
  }

  /** The rest of the current wave, followed by the later waves. */
  function Waves(e: Plan, active: ResourceVector, remaining: seq<nat>): (w: seq<seq<nat>>)
    requires Indexes(e, remaining)
    ensures w != [] && WaveIndexes(e, w)
    decreases |remaining|
  {
    if remaining == [] then [[]]
    else
      var p := Picked(e, active, remaining);
      if !p.fits then [[]]
      else
        var w := Onto(remaining[p.i], Waves(e, After(e, active, remaining), Drop(e, remaining, p.i)));
        if p.newWave then [[]] + w else w
  }

  /** Every wave stays within the budget, and the first request of the next one would not have fitted any more. */
  predicate Packed(e: Plan, active: ResourceVector, w: seq<seq<nat>>)
    requires w != [] && WaveIndexes(e, w)
    decreases |w|
  {
    && (w[0] != [] ==> active.Plus(Load(e, w[0])).Leq(e.budget))
    && (|w| > 1 ==>
          && w[1] != []
          && !FitsVirtual(active.Plus(Load(e, w[0])), e.requests[w[1][0]], e.budget)
          && Packed(e, ZERO, w[1..]))
  }

  lemma {:induction false} PackedOnto(e: Plan, active: ResourceVector, c: nat, w: seq<seq<nat>>)
    requires w != [] && WaveIndexes(e, w) && c < |e.requests|
    requires FitsVirtual(active, e.requests[c], e.budget) && Packed(e, active.Plus(e.requests[c]), w)
    ensures Packed(e, active, Onto(c, w))
  {
    var v := Onto(c, w);
    assert v[0][1..] == w[0];
    assert Load(e, v[0]) == e.requests[c].Plus(Load(e, w[0]));
    assert active.Plus(Load(e, v[0])) == active.Plus(e.requests[c]).Plus(Load(e, w[0]));
    assert v[1..] == w[1..];
    if w[0] == [] {
      assert active.Plus(Load(e, v[0])) == active.Plus(e.requests[c]);
    }
  }

  lemma {:induction false} WavesPacked(e: Plan, active: ResourceVector, remaining: seq<nat>)
    requires Indexes(e, remaining)
    ensures Packed(e, active, Waves(e, active, remaining))
    decreases |remaining|
  {
    if remaining != [] {
      var p := Picked(e, active, remaining);
      if p.fits {
        var c, a, rest := remaining[p.i], After(e, active, remaining), Drop(e, remaining, p.i);
        WavesPacked(e, a, rest);
        var w := Waves(e, a, rest);
        var start := if p.newWave then ZERO else active;
        hide Choice, Picked, Drop;
        PackedOnto(e, start, c, w);
        if p.newWave {
          assert !FitsAt(e, active, remaining, p.i);
          FreshPacked(e, active, Onto(c, w));
        }
      }
    }
  }

  lemma {:induction false} FreshPacked(e: Plan, active: ResourceVector, w: seq<seq<nat>>)
    requires w != [] && WaveIndexes(e, w) && Packed(e, ZERO, w) && w[0] != []
    requires !FitsVirtual(active, e.requests[w[0][0]], e.budget)
    ensures Packed(e, active, [[]] + w)
  {
    assert ([[]] + w)[1..] == w;
    assert active.Plus(Load(e, [])) == active;
  }

  // ----- The order is the waves, then the oversized requests -----

  predicate TooBig(e: Plan, k: nat)
    requires k < |e.requests|
  {
    !FitsVirtual(ZERO, e.requests[k], e.budget)
  }

  /** The requests that exceed the budget on their own, in order. */
  function Big(e: Plan, remaining: seq<nat>): (r: seq<nat>)
    requires Indexes(e, remaining)
  {
    if remaining == [] then []
    else (if TooBig(e, remaining[0]) then [remaining[0]] else []) + Big(e, remaining[1..])
  }

  lemma {:induction false} BigWithoutSmall(e: Plan, remaining: seq<nat>, i: nat)
    requires Indexes(e, remaining) && i < |remaining| && !TooBig(e, remaining[i])
    ensures Big(e, RemoveAt(remaining, i)) == Big(e, remaining)
  {
    if i == 0 {
      assert RemoveAt(remaining, 0) == remaining[1..];
    } else {
      BigWithoutSmall(e, remaining[1..], i - 1);
      RemoveAtTail(remaining, i);
    }
  }

  /** What the requests that fit an empty cluster amount to. */
  function SmallLoad(e: Plan, remaining: seq<nat>): ResourceVector
    requires Indexes(e, remaining)
  {
    if remaining == [] then ZERO
    else (if TooBig(e, remaining[0]) then ZERO else e.requests[remaining[0]]).Plus(SmallLoad(e, remaining[1..]))
  }

  lemma {:induction false} LoadWithoutSmall(e: Plan, remaining: seq<nat>, i: nat)
    requires Indexes(e, remaining) && i < |remaining| && !TooBig(e, remaining[i])
    ensures SmallLoad(e, remaining) == e.requests[remaining[i]].Plus(SmallLoad(e, RemoveAt(remaining, i)))
  {
    if i == 0 {
      assert RemoveAt(remaining, 0) == remaining[1..];
    } else {
      hide RemoveAt;
      LoadWithoutSmall(e, remaining[1..], i - 1);
      RemoveAtTail(remaining, i);
    }
  }

  lemma OldestWhenBig(e: Plan, active: ResourceVector, remaining: seq<nat>)
    requires Indexes(e, remaining) && active.NonNegative() && NonNegativeRequests(e) && remaining != []
    requires forall k :: 0 <= k < |remaining| ==> TooBig(e, remaining[k])
    ensures !Picked(e, active, remaining).fits && After(e, active, remaining) == ZERO
  {
    hide Choice, Picked;
    var p := Picked(e, active, remaining);
    assert TooBig(e, remaining[p.i]);
  }

  lemma {:induction false} OrderUnfold(e: Plan, active: ResourceVector, remaining: seq<nat>)
    requires Indexes(e, remaining)
    ensures remaining == [] ==> Order(e, active, remaining) == []
    ensures remaining != [] ==>
              var i := Picked(e, active, remaining).i;
              Order(e, active, remaining)
              == [remaining[i]] + Order(e, After(e, active, remaining), Drop(e, remaining, i))
  {
    hide Picked, After, Drop;
  }

  lemma ConsBack(xs: seq<nat>)
    requires xs != []
    ensures [xs[0]] + xs[1..] == xs
  {
  }

  lemma {:induction false} BigStep(e: Plan, remaining: seq<nat>)
    requires Indexes(e, remaining) && remaining != [] && TooBig(e, remaining[0])
    ensures Drop(e, remaining, 0) == remaining[1..]
    ensures Big(e, remaining) == [remaining[0]] + Big(e, remaining[1..])
    ensures SmallLoad(e, remaining) == SmallLoad(e, remaining[1..])
  {
  }

  lemma {:induction false} AllBig(e: Plan, active: ResourceVector, remaining: seq<nat>)
    requires Indexes(e, remaining) && active.NonNegative() && NonNegativeRequests(e)
    requires forall k :: 0 <= k < |remaining| ==> TooBig(e, remaining[k])
    ensures Order(e, active, remaining) == remaining && Big(e, remaining) == remaining
            && SmallLoad(e, remaining) == ZERO
    decreases |remaining|
  {
    hide Order, Choice, Picked, After, TooBig;
    if remaining == [] {
      OrderUnfold(e, active, remaining);
    } else {
      AllBig(e, ZERO, remaining[1..]);
      AllBigStep(e, active, remaining);
    }
  }

  lemma {:induction false} AllBigStep(e: Plan, active: ResourceVector, remaining: seq<nat>)
    requires Indexes(e, remaining) && active.NonNegative() && NonNegativeRequests(e) && remaining != []
    requires forall k :: 0 <= k < |remaining| ==> TooBig(e, remaining[k])
    requires var rest := remaining[1..];
             Order(e, ZERO, rest) == rest && Big(e, rest) == rest && SmallLoad(e, rest) == ZERO
    ensures Order(e, active, remaining) == remaining && Big(e, remaining) == remaining
            && SmallLoad(e, remaining) == ZERO
  {
    hide *;
    OrderUnfold(e, active, remaining);
    BigStep(e, remaining);
    OldestWhenBig(e, active, remaining);
    ConsBack(remaining);
  }

  predicate NonNegativeRequests(e: Plan)
  {
    forall k :: 0 <= k < |e.requests| ==> e.requests[k].NonNegative()
  }

  lemma {:induction false} OrderIsWaves(e: Plan, active: ResourceVector, remaining: seq<nat>)
    requires Indexes(e, remaining) && active.NonNegative() && NonNegativeRequests(e)
    ensures Order(e, active, remaining) == Flatten(Waves(e, active, remaining)) + Big(e, remaining)
    ensures WavesLoad(e, Waves(e, active, remaining)) == SmallLoad(e, remaining)
    decreases |remaining|
  {
    hide Choice, Picked, TooBig, Big, Waves, Order, Drop, Flatten, WavesLoad, SmallLoad;
    if remaining != [] && Picked(e, active, remaining).fits {
      var a, rest := After(e, active, remaining), Drop(e, remaining, Picked(e, active, remaining).i);
      assert a.NonNegative();
      hide After, FitsAt;
      OrderIsWaves(e, a, rest);
      StepIsWaves(e, active, remaining);
    } else {
      NoWavesLeft(e, active, remaining);
    }
  }

  lemma {:induction false} NoWavesLeft(e: Plan, active: ResourceVector, remaining: seq<nat>)
    requires Indexes(e, remaining) && active.NonNegative() && NonNegativeRequests(e)
    requires remaining == [] || !Picked(e, active, remaining).fits
    ensures Order(e, active, remaining) == Flatten(Waves(e, active, remaining)) + Big(e, remaining)
    ensures WavesLoad(e, Waves(e, active, remaining)) == SmallLoad(e, remaining)
  {
    hide Order, Big, Picked, Choice, SmallLoad, Flatten, WavesLoad;
    OnlyBigLeft(e, active, remaining);
    assert Waves(e, active, remaining) == [[]] + [];
    hide Waves;
    EmptyFirst(e, []);
    NoWaves(e);
  }

  lemma {:induction false} NoWaves(e: Plan)
    ensures Flatten<nat>([]) == [] && WavesLoad(e, []) == ZERO
  {
  }

  lemma {:induction false} OnlyBigLeft(e: Plan, active: ResourceVector, remaining: seq<nat>)
    requires Indexes(e, remaining) && active.NonNegative() && NonNegativeRequests(e)
    requires remaining == [] || !Picked(e, active, remaining).fits
    ensures Order(e, active, remaining) == remaining && Big(e, remaining) == remaining
            && SmallLoad(e, remaining) == ZERO
  {
    hide Order, Big, SmallLoad, Picked, Choice;
    forall k | 0 <= k < |remaining| ensures TooBig(e, remaining[k]) {
      assert !FitsAt(e, ZERO, remaining, k);
    }
    AllBig(e, active, remaining);
  }

  lemma {:induction false} WavesUnfold(e: Plan, active: ResourceVector, remaining: seq<nat>)
    requires Indexes(e, remaining) && remaining != [] && Picked(e, active, remaining).fits
    ensures var p := Picked(e, active, remaining);
            var w := Waves(e, After(e, active, remaining), Drop(e, remaining, p.i));
            && Flatten(Waves(e, active, remaining)) == [remaining[p.i]] + Flatten(w)
            && WavesLoad(e, Waves(e, active, remaining)) == e.requests[remaining[p.i]].Plus(WavesLoad(e, w))
  {
    hide Choice, Picked, After, WavesLoad, Flatten, Drop;
    var p := Picked(e, active, remaining);
    var w := Waves(e, After(e, active, remaining), Drop(e, remaining, p.i));
    FlattenOnto(e, remaining[p.i], w);
    EmptyFirst(e, Onto(remaining[p.i], w));
  }

  lemma {:induction false} StepIsWaves(e: Plan, active: ResourceVector, remaining: seq<nat>)
    requires Indexes(e, remaining) && active.NonNegative() && remaining != [] && Picked(e, active, remaining).fits
    requires NonNegativeRequests(e)
    requires var a, rest := After(e, active, remaining), Drop(e, remaining, Picked(e, active, remaining).i);
             && Order(e, a, rest) == Flatten(Waves(e, a, rest)) + Big(e, rest)
             && WavesLoad(e, Waves(e, a, rest)) == SmallLoad(e, rest)
    ensures Order(e, active, remaining) == Flatten(Waves(e, active, remaining)) + Big(e, remaining)
    ensures WavesLoad(e, Waves(e, active, remaining)) == SmallLoad(e, remaining)
  {
    hide Order, Choice, Picked, After, SmallLoad, Big, WavesLoad, Flatten, Waves;
    var p := Picked(e, active, remaining);
    assert !TooBig(e, remaining[p.i]);
    BigWithoutSmall(e, remaining, p.i);
    LoadWithoutSmall(e, remaining, p.i);
    assert Drop(e, remaining, p.i) == RemoveAt(remaining, p.i);
    hide TooBig, Drop, RemoveAt;
    OrderUnfold(e, active, remaining);
    WavesUnfold(e, active, remaining);
  }

  lemma {:induction false} EmptyFirst(e: Plan, w: seq<seq<nat>>)
    requires WaveIndexes(e, w)
    ensures Flatten([[]] + w) == Flatten(w) && WavesLoad(e, [[]] + w) == WavesLoad(e, w)
  {
    assert ([[]] + w)[1..] == w;
  }

  /** Every request placed in a wave fits an empty cluster. */
  lemma PickedSmall(e: Plan, active: ResourceVector, remaining: seq<nat>)
    requires Indexes(e, remaining) && active.NonNegative() && NonNegativeRequests(e) && remaining != []
    requires Picked(e, active, remaining).fits
    ensures !TooBig(e, remaining[Picked(e, active, remaining).i]) && After(e, active, remaining).NonNegative()
  {
    hide Choice, Picked;
  }

  lemma {:induction false} WavesFit(e: Plan, active: ResourceVector, remaining: seq<nat>, k: nat, j: nat)
    requires Indexes(e, remaining) && active.NonNegative() && NonNegativeRequests(e)
    requires var w := Waves(e, active, remaining); k < |w| && j < |w[k]|
    ensures !TooBig(e, Waves(e, active, remaining)[k][j])
    decreases |remaining|
  {
    if remaining != [] && Picked(e, active, remaining).fits {
      hide *;
      var p := Picked(e, active, remaining);
      var a, rest := After(e, active, remaining), Drop(e, remaining, p.i);
      PickedSmall(e, active, remaining);
      WaveEntry(e, active, remaining, k, j);
      var l := if p.newWave then k - 1 else k;
      if l > 0 {
        WavesFit(e, a, rest, l, j);
      } else if j > 0 {
        WavesFit(e, a, rest, 0, j - 1);
      }
    }
  }

  /** Where an entry of the waves comes from: it is the request just chosen, or it is in the waves of the others. */
  lemma {:induction false} WaveEntry(e: Plan, active: ResourceVector, remaining: seq<nat>, k: nat, j: nat)
    requires Indexes(e, remaining) && remaining != [] && Picked(e, active, remaining).fits
    requires var w := Waves(e, active, remaining); k < |w| && j < |w[k]|
    ensures var p := Picked(e, active, remaining);
            var w := Waves(e, After(e, active, remaining), Drop(e, remaining, p.i));
            var l := if p.newWave then k - 1 else k;
            && 0 <= l < |w|
            && (l > 0 ==> j < |w[l]| && Waves(e, active, remaining)[k][j] == w[l][j])
            && (l == 0 ==> j <= |w[0]|
                           && Waves(e, active, remaining)[k][j] == if j == 0 then remaining[p.i] else w[0][j - 1])
  {
    hide Choice, Picked, After, Drop, Onto;
    var p := Picked(e, active, remaining);
    var c, w := remaining[p.i], Waves(e, After(e, active, remaining), Drop(e, remaining, p.i));
    assert Waves(e, active, remaining) == if p.newWave then [[]] + Onto(c, w) else Onto(c, w);
    hide *;
    OntoEntries(c, w);
  }

  lemma OntoEntries(c: nat, w: seq<seq<nat>>)
    requires w != []
    ensures |Onto(c, w)| == |w| && Onto(c, w)[0] == [c] + w[0] && forall k :: 0 < k < |w| ==> Onto(c, w)[k] == w[k]
  {
  }

  function WavesLoad(e: Plan, w: seq<seq<nat>>): ResourceVector
    requires WaveIndexes(e, w)
  {
    if w == [] then ZERO else Load(e, w[0]).Plus(WavesLoad(e, w[1..]))
  }

  lemma {:induction false} FlattenOnto(e: Plan, c: nat, w: seq<seq<nat>>)
    requires w != [] && WaveIndexes(e, w) && c < |e.requests|
    ensures Flatten(Onto(c, w)) == [c] + Flatten(w)
    ensures WavesLoad(e, Onto(c, w)) == e.requests[c].Plus(WavesLoad(e, w))
  {
    var v := Onto(c, w);
    assert v[1..] == w[1..];
    assert v[0][1..] == w[0];
  }

  /** The waves of a whole plan. */
  function PlanWaves(e: Plan): (w: seq<seq<nat>>)
    ensures WaveIndexes(e, w)
  {
    var w := Waves(e, ZERO, Arrivals(|e.requests|));
    if w[0] == [] then w[1..] else w
  }

  lemma {:induction false} WavesAllFit(e: Plan)
    requires NonNegativeRequests(e)
    ensures var w := Waves(e, ZERO, Arrivals(|e.requests|));
            forall k, j :: 0 <= k < |w| && 0 <= j < |w[k]| ==> !TooBig(e, w[k][j])
  {
    var all := Arrivals(|e.requests|);
    var w := Waves(e, ZERO, all);
    hide TooBig, Waves, Arrivals;
    forall k, j | 0 <= k < |w| && 0 <= j < |w[k]| ensures !TooBig(e, w[k][j]) {
      WavesFit(e, ZERO, all, k, j);
    }
  }

  /** What a plan is, whatever the packing scores: a permutation of the requests; first waves of requests that could
      fit, each wave non-empty, within the budget, and closed only when its successor's first request no longer
      fitted; then every request that cannot fit at all, in arrival order. */
  lemma {:induction false} PlanIsPacked(e: Plan)
    requires NonNegativeRequests(e)
    ensures var all := Arrivals(|e.requests|);
            && multiset(Order(e, ZERO, all)) == multiset(all)
            && Order(e, ZERO, all) == Flatten(PlanWaves(e)) + Big(e, all)
    ensures forall k, j :: 0 <= k < |PlanWaves(e)| && 0 <= j < |PlanWaves(e)[k]| ==> !TooBig(e, PlanWaves(e)[k][j])
    ensures EachPacked(e, PlanWaves(e))
    ensures WavesLoad(e, PlanWaves(e)) == SmallLoad(e, Arrivals(|e.requests|))
  {
    var all := Arrivals(|e.requests|);
    var w0 := Waves(e, ZERO, all);
    OrderPermutes(e, ZERO, all);
    OrderIsWaves(e, ZERO, all);
    WavesPacked(e, ZERO, all);
    FirstWave(e);
    WavesAllFit(e);
    hide Order, Waves, Packed, Big, SmallLoad, TooBig, EachPacked, Flatten, Arrivals;
    PlanWavesFrom(e, w0);
  }

  lemma PlanWavesFrom(e: Plan, w0: seq<seq<nat>>)
    requires w0 != [] && WaveIndexes(e, w0) && Packed(e, ZERO, w0) && (w0[0] == [] ==> w0 == [[]])
    ensures var w := if w0[0] == [] then w0[1..] else w0;
            EachPacked(e, w) && Flatten(w) == Flatten(w0) && WavesLoad(e, w) == WavesLoad(e, w0)
  {
    if w0[0] == [] {
      hide Packed, Flatten, Load, WavesLoad;
      var none: seq<seq<nat>> := [];
      assert w0 == [[]] + none && w0[1..] == none;
      EmptyFirst(e, none);
    } else {
      PackedEach(e, w0);
    }
  }

  /** A plan opens no second wave before the first one holds something. */
  lemma {:induction false} FirstWave(e: Plan)
    requires NonNegativeRequests(e)
    ensures var w := Waves(e, ZERO, Arrivals(|e.requests|)); w[0] == [] ==> w == [[]]
  {
  }

  /** Non-empty waves within the budget, each followed by a request that no longer fitted. */
  predicate EachPacked(e: Plan, w: seq<seq<nat>>)
    requires WaveIndexes(e, w)
  {
    && (forall k :: 0 <= k < |w| ==> w[k] != [] && Load(e, w[k]).Leq(e.budget))
    && (forall k :: 0 <= k < |w| - 1 ==> !Load(e, w[k]).Plus(e.requests[w[k + 1][0]]).Leq(e.budget))
  }

  lemma {:induction false} PackedEach(e: Plan, w: seq<seq<nat>>)
    requires w != [] && WaveIndexes(e, w) && Packed(e, ZERO, w) && w[0] != []
    ensures EachPacked(e, w)
  {
    assert ZERO.Plus(Load(e, w[0])) == Load(e, w[0]);
    if |w| > 1 {
      var rest := w[1..];
      PackedEach(e, rest);
      hide Load, Packed;
      forall k | 0 < k < |w| ensures w[k] != [] && Load(e, w[k]).Leq(e.budget) {
        assert w[k] == rest[k - 1];
      }
      forall k | 0 < k < |w| - 1 ensures !Load(e, w[k]).Plus(e.requests[w[k + 1][0]]).Leq(e.budget) {
        assert w[k] == rest[k - 1] && w[k + 1] == rest[k];
      }
    }
  }

  // ----- How many waves -----

  /** A load as a number of budgets, added over the four dimensions. */
  function Share(v: ResourceVector, budget: ResourceVector): real
    requires PositiveBudget(budget)
  {
    v.memory / budget.memory + v.cpu / budget.cpu + v.diskRead / budget.diskRead + v.diskWrite / budget.diskWrite
  }

  predicate PositiveBudget(b: ResourceVector)
  {
    b.memory > 0.0 && b.cpu > 0.0 && b.diskRead > 0.0 && b.diskWrite > 0.0
  }

  lemma ProductSign(d: real, b: real)
    requires b > 0.0
    ensures d > 0.0 ==> d * b > 0.0
    ensures d < 0.0 ==> d * b < 0.0
  {
  }

  lemma QuotientUnique(x: real, b: real, q: real)
    requires b > 0.0 && q * b == x
    ensures x / b == q
  {
    var d := x / b - q;
    assert d * b == 0.0;
    ProductSign(d, b);
  }

  lemma Ratio(x: real, y: real, b: real)
    requires b > 0.0
    ensures (x + y) / b == x / b + y / b
    ensures x >= 0.0 ==> x / b >= 0.0
    ensures x > b ==> x / b > 1.0
  {
    var p, q := x / b, y / b;
    assert p * b == x && q * b == y;
    assert (p + q) * b == x + y;
    QuotientUnique(x + y, b, p + q);
  }

  lemma ShareAdds(v: ResourceVector, u: ResourceVector, b: ResourceVector)
    requires PositiveBudget(b)
    ensures Share(v.Plus(u), b) == Share(v, b) + Share(u, b)
    ensures v.NonNegative() ==> Share(v, b) >= 0.0
    ensures v.NonNegative() && !v.Leq(b) ==> Share(v, b) > 1.0
  {
    Ratio(v.memory, u.memory, b.memory);
    Ratio(v.cpu, u.cpu, b.cpu);
    Ratio(v.diskRead, u.diskRead, b.diskRead);
    Ratio(v.diskWrite, u.diskWrite, b.diskWrite);
  }

  lemma {:induction false} LoadNonNegative(e: Plan, wave: seq<nat>)
    requires Indexes(e, wave) && NonNegativeRequests(e)
    ensures Load(e, wave).NonNegative()
    ensures wave != [] ==> e.requests[wave[0]].Leq(Load(e, wave))
  {
    if wave != [] {
      LoadNonNegative(e, wave[1..]);
    }
  }

  lemma {:induction false} WaveBound(e: Plan, w: seq<seq<nat>>)
    requires WaveIndexes(e, w) && NonNegativeRequests(e) && PositiveBudget(e.budget)
    requires EachPacked(e, w)
    ensures WavesLoad(e, w).NonNegative()
    ensures |w| as real <= 2.0 * Share(WavesLoad(e, w), e.budget) + 1.0
  {
    var b := e.budget;
    if |w| == 0 {
      ShareAdds(ZERO, ZERO, b);
    } else if |w| == 1 {
      LoadNonNegative(e, w[0]);
      assert WavesLoad(e, w) == Load(e, w[0]).Plus(ZERO);
      ShareAdds(WavesLoad(e, w), ZERO, b);
    } else {
      var rest := w[2..];
      WaveBound(e, rest);
      LoadNonNegative(e, w[0]);
      LoadNonNegative(e, w[1]);
      var pair := Load(e, w[0]).Plus(Load(e, w[1]));
      assert !pair.Leq(b);
      ShareAdds(pair, WavesLoad(e, rest), b);
      assert w[1..][1..] == rest;
      assert WavesLoad(e, w) == pair.Plus(WavesLoad(e, rest));
    }
  }

  /** Greedy packing is never far from the best: with a positive budget the plan needs at most twice as many waves as
      the requests that can fit amount to in budgets, plus one. */
  lemma {:induction false} PlanWaveBound(e: Plan)
    requires NonNegativeRequests(e) && PositiveBudget(e.budget)
    ensures |PlanWaves(e)| as real
         <= 2.0 * Share(SmallLoad(e, Arrivals(|e.requests|)), e.budget) + 1.0
  {
    PlanIsPacked(e);
    WaveBound(e, PlanWaves(e));
  }
}
