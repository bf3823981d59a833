/** The waiting-time model and the cost rules of swe-rl/checkpoint_policy_runtime.py. */
module TailModel {

  function Max(x: real, y: real): real { if x >= y then x else y }

  // ----- Building the model -----

  datatype AdaptiveTailModel = AdaptiveTailModel(sortedWaits: seq<real>, prefixSums: seq<real>, budget: real)

  /** Models as they are built: one prefix sum more than waits. */
  type TailTable = m: AdaptiveTailModel | |m.prefixSums| == |m.sortedWaits| + 1
    witness AdaptiveTailModel([], [0.0], 0.0)

  predicate Ordered(xs: seq<real>)
  {
    forall i, j :: 0 <= i < j < |xs| ==> xs[i] <= xs[j]
  }

  function Positive(waits: seq<real>): seq<real>
  {
    if waits == [] then [] else (if waits[0] > 0.0 then [waits[0]] else []) + Positive(waits[1..])
  }

  function Insert(x: real, xs: seq<real>): (r: seq<real>)
    ensures |r| == |xs| + 1
    ensures forall k :: 0 <= k < |r| ==> r[k] == x || r[k] in xs
  {
    if xs == [] || x <= xs[0] then [x] + xs else [xs[0]] + Insert(x, xs[1..])
  }

  lemma {:induction false} InsertOrdered(x: real, xs: seq<real>)
    requires Ordered(xs)
    ensures Ordered(Insert(x, xs))
  {
    if xs != [] && x > xs[0] {
      InsertOrdered(x, xs[1..]);
    }
  }

  lemma {:induction false} InsertPermutes(x: real, xs: seq<real>)
    ensures multiset(Insert(x, xs)) == multiset(xs) + multiset{x}
  {
    if xs != [] && x > xs[0] {
      InsertPermutes(x, xs[1..]);
      assert xs == [xs[0]] + xs[1..];
    }
  }

  function Sorted(xs: seq<real>): (r: seq<real>)
    ensures Ordered(r) && multiset(r) == multiset(xs)
  {
    if xs == [] then []
    else
      assert xs == [xs[0]] + xs[1..];
      InsertOrdered(xs[0], Sorted(xs[1..]));
      InsertPermutes(xs[0], Sorted(xs[1..]));
      Insert(xs[0], Sorted(xs[1..]))
  }

  function Sum(xs: seq<real>): real
  {
    if xs == [] then 0.0 else Sum(xs[..|xs| - 1]) + xs[|xs| - 1]
  }

  /** Sorted waits with the sums of all their prefixes. */
  ghost predicate Valid(m: AdaptiveTailModel)
  {
    && Ordered(m.sortedWaits)
    && |m.prefixSums| == |m.sortedWaits| + 1
    && forall k :: 0 <= k < |m.prefixSums| ==> m.prefixSums[k] == Sum(m.sortedWaits[..k])
  }

  method FromWaits(waits: seq<real>, budget: real) returns (m: AdaptiveTailModel)
    ensures Models(m, waits) && m.budget == budget
  {
    var ordered := Sorted(Positive(waits));
    var prefixSums := [0.0];
    for i := 0 to |ordered|
      invariant |prefixSums| == i + 1
      invariant forall k :: 0 <= k <= i ==> prefixSums[k] == Sum(ordered[..k])
    {
      assert ordered[..i + 1][..i] == ordered[..i];
      prefixSums := prefixSums + [prefixSums[|prefixSums| - 1] + ordered[i]];
    }
    m := AdaptiveTailModel(ordered, prefixSums, budget);
  }

  // ----- Queries -----

  /** The number of entries not above x, by bisection between lo and hi. */
  function BisectRight(xs: seq<real>, x: real, lo: nat, hi: nat): (k: nat)
    requires lo <= hi <= |xs|
    ensures lo <= k <= hi
    ensures Ordered(xs) ==> (forall i :: lo <= i < k ==> xs[i] <= x) && (forall i :: k <= i < hi ==> xs[i] > x)
    decreases hi - lo
  {
    if lo == hi then lo
    else
      var mid := (lo + hi) / 2;
      if x < xs[mid] then BisectRight(xs, x, lo, mid) else BisectRight(xs, x, mid + 1, hi)
  }

  function ConditionalTailProbability(m: AdaptiveTailModel, waited: real, horizon: real): real
  {
    var n := |m.sortedWaits|;
    if n == 0 then 0.0
    else
      var lo := BisectRight(m.sortedWaits, waited, 0, n);
      if n - lo <= 0 then 0.0
      else (n - BisectRight(m.sortedWaits, waited + horizon, 0, n)) as real / (n - lo) as real
  }

  function ExpectedExposedOverhead(m: AdaptiveTailModel, waited: real): real
    requires |m.prefixSums| == |m.sortedWaits| + 1
  {
    var n := |m.sortedWaits|;
    if n == 0 then m.budget
    else
      var lo := BisectRight(m.sortedWaits, waited, 0, n);
      var survivors := n - lo;
      if survivors <= 0 then m.budget
      else
        var hi := BisectRight(m.sortedWaits, waited + m.budget, 0, n);
        if hi - lo <= 0 then 0.0
        else
          var partialSum := m.prefixSums[hi] - m.prefixSums[lo];
          Max(0.0, ((hi - lo) as real * (waited + m.budget) - partialSum) / survivors as real)
  }

  // ----- The naive reading -----

  /** How many waits last longer than x. */
  function Longer(waits: seq<real>, x: real): nat
  {
    if waits == [] then 0 else Longer(waits[..|waits| - 1], x) + (if waits[|waits| - 1] > x then 1 else 0)
  }

  /** What a checkpoint of the budget's length, started after `waited`, sticks out of a wait of length x. */
  function Exposed(x: real, waited: real, budget: real): real
  {
    if x > waited then Max(0.0, waited + budget - x) else 0.0
  }

  function TotalExposed(waits: seq<real>, waited: real, budget: real): real
  {
    if waits == [] then 0.0
    else TotalExposed(waits[..|waits| - 1], waited, budget) + Exposed(waits[|waits| - 1], waited, budget)
  }

  lemma {:induction false} NaiveConcat(a: seq<real>, b: seq<real>, w: real, budget: real)
    ensures Longer(a + b, w) == Longer(a, w) + Longer(b, w)
    ensures TotalExposed(a + b, w, budget) == TotalExposed(a, w, budget) + TotalExposed(b, w, budget)
  {
    if b == [] {
      assert a + b == a;
    } else {
      var n := |b| - 1;
      NaiveConcat(a, b[..n], w, budget);
      assert (a + b)[..|a + b| - 1] == a + b[..n];
    }
  }

  lemma {:induction false} NaiveOne(x: real, w: real, budget: real)
    ensures Longer([x], w) == (if x > w then 1 else 0) && TotalExposed([x], w, budget) == Exposed(x, w, budget)
  {
    assert [x][..0] == [];
  }

  lemma {:induction false} InsertNaive(x: real, xs: seq<real>, w: real, budget: real)
    ensures Longer(Insert(x, xs), w) == Longer([x], w) + Longer(xs, w)
    ensures TotalExposed(Insert(x, xs), w, budget) == TotalExposed([x], w, budget) + TotalExposed(xs, w, budget)
  {
    if xs == [] || x <= xs[0] {
      NaiveConcat([x], xs, w, budget);
    } else {
      InsertNaive(x, xs[1..], w, budget);
      NaiveConcat([xs[0]], Insert(x, xs[1..]), w, budget);
      NaiveConcat([xs[0]], xs[1..], w, budget);
      assert xs == [xs[0]] + xs[1..];
    }
  }

  /** Sorting changes neither count nor total. */
  lemma {:induction false} SortedNaive(xs: seq<real>, w: real, budget: real)
    ensures Longer(Sorted(xs), w) == Longer(xs, w) && TotalExposed(Sorted(xs), w, budget) == TotalExposed(xs, w, budget)
  {
    if xs != [] {
      SortedNaive(xs[1..], w, budget);
      InsertNaive(xs[0], Sorted(xs[1..]), w, budget);
      NaiveConcat([xs[0]], xs[1..], w, budget);
      assert xs == [xs[0]] + xs[1..];
    }
  }

  /** Dropping waits of zero and less changes nothing once the waited time is not negative. */
  lemma {:induction false} PositiveNaive(xs: seq<real>, w: real, budget: real)
    requires w >= 0.0
    ensures Longer(Positive(xs), w) == Longer(xs, w)
            && TotalExposed(Positive(xs), w, budget) == TotalExposed(xs, w, budget)
  {
    if xs != [] {
      PositiveNaive(xs[1..], w, budget);
      NaiveConcat([xs[0]], xs[1..], w, budget);
      NaiveConcat([xs[0]], Positive(xs[1..]), w, budget);
      NaiveOne(xs[0], w, budget);
      assert xs == [xs[0]] + xs[1..];
      if xs[0] <= 0.0 {
        assert Positive(xs) == Positive(xs[1..]);
      }
    }
  }

  // ----- The fast form computes the naive one -----

  lemma {:induction false} LongerByRank(xs: seq<real>, x: real, rank: nat, k: nat)
    requires rank <= |xs| && k <= |xs|
    requires (forall i :: 0 <= i < rank ==> xs[i] <= x) && (forall i :: rank <= i < |xs| ==> xs[i] > x)
    ensures Longer(xs[..k], x) == if k <= rank then 0 else k - rank
  {
    if k > 0 {
      LongerByRank(xs, x, rank, k - 1);
      assert xs[..k][..k - 1] == xs[..k - 1];
    }
  }

  lemma {:induction false} LongerIsRank(xs: seq<real>, x: real)
    requires Ordered(xs)
    ensures Longer(xs, x) == |xs| - BisectRight(xs, x, 0, |xs|)
  {
    LongerByRank(xs, x, BisectRight(xs, x, 0, |xs|), |xs|);
    assert xs[..|xs|] == xs;
  }

  /** Between the two ranks each wait contributes its gap to the end of the budget, elsewhere nothing. */
  lemma {:induction false} ExposedByRank(xs: seq<real>, w: real, budget: real, lo: nat, hi: nat, k: nat)
    requires lo <= hi <= |xs| && k <= |xs|
    requires (forall i :: 0 <= i < lo ==> xs[i] <= w) && (forall i :: lo <= i < |xs| ==> xs[i] > w)
    requires (forall i :: 0 <= i < hi ==> xs[i] <= w + budget) && (forall i :: hi <= i < |xs| ==> xs[i] > w + budget)
    ensures var l, h := if k < lo then k else lo, if k < hi then k else hi;
            TotalExposed(xs[..k], w, budget) == Times(h - l, w + budget) - (Sum(xs[..h]) - Sum(xs[..l]))
  {
    if k > 0 {
      ExposedByRank(xs, w, budget, lo, hi, k - 1);
      assert xs[..k][..k - 1] == xs[..k - 1];
      if lo < k <= hi {
        TimesSucc(k - 1 - lo, w + budget);
      }
      hide Times;
    } else {
      TimesZero(w + budget);
    }
  }

  function Times(c: nat, e: real): real { c as real * e }

  lemma TimesSucc(c: nat, e: real)
    ensures Times(c + 1, e) == Times(c, e) + e
  {
    assert (c as real + 1.0) * e == c as real * e + e;
  }

  lemma TimesZero(e: real)
    ensures Times(0, e) == 0.0
  {
  }

  lemma {:induction false} NothingExposed(xs: seq<real>, w: real, budget: real)
    requires forall i :: 0 <= i < |xs| ==> xs[i] <= w || xs[i] > w + budget
    ensures TotalExposed(xs, w, budget) == 0.0
  {
    if xs != [] {
      NothingExposed(xs[..|xs| - 1], w, budget);
    }
  }

  lemma {:induction false} TotalExposedRange(xs: seq<real>, w: real, budget: real)
    ensures 0.0 <= TotalExposed(xs, w, budget)
    ensures budget >= 0.0 ==> TotalExposed(xs, w, budget) <= Longer(xs, w) as real * budget
  {
    if xs != [] {
      var n := |xs| - 1;
      TotalExposedRange(xs[..n], w, budget);
      if xs[n] > w {
        var c := Longer(xs[..n], w) as real;
        assert Longer(xs, w) as real == c + 1.0;
        assert (c + 1.0) * budget == c * budget + budget;
      }
    }
  }

  lemma FastTotal(m: AdaptiveTailModel, w: real)
    requires Valid(m)
    ensures var n := |m.sortedWaits|;
            var lo, hi := BisectRight(m.sortedWaits, w, 0, n), BisectRight(m.sortedWaits, w + m.budget, 0, n);
            TotalExposed(m.sortedWaits, w, m.budget)
            == if hi <= lo then 0.0 else Times(hi - lo, w + m.budget) - (m.prefixSums[hi] - m.prefixSums[lo])
  {
    var xs := m.sortedWaits;
    var n := |xs|;
    var lo, hi := BisectRight(xs, w, 0, n), BisectRight(xs, w + m.budget, 0, n);
    hide Times, TotalExposed, Sum, BisectRight, Exposed;
    assert TotalExposed(xs[..n], w, m.budget) == TotalExposed(xs, w, m.budget) by { assert xs[..n] == xs; }
    if hi <= lo {
      hide Valid;
      NothingExposed(xs, w, m.budget);
    } else {
      assert m.prefixSums[hi] == Sum(xs[..hi]) && m.prefixSums[lo] == Sum(xs[..lo]);
      hide Valid;
      ExposedByRank(xs, w, m.budget, lo, hi, n);
    }
  }

  /** The model of a list of recorded waits. */
  ghost predicate Models(m: AdaptiveTailModel, waits: seq<real>): (ok: bool)
    ensures ok ==> |m.prefixSums| == |m.sortedWaits| + 1
  {
    Valid(m) && m.sortedWaits == Sorted(Positive(waits))
  }

  lemma {:induction false} RecordedLonger(waits: seq<real>, m: AdaptiveTailModel, x: real)
    requires Models(m, waits) && x >= 0.0
    ensures Longer(waits, x) == |m.sortedWaits| - BisectRight(m.sortedWaits, x, 0, |m.sortedWaits|)
  {
    hide Longer, BisectRight, Positive, Sorted, TotalExposed;
    SortedNaive(Positive(waits), x, m.budget);
    PositiveNaive(waits, x, m.budget);
    LongerIsRank(m.sortedWaits, x);
  }

  lemma RecordedTotal(waits: seq<real>, m: AdaptiveTailModel, w: real)
    requires Models(m, waits) && w >= 0.0
    ensures var n := |m.sortedWaits|;
            var lo, hi := BisectRight(m.sortedWaits, w, 0, n), BisectRight(m.sortedWaits, w + m.budget, 0, n);
            TotalExposed(waits, w, m.budget)
            == if hi <= lo then 0.0 else Times(hi - lo, w + m.budget) - (m.prefixSums[hi] - m.prefixSums[lo])
  {
    hide Longer, BisectRight, Positive, Sorted, TotalExposed, Times;
    SortedNaive(Positive(waits), w, m.budget);
    PositiveNaive(waits, w, m.budget);
    FastTotal(m, w);
  }

  /** Sorting, prefix sums and two bisections compute the mean exposed overhead over the recorded waits longer than the
      time waited, and the budget itself when there is none; for every budget, negative ones included. */
  lemma {:induction false} OverheadIsMean(waits: seq<real>, m: AdaptiveTailModel, waited: real)
    requires Models(m, waits) && waited >= 0.0
    ensures ExpectedExposedOverhead(m, waited)
         == if Longer(waits, waited) == 0 then m.budget
            else TotalExposed(waits, waited, m.budget) / Longer(waits, waited) as real
    ensures m.budget >= 0.0 ==> 0.0 <= ExpectedExposedOverhead(m, waited) <= m.budget
  {
    hide Models, Longer, TotalExposed, BisectRight, Times;
    RecordedLonger(waits, m, waited);
    if Longer(waits, waited) > 0 {
      RecordedTotal(waits, m, waited);
      TotalExposedRange(waits, waited, m.budget);
      OverheadFormula(m, waited, TotalExposed(waits, waited, m.budget));
      hide ExpectedExposedOverhead;
      Quotient(TotalExposed(waits, waited, m.budget), Longer(waits, waited) as real, m.budget);
    }
  }

  lemma OverheadFormula(m: AdaptiveTailModel, w: real, total: real)
    requires |m.prefixSums| == |m.sortedWaits| + 1 && total >= 0.0
    requires BisectRight(m.sortedWaits, w, 0, |m.sortedWaits|) < |m.sortedWaits|
    requires var n := |m.sortedWaits|;
             var lo, hi := BisectRight(m.sortedWaits, w, 0, n), BisectRight(m.sortedWaits, w + m.budget, 0, n);
             total == if hi <= lo then 0.0 else Times(hi - lo, w + m.budget) - (m.prefixSums[hi] - m.prefixSums[lo])
    ensures ExpectedExposedOverhead(m, w)
         == total / (|m.sortedWaits| - BisectRight(m.sortedWaits, w, 0, |m.sortedWaits|)) as real
  {
    hide BisectRight;
    Quotient(total, (|m.sortedWaits| - BisectRight(m.sortedWaits, w, 0, |m.sortedWaits|)) as real, 0.0);
  }

  lemma Quotient(t: real, c: real, b: real)
    requires c > 0.0 && t >= 0.0
    ensures t / c >= 0.0 && (t <= c * b ==> t / c <= b)
  {
  }

  /** The conditional tail probability is the share of the waits longer than the time waited that also outlast the
      horizon, for every horizon that ends after zero. */
  lemma TailProbabilityIsRatio(waits: seq<real>, m: AdaptiveTailModel, waited: real, horizon: real)
    requires Models(m, waits) && waited >= 0.0 && waited + horizon >= 0.0
    ensures ConditionalTailProbability(m, waited, horizon)
         == if Longer(waits, waited) == 0 then 0.0
            else Longer(waits, waited + horizon) as real / Longer(waits, waited) as real
  {
    hide Models, Longer, BisectRight;
    RecordedLonger(waits, m, waited);
    RecordedLonger(waits, m, waited + horizon);
  }

  /** It never grows with the horizon, and is a probability for a horizon that is not negative. */
  lemma TailProbabilityFalls(waits: seq<real>, m: AdaptiveTailModel, waited: real, horizon: real, further: real)
    requires Models(m, waits) && waited >= 0.0 && waited + horizon >= 0.0 && further >= horizon
    ensures ConditionalTailProbability(m, waited, further) <= ConditionalTailProbability(m, waited, horizon)
    ensures horizon >= 0.0 ==> 0.0 <= ConditionalTailProbability(m, waited, horizon) <= 1.0
  {
    hide Models, Longer, ConditionalTailProbability;
    TailProbabilityIsRatio(waits, m, waited, horizon);
    TailProbabilityIsRatio(waits, m, waited, further);
    if Longer(waits, waited) > 0 {
      var c := Longer(waits, waited) as real;
      LongerFalls(waits, waited + horizon, waited + further);
      LongerFalls(waits, waited, waited + horizon);
      RatioMonotone(Longer(waits, waited + further) as real, Longer(waits, waited + horizon) as real, c);
      RatioMonotone(Longer(waits, waited + horizon) as real, c, c);
    }
  }

  lemma RatioMonotone(x: real, y: real, c: real)
    requires c > 0.0
    ensures x <= y ==> x / c <= y / c
    ensures x >= 0.0 ==> x / c >= 0.0
    ensures c / c == 1.0
  {
  }

  lemma {:induction false} LongerFalls(xs: seq<real>, x: real, y: real)
    ensures x <= y ==> Longer(xs, y) <= Longer(xs, x)
  {
    if xs != [] {
      LongerFalls(xs[..|xs| - 1], x, y);
    }
  }

  // ----- Cost rules -----

  function Redo(cumulative: real, protectedCost: real): real
  {
    Max(0.0, cumulative - protectedCost)
  }

  function RedoReplayCost(cumulativeEnv: real, protectedEnv: real, cumulativeLlm: real, protectedLlm: real): real
  {
    Redo(cumulativeEnv, protectedEnv) + Redo(cumulativeLlm, protectedLlm)
  }

  function ExpectedBenefit(failureProbability: real, tailProbability: real, redoCost: real): real
  {
    Max(0.0, failureProbability * tailProbability * redoCost)
  }

  predicate ShouldProbe(step: nat, attempted: bool, submitted: bool, deltaEnv: real, stepsSince: int,
                        benefit: real, overhead: real, minDeltaEnv: real, minSteps: int)
  {
    && step >= 3
    && !attempted && !submitted
    && deltaEnv >= minDeltaEnv
    && stepsSince >= minSteps
    && benefit > overhead
  }
}
