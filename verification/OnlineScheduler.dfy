/** The scheduler object: its methods update the fields in place and do exactly what the admission rules say. */
module OnlineScheduler {
  import opened Sequences
  import opened SchedulerRules
  import SchedulerRuns

  // ----- Live profile updates -----

  /** The first `left` waiting prompts of a key get the new prediction and a fresh block counter. */
  function Refreshed(pending: seq<Pending>, key: string, prediction: (ResourceVector, bool),
                     left: nat): (r: seq<Pending>)
    ensures |r| == |pending|
  {
    if pending == [] || left == 0 then pending
    else if pending[0].prompt.dataKey != key then [pending[0]] + Refreshed(pending[1..], key, prediction, left)
    else [Repriced(pending[0], prediction)] + Refreshed(pending[1..], key, prediction, left - 1)
  }

  function Repriced(q: Pending, prediction: (ResourceVector, bool)): Pending
  {
    Pending(q.prompt.(predicted := prediction.0, hasHistory := prediction.1), 0)
  }

  function CountKey(pending: seq<Pending>, key: string): nat
  {
    if pending == [] then 0 else (if pending[0].prompt.dataKey == key then 1 else 0) + CountKey(pending[1..], key)
  }

  /** Which waiting prompts a live update reaches: those of its key with fewer than `left` of that key before them. */
  lemma {:induction false} RefreshedAt(pending: seq<Pending>, key: string, prediction: (ResourceVector, bool),
                                       left: nat, i: nat)
    requires i < |pending|
    ensures var q, r := pending[i], Refreshed(pending, key, prediction, left)[i];
            if q.prompt.dataKey == key && CountKey(pending[..i], key) < left then
              && r.blocked == 0 && r.prompt.predicted == prediction.0 && r.prompt.hasHistory == prediction.1
              && r.prompt.id == q.prompt.id && r.prompt.dataKey == q.prompt.dataKey
              && r.prompt.createdAt == q.prompt.createdAt
            else r == q
  {
    if i > 0 && left > 0 {
      assert pending[..i][1..] == pending[1..][..i - 1];
      RefreshedAt(pending[1..], key, prediction, if pending[0].prompt.dataKey == key then left - 1 else left, i - 1);
      if left == 1 && pending[0].prompt.dataKey == key {
        assert Refreshed(pending[1..], key, prediction, 0) == pending[1..];
      }
    }
  }

  /** A live update is a repricing step of the runs: it keeps every prompt's identity and place in line. */
  lemma {:induction false} RefreshedIsRepredicted(pending: seq<Pending>, key: string,
                                                  prediction: (ResourceVector, bool), left: nat)
    requires Reservable(prediction.0) && forall i :: 0 <= i < |pending| ==> Reservable(pending[i].prompt.predicted)
    ensures SchedulerRuns.Repredicted(pending, Refreshed(pending, key, prediction, left))
  {
    forall i | 0 <= i < |pending|
      ensures Refreshed(pending, key, prediction, left)[i].prompt.id == pending[i].prompt.id
      ensures Reservable(Refreshed(pending, key, prediction, left)[i].prompt.predicted)
    {
      RefreshedAt(pending, key, prediction, left, i);
    }
  }

  lemma {:induction false} RefreshedConcat(a: seq<Pending>, b: seq<Pending>, key: string,
                                           prediction: (ResourceVector, bool), left: nat)
    requires CountKey(a, key) <= left
    ensures Refreshed(a + b, key, prediction, left)
         == Refreshed(a, key, prediction, left) + Refreshed(b, key, prediction, left - CountKey(a, key))
  {
    if a == [] {
      assert a + b == b;
    } else {
      assert (a + b)[1..] == a[1..] + b;
      if left > 0 {
        RefreshedConcat(a[1..], b, key, prediction, if a[0].prompt.dataKey == key then left - 1 else left);
      }
    }
  }

  /** The loop over the line, which stops once it has updated `left` requests. */
  method Refresh(before: seq<Pending>, key: string, prediction: (ResourceVector, bool), left: nat)
    returns (pending: seq<Pending>)
    requires left > 0
    ensures pending == Refreshed(before, key, prediction, left)
  {
    pending := before;
    var remaining := left;
    hide Refreshed, CountKey, Repriced;
    RefreshNone(before, key, prediction, left);
    for i := 0 to |before|
      invariant |pending| == |before| && remaining > 0
      invariant CountKey(before[..i], key) + remaining == left
      invariant pending == Refreshed(before[..i], key, prediction, left) + before[i..]
    {
      RefreshStep(before, i, key, prediction, left);
      if pending[i].prompt.dataKey == key {
        pending := pending[i := Repriced(pending[i], prediction)];
        remaining := remaining - 1;
        if remaining <= 0 {
          RefreshExhausted(before, i + 1, key, prediction, left);
          return;
        }
      }
    }
    assert before[..|before|] == before;
  }

  lemma {:induction false} RefreshNone(before: seq<Pending>, key: string, prediction: (ResourceVector, bool), left: nat)
    ensures CountKey(before[..0], key) == 0
    ensures before == Refreshed(before[..0], key, prediction, left) + before[0..]
  {
  }

  // ----- Selection -----

  /** The first position of the greatest value, as a stable descending sort puts it first. */
  method FirstGreatest(xs: seq<real>) returns (k: nat)
    requires xs != []
    ensures k < |xs|
    ensures forall j :: 0 <= j < |xs| ==> xs[j] < xs[k] || (xs[j] == xs[k] && k <= j)
  {
    k := 0;
    for i := 1 to |xs|
      invariant k < i
      invariant forall j :: 0 <= j < i ==> xs[j] < xs[k] || (xs[j] == xs[k] && k <= j)
    {
      if xs[i] > xs[k] {
        k := i;
      }
    }
  }

  class OnlineEnvDockerScheduler {
    const cfg: Config
    var pending: seq<Pending>
    var activePrompts: map<nat, Prompt>
    var activePredicted: ResourceVector
    var admittedSinceRefresh: nat

    function View(): State
      reads this
    {
      State(pending, activePrompts, activePredicted, admittedSinceRefresh)
    }

    constructor (cfg: Config)
      ensures this.cfg == cfg && View() == State([], map[], ZERO, 0)
    {
      this.cfg := cfg;
      pending, activePrompts, activePredicted, admittedSinceRefresh := [], map[], ZERO, 0;
    }

    method Enqueue(p: Prompt)
      modifies this`pending
      ensures View() == old(View()).(pending := old(pending) + [Pending(p, 0)])
    {
      pending := pending + [Pending(p, 0)];
    }

    method MarkAdmitted(p: Prompt)
      modifies this
      ensures View() == Mark(old(View()), p)
    {
      pending := Without(pending, p.id);
      activePredicted := activePredicted.Plus(p.predicted);
      activePrompts := activePrompts[p.id := p];
      admittedSinceRefresh := admittedSinceRefresh + 1;
    }

    method ResetAdmissionWindow()
      modifies this`admittedSinceRefresh
      ensures View() == old(View()).(admittedInWindow := 0)
    {
      admittedSinceRefresh := 0;
    }

    /** Puts the head of the line back behind at most `requeueOffset` others, with a fresh block counter. */
    method DeferHeadRequest()
      requires |pending| > 1
      modifies this`pending
      ensures View() == Deferred(cfg, old(View()))
    {
      var head := Pending(pending[0].prompt, 0);
      ghost var before := pending;
      var at := InsertAt(cfg, |pending|);
      pending := pending[1..];
      assert pending[..at] == before[1..at + 1] && pending[at..] == before[at + 1..];
      pending := pending[..at] + [head] + pending[at..];
    }

    method AdmitHeadOfLine(budget: ResourceVector) returns (r: Option<Prompt>)
      requires pending != [] && Halts(cfg, View(), budget)
      modifies this
      ensures match HeadOfLine(cfg, old(View()), budget)
              case Wait(q) => r == None && View() == old(View()).(pending := q)
              case Admit(q) => r == Some(q[0].prompt) && View() == Mark(old(View()).(pending := q), q[0].prompt)
    {
      while pending != []
        invariant pending != [] && Halts(cfg, View(), budget)
        invariant View() == old(View()).(pending := pending)
        invariant HeadOfLine(cfg, View(), budget) == HeadOfLine(cfg, old(View()), budget)
        decreases Effort(cfg, View(), budget)
      {
        ghost var s := View();
        var head := pending[0].prompt;
        if !head.hasHistory && cfg.unknownCap > 0 && |Unknown(activePrompts)| >= cfg.unknownCap {
          return None;
        }
        if Fits(cfg, activePredicted, head.predicted, budget) || Forced(cfg, activePredicted, head.predicted, budget) {
          pending := pending[0 := Pending(head, 0)];
          MarkAdmitted(head);
          return Some(head);
        }
        pending := pending[0 := Pending(head, pending[0].blocked + 1)];
        if cfg.requeueThreshold > 0 && pending[0].blocked >= cfg.requeueThreshold && |pending| > 1 {
          DeferralProgress(cfg, s, budget);
          DeferHeadRequest();
          assert View() == Deferred(cfg, s);
        } else {
          return None;
        }
      }
      r := None;
    }

    /** One admission attempt; `score` is the packing score. */
    method AdmitNextUnlocked(budget: ResourceVector, startupCap: int, score: Prompt -> real) returns (r: Option<Prompt>)
      requires cfg.preserveOrder && pending != [] && !Closed(cfg, View(), startupCap) ==> Halts(cfg, View(), budget)
      modifies this
      ensures AdmitNext(cfg, old(View()), budget, startupCap, View(), r)
    {
      if pending == [] || Closed(cfg, View(), startupCap) {
        return None;
      }
      if cfg.preserveOrder {
        r := AdmitHeadOfLine(budget);
        return;
      }
      ghost var s := View();
      var choice := ChooseReordered(budget, score);
      assert ReorderChoice(cfg, s, budget, score, choice);
      if choice == None {
        return None;
      }
      var p := pending[choice.value].prompt;
      MarkAdmitted(p);
      r := Some(p);
    }

    /** Every candidate is scored; when there is none the oldest forced request is taken. */
    method ChooseReordered(budget: ResourceVector, score: Prompt -> real) returns (choice: Option<nat>)
      ensures ReorderChoice(cfg, View(), budget, score, choice)
    {
      var candidates, oversizedWaiting := CollectCandidates(budget);
      hide Candidate, Waiting;
      if candidates != [] {
        var k := FirstGreatest(Scores(pending, candidates, score));
        ChooseCandidate(cfg, View(), budget, candidates, oversizedWaiting, score, k);
        choice := Some(candidates[k]);
      } else if oversizedWaiting != [] {
        var k := FirstGreatest(Scores(pending, oversizedWaiting, Age));
        ChooseOversized(cfg, View(), budget, candidates, oversizedWaiting, score, k);
        choice := Some(oversizedWaiting[k]);
      } else {
        choice := None;
      }
    }

    method CollectCandidates(budget: ResourceVector) returns (candidates: seq<nat>, oversizedWaiting: seq<nat>)
      ensures Listed(cfg, View(), budget, |pending|, candidates, oversizedWaiting)
    {
      candidates, oversizedWaiting := [], [];
      for n := 0 to |pending|
        invariant Listed(cfg, View(), budget, n, candidates, oversizedWaiting)
      {
        ListedStep(cfg, View(), budget, n, candidates, oversizedWaiting);
        hide Listed;
        var p := pending[n].prompt;
        if Eligible(cfg, View(), p) {
          if Fits(cfg, activePredicted, p.predicted, budget) {
            candidates := candidates + [n];
          } else if Forced(cfg, activePredicted, p.predicted, budget) {
            oversizedWaiting := oversizedWaiting + [n];
          }
        }
      }
    }

    method RefreshPendingPredictions(key: string, prediction: (ResourceVector, bool))
      modifies this`pending
      ensures View() == old(View()).(pending :=
                Refreshed(old(pending), key, prediction, if cfg.windowCap > 1 then cfg.windowCap else 1))
    {
      pending := Refresh(pending, key, prediction, if cfg.windowCap > 1 then cfg.windowCap else 1);
    }

    /** Releases a finished prompt; with live profile updates on, `live` carries the new prediction of its key. */
    method FinishPrompt(id: nat, live: Option<(ResourceVector, bool)>)
      modifies this
      ensures id !in old(activePrompts) ==> View() == old(View())
      ensures id in old(activePrompts) ==>
                View() == Finish(old(View()), id).(pending :=
                  if live.None? then old(pending)
                  else Refreshed(old(pending), old(activePrompts)[id].dataKey, live.value,
                                 if cfg.windowCap > 1 then cfg.windowCap else 1))
    {
      if id !in activePrompts {
        return;
      }
      var finished := activePrompts[id];
      activePrompts := activePrompts - {id};
      activePredicted := activePredicted.Minus(finished.predicted);
      if live.Some? {
        RefreshPendingPredictions(finished.dataKey, live.value);
      }
      ResetAdmissionWindow();
    }
  }

  // ----- Steps of the loops -----

  predicate Increasing(xs: seq<nat>)
  {
    forall i, j :: 0 <= i < j < |xs| ==> xs[i] < xs[j]
  }

  function Age(p: Prompt): real { -p.createdAt }

  function Scores(pending: seq<Pending>, at: seq<nat>, score: Prompt -> real): (r: seq<real>)
    requires forall k :: 0 <= k < |at| ==> at[k] < |pending|
    ensures |r| == |at|
    ensures forall k :: 0 <= k < |at| ==> r[k] == score(pending[at[k]].prompt)
  {
    seq(|at|, k requires 0 <= k < |at| => score(pending[at[k]].prompt))
  }

  /** The candidates and the waiting oversized requests among the first n, in line order. */
  ghost predicate Listed(cfg: Config, s: State, budget: ResourceVector, n: nat, candidates: seq<nat>,
                         oversized: seq<nat>)
  {
    && n <= |s.pending|
    && Increasing(candidates) && Increasing(oversized)
    && (forall k :: 0 <= k < |candidates| ==> candidates[k] < n && Candidate(cfg, s, budget, candidates[k]))
    && (forall i :: 0 <= i < n && Candidate(cfg, s, budget, i) ==> i in candidates)
    && (forall k :: 0 <= k < |oversized| ==> oversized[k] < n && Waiting(cfg, s, budget, oversized[k]))
    && (forall i :: 0 <= i < n && Waiting(cfg, s, budget, i) ==> i in oversized)
  }

  lemma ListedStep(cfg: Config, s: State, budget: ResourceVector, n: nat, candidates: seq<nat>, oversized: seq<nat>)
    requires Listed(cfg, s, budget, n, candidates, oversized) && n < |s.pending|
    ensures Candidate(cfg, s, budget, n) ==> Listed(cfg, s, budget, n + 1, candidates + [n], oversized)
    ensures Waiting(cfg, s, budget, n) ==> Listed(cfg, s, budget, n + 1, candidates, oversized + [n])
    ensures !Candidate(cfg, s, budget, n) && !Waiting(cfg, s, budget, n) ==>
              Listed(cfg, s, budget, n + 1, candidates, oversized)
  {
    assert Candidate(cfg, s, budget, n) ==> !Waiting(cfg, s, budget, n);
    hide Candidate, Waiting;
  }

  lemma ChooseCandidate(cfg: Config, s: State, budget: ResourceVector, candidates: seq<nat>, oversized: seq<nat>,
                        score: Prompt -> real, k: nat)
    requires Listed(cfg, s, budget, |s.pending|, candidates, oversized) && k < |candidates|
    requires var xs := Scores(s.pending, candidates, score);
             forall j :: 0 <= j < |xs| ==> xs[j] < xs[k] || (xs[j] == xs[k] && k <= j)
    ensures ReorderChoice(cfg, s, budget, score, Some(candidates[k]))
  {
    hide Candidate, Waiting;
    var i := candidates[k];
    var xs := Scores(s.pending, candidates, score);
    forall j | 0 <= j < |s.pending| && Candidate(cfg, s, budget, j)
      ensures score(s.pending[j].prompt) < score(s.pending[i].prompt)
           || (score(s.pending[j].prompt) == score(s.pending[i].prompt) && i <= j)
    {
      var l :| 0 <= l < |candidates| && candidates[l] == j;
      assert xs[l] < xs[k] || (xs[l] == xs[k] && k <= l);
    }
  }

  lemma ChooseOversized(cfg: Config, s: State, budget: ResourceVector, candidates: seq<nat>, oversized: seq<nat>,
                        score: Prompt -> real, k: nat)
    requires Listed(cfg, s, budget, |s.pending|, candidates, oversized) && candidates == [] && k < |oversized|
    requires var xs := Scores(s.pending, oversized, Age);
             forall j :: 0 <= j < |xs| ==> xs[j] < xs[k] || (xs[j] == xs[k] && k <= j)
    ensures ReorderChoice(cfg, s, budget, score, Some(oversized[k]))
  {
    hide Candidate, Waiting;
    var i := oversized[k];
    var xs := Scores(s.pending, oversized, Age);
    forall j | 0 <= j < |s.pending| && Waiting(cfg, s, budget, j)
      ensures s.pending[i].prompt.createdAt < s.pending[j].prompt.createdAt
           || (s.pending[i].prompt.createdAt == s.pending[j].prompt.createdAt && i <= j)
    {
      var l :| 0 <= l < |oversized| && oversized[l] == j;
      assert xs[l] < xs[k] || (xs[l] == xs[k] && k <= l);
    }
  }

  lemma {:induction false} RefreshStep(before: seq<Pending>, i: nat, key: string, prediction: (ResourceVector, bool),
                                       left: nat)
    requires i < |before| && CountKey(before[..i], key) < left
    ensures var x := if before[i].prompt.dataKey == key then Repriced(before[i], prediction) else before[i];
            && CountKey(before[..i + 1], key)
               == CountKey(before[..i], key) + (if before[i].prompt.dataKey == key then 1 else 0)
            && Refreshed(before[..i + 1], key, prediction, left) == Refreshed(before[..i], key, prediction, left) + [x]
            && (Refreshed(before[..i], key, prediction, left) + before[i..])[i] == before[i]
            && (Refreshed(before[..i], key, prediction, left) + before[i..])[i := x]
               == Refreshed(before[..i + 1], key, prediction, left) + before[i + 1..]
  {
    assert before[..i + 1] == before[..i] + [before[i]];
    CountKeySnoc(before[..i], before[i], key);
    RefreshedConcat(before[..i], [before[i]], key, prediction, left);
    assert Refreshed([before[i]], key, prediction, left - CountKey(before[..i], key))
        == [if before[i].prompt.dataKey == key then Repriced(before[i], prediction) else before[i]];
    assert before[i..] == [before[i]] + before[i + 1..];
  }

  lemma {:induction false} RefreshExhausted(before: seq<Pending>, n: nat, key: string,
                                            prediction: (ResourceVector, bool), left: nat)
    requires n <= |before| && CountKey(before[..n], key) == left
    ensures Refreshed(before, key, prediction, left) == Refreshed(before[..n], key, prediction, left) + before[n..]
  {
    assert before == before[..n] + before[n..];
    RefreshedConcat(before[..n], before[n..], key, prediction, left);
  }

  lemma {:induction false} CountKeySnoc(a: seq<Pending>, x: Pending, key: string)
    ensures CountKey(a + [x], key) == CountKey(a, key) + (if x.prompt.dataKey == key then 1 else 0)
  {
    if a != [] {
      CountKeySnoc(a[1..], x, key);
      assert (a + [x])[1..] == a[1..] + [x];
    }
  }
}
