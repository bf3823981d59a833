/** Cutting a conversation to a token budget, as swe-rl/swe_context_manager.py does. */
module ContextManager {
  import opened Sequences
  import opened AgentLoop
  import AgentRuns

  /** The tokenizer's count of a message list, the omission text for n turns, and the limits. */
  datatype Setup = Setup(count: seq<Message> -> nat, omitText: nat -> string, maxInput: int, headRatio: real)
  {
    function Marker(n: nat): Message { Message(User, omitText(n)) }
  }

  type Turn = seq<Message>

  // ----- Turns -----

  /** Pairs of a reply and its observation; any other message is a turn of its own. */
  function TurnPairs(body: seq<Message>): (r: seq<Turn>)
  {
    if body == [] then []
    else if |body| > 1 && body[0].role == Assistant && body[1].role == User then [body[..2]] + TurnPairs(body[2..])
    else [body[..1]] + TurnPairs(body[1..])
  }

  /** No message is lost or moved. */
  lemma {:induction false} TurnsCoverBody(body: seq<Message>)
    ensures Flatten(TurnPairs(body)) == body
  {
    if body != [] {
      var k := if |body| > 1 && body[0].role == Assistant && body[1].role == User then 2 else 1;
      TurnsCoverBody(body[k..]);
      assert TurnPairs(body) == [body[..k]] + TurnPairs(body[k..]);
      assert body == body[..k] + body[k..];
    }
  }

  method SplitIntoTurnPairs(messages: seq<Message>) returns (turns: seq<Turn>)
    ensures turns == TurnPairs(Rest(messages))
  {
    var body := Rest(messages);
    turns := [];
    var i := 0;
    while i < |body|
      invariant i <= |body| && turns + TurnPairs(body[i..]) == TurnPairs(body)
    {
      TurnStep(turns, body, i);
      hide TurnPairs;
      if i + 1 < |body| && body[i].role == Assistant && body[i + 1].role == User {
        turns := turns + [[body[i], body[i + 1]]];
        i := i + 2;
      } else {
        turns := turns + [[body[i]]];
        i := i + 1;
      }
    }
  }

  lemma TurnStep(turns: seq<Turn>, body: seq<Message>, i: nat)
    requires i < |body|
    ensures turns + TurnPairs(body[i..])
         == if i + 1 < |body| && body[i].role == Assistant && body[i + 1].role == User
            then turns + [[body[i], body[i + 1]]] + TurnPairs(body[i + 2..])
            else turns + [[body[i]]] + TurnPairs(body[i + 1..])
  {
    var tail := body[i..];
    if i + 1 < |body| && body[i].role == Assistant && body[i + 1].role == User {
      assert tail[..2] == [body[i], body[i + 1]] && tail[2..] == body[i + 2..];
    } else {
      assert tail[..1] == [body[i]] && tail[1..] == body[i + 1..];
    }
  }

  function Fixed(messages: seq<Message>): seq<Message> { Take(messages, 2) }
  function Rest(messages: seq<Message>): seq<Message> { if |messages| <= 2 then [] else messages[2..] }

  // ----- Costs and budgets -----

  const WRAPPER := [Message(System, "S"), Message(User, "U")]

  function TurnCost(s: Setup, turn: Turn): nat
  {
    var base, full := s.count(WRAPPER), s.count(WRAPPER + turn);
    if full < base then 0 else full - base
  }

  function Costs(s: Setup, turns: seq<Turn>): (r: seq<nat>)
    ensures |r| == |turns| && forall i :: 0 <= i < |turns| ==> r[i] == TurnCost(s, turns[i])
  {
    seq(|turns|, i requires 0 <= i < |turns| => TurnCost(s, turns[i]))
  }

  /** Rounding towards zero. */
  function Truncated(x: real): (n: int)
    ensures if x >= 0.0 then 0 <= n && n as real <= x < n as real + 1.0 else n <= 0 && n as real - 1.0 < x <= n as real
  {
    if x >= 0.0 then x.Floor else -((-x).Floor)
  }

  /** The head grows while its turns fit its budget. */
  function HeadEnd(costs: seq<nat>, budget: int, i: nat): (h: nat)
    requires i <= |costs|
    ensures i <= h <= |costs|
    ensures h > i ==> Sum(costs[..h]) <= budget
    ensures h < |costs| ==> Sum(costs[..h + 1]) > budget
    decreases |costs| - i
  {
    if i < |costs| && Sum(costs[..i + 1]) <= budget then HeadEnd(costs, budget, i + 1) else i
  }

  /** The tail grows towards the head while its turns fit its budget. */
  function TailStart(costs: seq<nat>, budget: int, head: nat, i: nat): (t: nat)
    requires head <= i <= |costs|
    ensures head <= t <= i
    ensures t < i ==> Sum(costs[t..]) <= budget
    ensures t > head ==> Sum(costs[t - 1..]) > budget
    decreases i
  {
    if i > head && Sum(costs[i - 1..]) <= budget then TailStart(costs, budget, head, i - 1) else i
  }

  method FillHead(costs: seq<nat>, budget: int) returns (headEnd: nat)
    ensures headEnd == HeadEnd(costs, budget, 0)
  {
    headEnd := 0;
    var usedHead := 0;
    for i := 0 to |costs|
      invariant headEnd == i && usedHead == Sum(costs[..i])
      invariant HeadEnd(costs, budget, i) == HeadEnd(costs, budget, 0)
    {
      SumPrefixStep(costs, i);
      if usedHead + costs[i] <= budget {
        usedHead := usedHead + costs[i];
        headEnd := i + 1;
      } else {
        break;
      }
    }
  }

  lemma SumOfNone(costs: seq<nat>)
    ensures Sum(costs[|costs|..]) == 0
  {
  }

  lemma SumSuffixStep(costs: seq<nat>, i: nat)
    requires i < |costs|
    ensures Sum(costs[i..]) == costs[i] + Sum(costs[i + 1..])
  {
    assert costs[i..][1..] == costs[i + 1..];
  }

  method FillTail(costs: seq<nat>, budget: int, headEnd: nat) returns (tailStart: nat)
    requires headEnd <= |costs|
    ensures tailStart == TailStart(costs, budget, headEnd, |costs|)
  {
    tailStart := |costs|;
    var usedTail := 0;
    hide Sum;
    SumOfNone(costs);
    var i := |costs|;
    while i > 0
      invariant headEnd <= i <= |costs| && tailStart == i && usedTail == Sum(costs[i..])
      invariant TailStart(costs, budget, headEnd, i) == TailStart(costs, budget, headEnd, |costs|)
      decreases i
    {
      if i - 1 < headEnd {
        break;
      }
      SumSuffixStep(costs, i - 1);
      if usedTail + costs[i - 1] <= budget {
        usedTail := usedTail + costs[i - 1];
        tailStart := i - 1;
      } else {
        break;
      }
      i := i - 1;
    }
  }

  // ----- The managed conversation -----

  function Available(s: Setup, messages: seq<Message>): int
  {
    s.maxInput - s.count(Fixed(messages) + [s.Marker(0)])
  }

  function HeadBudget(s: Setup, messages: seq<Message>): int
  {
    Truncated(Available(s, messages) as real * s.headRatio)
  }

  /** Where the omitted turns start and end. */
  function Omission(s: Setup, messages: seq<Message>): (r: (nat, nat))
    ensures r.0 <= r.1 <= |TurnPairs(Rest(messages))|
  {
    var costs := Costs(s, TurnPairs(Rest(messages)));
    var head := HeadEnd(costs, HeadBudget(s, messages), 0);
    (head, TailStart(costs, Available(s, messages) - HeadBudget(s, messages), head, |costs|))
  }

  function Managed(s: Setup, messages: seq<Message>): seq<Message>
  {
    var turns := TurnPairs(Rest(messages));
    if s.count(messages) <= s.maxInput || |turns| <= 1 then messages
    else if Available(s, messages) <= 0 then Fixed(messages) + [s.Marker(|turns|)]
    else
      var (h, t) := Omission(s, messages);
      if t - h <= 0 then messages
      else Fixed(messages) + Flatten(turns[..h]) + [s.Marker(t - h)] + Flatten(turns[t..])
  }

  method GetContextMessages(s: Setup, messages: seq<Message>) returns (result: seq<Message>)
    ensures result == Managed(s, messages)
  {
    hide Omission, TurnPairs, Available, Fixed, Rest, Flatten;
    if s.count(messages) <= s.maxInput {
      return messages;
    }
    var turns := SplitIntoTurnPairs(messages);
    if |turns| <= 1 {
      return messages;
    }
    var available := Available(s, messages);
    if available <= 0 {
      return Fixed(messages) + [s.Marker(|turns|)];
    }
    var headEnd, tailStart := FindOmission(s, messages, turns, available);
    if tailStart - headEnd <= 0 {
      return messages;
    }
    result := Assemble(Fixed(messages), turns, headEnd, s.Marker(tailStart - headEnd), tailStart);
  }

  method FindOmission(s: Setup, messages: seq<Message>, turns: seq<Turn>, available: int)
    returns (headEnd: nat, tailStart: nat)
    requires turns == TurnPairs(Rest(messages)) && available == Available(s, messages)
    ensures (headEnd, tailStart) == Omission(s, messages)
  {
    hide HeadEnd, TailStart, TurnPairs, Available;
    var headBudget := HeadBudget(s, messages);
    hide HeadBudget;
    var costs := Costs(s, turns);
    headEnd := FillHead(costs, headBudget);
    tailStart := FillTail(costs, available - headBudget, headEnd);
  }

  method Assemble(fixed: seq<Message>, turns: seq<Turn>, headEnd: nat, omitted: Message, tailStart: nat)
    returns (result: seq<Message>)
    requires headEnd <= tailStart <= |turns|
    ensures result == fixed + Flatten(turns[..headEnd]) + [omitted] + Flatten(turns[tailStart..])
  {
    result := ExtendAll(fixed, turns[..headEnd]);
    result := result + [omitted];
    result := ExtendAll(result, turns[tailStart..]);
  }

  method ExtendAll(start: seq<Message>, turns: seq<Turn>) returns (result: seq<Message>)
    ensures result == start + Flatten(turns)
  {
    result := start;
    for i := 0 to |turns|
      invariant result == start + Flatten(turns[..i])
    {
      assert turns[..i + 1] == turns[..i] + [turns[i]];
      FlattenSnoc(turns[..i], turns[i]);
      result := result + turns[i];
    }
    assert turns[..|turns|] == turns;
  }

  // ----- What is kept, without the fills -----

  /** What is left for turns besides the first two messages and a marker for no turn. */
  function Room(s: Setup, messages: seq<Message>): int
    requires |messages| >= 2
  {
    s.maxInput - s.count([messages[0], messages[1], Message(User, s.omitText(0))])
  }

  /** The part of the room that the head may use. */
  function Share(s: Setup, room: int): real { room as real * s.headRatio }

  /** The head is as long as its share of the room allows. */
  predicate GreatestHead(s: Setup, room: int, costs: seq<nat>, h: nat)
  {
    && h <= |costs| && Sum(costs[..h]) as real <= Share(s, room)
    && (h < |costs| ==> Sum(costs[..h + 1]) as real > Share(s, room))
  }

  /** The tail is as long as the rest of the room, rounded up, allows, and begins behind the head. */
  predicate GreatestTail(s: Setup, room: int, costs: seq<nat>, h: nat, t: nat)
  {
    && h <= t <= |costs| && Sum(costs[t..]) as real < room as real - Share(s, room) + 1.0
    && (h < t ==> Sum(costs[t - 1..]) as real >= room as real - Share(s, room) + 1.0)
  }

  lemma ShareBudget(s: Setup, room: int)
    requires 0.0 <= s.headRatio <= 1.0 && room > 0
    ensures var budget := Truncated(Share(s, room));
            0 <= budget <= room && budget as real <= Share(s, room) < budget as real + 1.0
  {
    RatioBudget(room, s.headRatio);
    var x := Share(s, room);
    assert x >= 0.0;
    hide Share;
  }

  lemma HeadFits(x: real, budget: int, n: int)
    requires budget as real <= x < budget as real + 1.0
    ensures n <= budget <==> n as real <= x
  {
  }

  lemma TailFits(x: real, budget: int, room: int, n: int)
    requires budget as real <= x < budget as real + 1.0
    ensures n <= room - budget <==> (n as real) < room as real - x + 1.0
  {
  }

  lemma {:induction false} GreatestParts(s: Setup, room: int, costs: seq<nat>, h: nat, t: nat)
    requires 0.0 <= s.headRatio <= 1.0 && room > 0
    requires var budget := Truncated(Share(s, room));
             h == HeadEnd(costs, budget, 0) && t == TailStart(costs, room - budget, h, |costs|)
    ensures GreatestHead(s, room, costs, h) && GreatestTail(s, room, costs, h, t)
  {
    hide Share, Truncated, HeadEnd, TailStart, Sum;
    var x, budget := Share(s, room), Truncated(Share(s, room));
    ShareBudget(s, room);
    FillsWithin(costs, budget, room - budget);
    HeadFits(x, budget, Sum(costs[..h]));
    TailFits(x, budget, room, Sum(costs[t..]));
    if h < |costs| {
      HeadFits(x, budget, Sum(costs[..h + 1]));
    }
    if h < t {
      TailFits(x, budget, room, Sum(costs[t - 1..]));
    }
  }

  /** What a turn costs is what it adds to a conversation of one system and one user message, at least nothing. */
  lemma TurnCostIs(s: Setup, turn: Turn)
    ensures var alone := [Message(System, "S"), Message(User, "U")];
            TurnCost(s, turn) as int
            == if s.count(alone + turn) >= s.count(alone) then s.count(alone + turn) - s.count(alone) else 0
  {
  }

  /** What becomes of every conversation: one that fits, or has at most one turn, is returned unchanged; without room
      for any turn its first two messages and a marker for all turns are left; otherwise the greatest head and the
      greatest tail are kept, with a marker for the turns between them if there are any. */
  lemma ManagedExactly(s: Setup, messages: seq<Message>)
    returns (h: nat, t: nat)
    requires 0.0 <= s.headRatio <= 1.0
    ensures s.count(messages) <= s.maxInput || |TurnPairs(Rest(messages))| <= 1 ==> Managed(s, messages) == messages
    ensures s.count(messages) > s.maxInput && |TurnPairs(Rest(messages))| > 1 ==>
      var turns := TurnPairs(Rest(messages));
      && |messages| >= 2
      && var room := Room(s, messages);
      if room <= 0 then
        Managed(s, messages) == [messages[0], messages[1], Message(User, s.omitText(|turns|))]
      else
        && GreatestHead(s, room, Costs(s, turns), h) && GreatestTail(s, room, Costs(s, turns), h, t)
        && Managed(s, messages)
           == if h == t then messages
              else messages[..2] + Flatten(turns[..h]) + [Message(User, s.omitText(t - h))] + Flatten(turns[t..])
  {
    hide *;
    h, t := 0, 0;
    var turns := TurnPairs(Rest(messages));
    if s.count(messages) <= s.maxInput || |turns| <= 1 {
      Unchanged(s, messages);
    } else {
      TwoPrompts(s, messages, 0);
      RoomLeft(s, messages);
      var room := Room(s, messages);
      if room <= 0 {
        NothingKept(s, messages);
      } else {
        h, t := Omission(s, messages).0, Omission(s, messages).1;
        Filled(s, messages, room, h, t);
        Cut(s, messages, h, t);
      }
    }
  }

  lemma Unchanged(s: Setup, messages: seq<Message>)
    requires s.count(messages) <= s.maxInput || |TurnPairs(Rest(messages))| <= 1
    ensures Managed(s, messages) == messages
  {
  }

  lemma RoomLeft(s: Setup, messages: seq<Message>)
    requires |messages| >= 2
    ensures Room(s, messages) == Available(s, messages)
  {
    assert Fixed(messages) + [s.Marker(0)] == [messages[0], messages[1], Message(User, s.omitText(0))];
  }

  lemma NothingKept(s: Setup, messages: seq<Message>)
    requires s.count(messages) > s.maxInput && |TurnPairs(Rest(messages))| > 1 && Available(s, messages) <= 0
    ensures |messages| >= 2
    ensures Managed(s, messages)
         == [messages[0], messages[1], Message(User, s.omitText(|TurnPairs(Rest(messages))|))]
  {
    TwoPrompts(s, messages, |TurnPairs(Rest(messages))|);
    hide TurnPairs, Omission, Available;
  }

  lemma Filled(s: Setup, messages: seq<Message>, room: int, h: nat, t: nat)
    requires 0.0 <= s.headRatio <= 1.0 && room == Available(s, messages) > 0 && (h, t) == Omission(s, messages)
    ensures var costs := Costs(s, TurnPairs(Rest(messages)));
            GreatestHead(s, room, costs, h) && GreatestTail(s, room, costs, h, t)
  {
    hide TurnPairs, Rest, Costs, HeadEnd, TailStart, GreatestHead, GreatestTail, Truncated, Available, HeadBudget,
         Share;
    BudgetOfShare(s, messages);
    GreatestParts(s, room, Costs(s, TurnPairs(Rest(messages))), h, t);
  }

  lemma BudgetOfShare(s: Setup, messages: seq<Message>)
    ensures HeadBudget(s, messages) == Truncated(Share(s, Available(s, messages)))
  {
    var x := Available(s, messages);
    assert Share(s, x) == x as real * s.headRatio;
    hide Available;
  }

  lemma Cut(s: Setup, messages: seq<Message>, h: nat, t: nat)
    requires s.count(messages) > s.maxInput && |TurnPairs(Rest(messages))| > 1 && Available(s, messages) > 0
    requires (h, t) == Omission(s, messages)
    ensures h <= t <= |TurnPairs(Rest(messages))| && |messages| >= 2
    ensures var turns := TurnPairs(Rest(messages));
            Managed(s, messages)
            == if h == t then messages
               else messages[..2] + Flatten(turns[..h]) + [Message(User, s.omitText(t - h))] + Flatten(turns[t..])
  {
    hide *;
    OmissionBounds(s, messages);
    TwoPrompts(s, messages, 0);
    if h == t {
      NothingOmitted(s, messages, h, t);
    } else {
      ManagedIs(s, messages, TurnPairs(Rest(messages)), h, t);
      MarkerIs(s, t - h);
    }
  }

  lemma OmissionBounds(s: Setup, messages: seq<Message>)
    ensures Omission(s, messages).0 <= Omission(s, messages).1 <= |TurnPairs(Rest(messages))|
  {
    hide TurnPairs, Rest, Available;
  }

  lemma MarkerIs(s: Setup, n: nat)
    ensures s.Marker(n) == Message(User, s.omitText(n))
  {
  }

  lemma NothingOmitted(s: Setup, messages: seq<Message>, h: nat, t: nat)
    requires Available(s, messages) > 0 && (h, t) == Omission(s, messages) && h == t
    ensures Managed(s, messages) == messages
  {
    hide Omission, TurnPairs, Rest, Available;
  }

  lemma TwoPrompts(s: Setup, messages: seq<Message>, n: nat)
    requires |TurnPairs(Rest(messages))| > 1
    ensures |messages| >= 2 && Fixed(messages) == messages[..2]
    ensures Fixed(messages) + [s.Marker(n)] == [messages[0], messages[1], Message(User, s.omitText(n))]
  {
    assert |messages| > 2;
  }

  // ----- With an additive tokenizer -----

  function Tokens(ms: seq<Message>, tok: Message -> nat): nat
  {
    if ms == [] then 0 else tok(ms[0]) + Tokens(ms[1..], tok)
  }

  lemma {:induction false} TokensConcat(a: seq<Message>, b: seq<Message>, tok: Message -> nat)
    ensures Tokens(a + b, tok) == Tokens(a, tok) + Tokens(b, tok)
  {
    if a == [] {
      assert a + b == b;
    } else {
      TokensConcat(a[1..], b, tok);
      assert (a + b)[1..] == a[1..] + b;
    }
  }

  /** Every message costs its own tokens, and every conversation a fixed number more. */
  ghost predicate Additive(s: Setup, base: nat, tok: Message -> nat)
  {
    forall ms :: s.count(ms) == base + Tokens(ms, tok)
  }

  lemma {:induction false} TurnCostIsTokens(s: Setup, turn: Turn, base: nat, tok: Message -> nat)
    requires Additive(s, base, tok)
    ensures TurnCost(s, turn) == Tokens(turn, tok)
  {
    TokensConcat(WRAPPER, turn, tok);
  }

  lemma {:induction false} TurnsTokens(s: Setup, turns: seq<Turn>, base: nat, tok: Message -> nat)
    requires Additive(s, base, tok)
    ensures Tokens(Flatten(turns), tok) == Sum(Costs(s, turns))
  {
    if turns != [] {
      TurnsTokens(s, turns[1..], base, tok);
      TokensConcat(turns[0], Flatten(turns[1..]), tok);
      TurnCostIsTokens(s, turns[0], base, tok);
      assert Costs(s, turns)[1..] == Costs(s, turns[1..]);
    }
  }

  lemma RatioBudget(available: int, ratio: real)
    requires available > 0 && 0.0 <= ratio <= 1.0
    ensures 0 <= Truncated(available as real * ratio) <= available
  {
    var x := available as real * ratio;
    assert x >= 0.0 && available as real * (1.0 - ratio) >= 0.0;
    assert x <= available as real;
  }

  lemma CostSlices(s: Setup, turns: seq<Turn>, i: nat)
    requires i <= |turns|
    ensures Costs(s, turns[..i]) == Costs(s, turns)[..i] && Costs(s, turns[i..]) == Costs(s, turns)[i..]
  {
  }

  /** Both fills together stay within what is available. */
  lemma OmissionBudget(s: Setup, messages: seq<Message>)
    requires 0.0 <= s.headRatio <= 1.0 && Available(s, messages) > 0
    ensures var (costs, o) := (Costs(s, TurnPairs(Rest(messages))), Omission(s, messages));
            Sum(costs[..o.0]) + Sum(costs[o.1..]) <= Available(s, messages)
  {
    hide *;
    BudgetOfShare(s, messages);
    ShareBudget(s, Available(s, messages));
    OmissionIs(s, messages);
    FillsWithin(Costs(s, TurnPairs(Rest(messages))), HeadBudget(s, messages),
                Available(s, messages) - HeadBudget(s, messages));
  }

  lemma OmissionIs(s: Setup, messages: seq<Message>)
    ensures var costs, budget := Costs(s, TurnPairs(Rest(messages))), HeadBudget(s, messages);
            var h := HeadEnd(costs, budget, 0);
            Omission(s, messages) == (h, TailStart(costs, Available(s, messages) - budget, h, |costs|))
  {
    hide HeadEnd, TailStart, Costs, TurnPairs, Available, HeadBudget;
  }

  lemma {:induction false} FillsWithin(costs: seq<nat>, headBudget: int, tailBudget: int)
    requires headBudget >= 0 && tailBudget >= 0
    ensures var h := HeadEnd(costs, headBudget, 0);
            Sum(costs[..h]) <= headBudget && Sum(costs[TailStart(costs, tailBudget, h, |costs|)..]) <= tailBudget
  {
    hide HeadEnd, TailStart;
    assert costs[..0] == [] && costs[|costs|..] == [];
  }

  lemma {:induction false} ConversationTokens(messages: seq<Message>, turns: seq<Turn>, tok: Message -> nat)
    requires turns == TurnPairs(Rest(messages))
    ensures Tokens(messages, tok) == Tokens(Fixed(messages), tok) + Tokens(Flatten(turns), tok)
  {
    TurnsCoverBody(Rest(messages));
    TokensConcat(Fixed(messages), Rest(messages), tok);
    assert messages == Fixed(messages) + Rest(messages);
  }

  /** An over-budget conversation of several turns with room for some of them is cut to its two prompts, a prefix of
      its turns, a marker with the exact number of turns left out, and a suffix; something is always left out, and the
      result is within the limit but for the tokens by which that marker is longer than the marker for 0. */
  lemma ManagedFits(s: Setup, messages: seq<Message>, base: nat, tok: Message -> nat)
    requires Additive(s, base, tok) && 0.0 <= s.headRatio <= 1.0
    requires s.count(messages) > s.maxInput && |TurnPairs(Rest(messages))| > 1 && Available(s, messages) > 0
    ensures var turns := TurnPairs(Rest(messages));
            var (h, t) := Omission(s, messages);
            && h < t <= |turns|
            && Managed(s, messages) == Fixed(messages) + Flatten(turns[..h]) + [s.Marker(t - h)] + Flatten(turns[t..])
            && s.count(Managed(s, messages)) + tok(s.Marker(0)) <= s.maxInput + tok(s.Marker(t - h))
  {
    hide *;
    var turns := TurnPairs(Rest(messages));
    var (h, t) := Omission(s, messages);
    OmissionTokens(s, messages, turns, h, t, base, tok);
    ManagedIs(s, messages, turns, h, t);
    CountMarked(s, Fixed(messages), Flatten(turns[..h]), s.Marker(t - h), Flatten(turns[t..]), base, tok);
  }

  lemma ManagedIs(s: Setup, messages: seq<Message>, turns: seq<Turn>, h: nat, t: nat)
    requires s.count(messages) > s.maxInput && turns == TurnPairs(Rest(messages)) && |turns| > 1
             && Available(s, messages) > 0
    requires (h, t) == Omission(s, messages) && h < t
    ensures t <= |turns|
    ensures Managed(s, messages) == Fixed(messages) + Flatten(turns[..h]) + [s.Marker(t - h)] + Flatten(turns[t..])
  {
    hide Omission, TurnPairs, Rest, Fixed, Available, Flatten;
  }

  lemma {:induction false} CountMarked(s: Setup, a: seq<Message>, b: seq<Message>, m: Message, e: seq<Message>,
                                       base: nat, tok: Message -> nat)
    requires Additive(s, base, tok)
    ensures s.count(a + b + [m] + e) == base + Tokens(a, tok) + Tokens(b, tok) + tok(m) + Tokens(e, tok)
  {
    MarkedTokens(a, b, m, e, tok);
    hide Tokens;
  }

  /** The tokens of the turns kept fit what the prompts and the marker for 0 leave; all the turns together do not. */
  lemma OmissionTokens(s: Setup, messages: seq<Message>, turns: seq<Turn>, h: nat, t: nat, base: nat,
                       tok: Message -> nat)
    requires Additive(s, base, tok) && 0.0 <= s.headRatio <= 1.0 && Available(s, messages) > 0
    requires turns == TurnPairs(Rest(messages)) && (h, t) == Omission(s, messages) && s.count(messages) > s.maxInput
    ensures h < t
    ensures base + Tokens(Fixed(messages), tok) + tok(s.Marker(0)) + Tokens(Flatten(turns[..h]), tok)
            + Tokens(Flatten(turns[t..]), tok) <= s.maxInput
  {
    var fixed, costs := Fixed(messages), Costs(s, turns);
    OmissionBudget(s, messages);
    CostSlices(s, turns, h);
    CostSlices(s, turns, t);
    TurnsTokens(s, turns[..h], base, tok);
    TurnsTokens(s, turns[t..], base, tok);
    PlaceholderTokens(s, messages, base, tok);
    SumSplit(costs, h);
    TurnsTokens(s, turns, base, tok);
    ConversationTokens(messages, turns, tok);
    hide Omission, Costs, TurnPairs, Rest, Fixed, Sum, Tokens, Flatten;
  }

  lemma PlaceholderTokens(s: Setup, messages: seq<Message>, base: nat, tok: Message -> nat)
    requires Additive(s, base, tok)
    ensures Available(s, messages) == s.maxInput - base - Tokens(Fixed(messages), tok) - tok(s.Marker(0))
  {
    hide Fixed;
    TokensConcat(Fixed(messages), [s.Marker(0)], tok);
    assert [s.Marker(0)][1..] == [];
  }

  lemma {:induction false} MarkedTokens(a: seq<Message>, b: seq<Message>, m: Message, e: seq<Message>,
                                        tok: Message -> nat)
    ensures Tokens(a + b + [m] + e, tok) == Tokens(a, tok) + Tokens(b, tok) + tok(m) + Tokens(e, tok)
  {
    TokensConcat(a + b + [m], e, tok);
    TokensConcat(a + b, [m], tok);
    TokensConcat(a, b, tok);
    assert [m][1..] == [];
  }

  /** On the conversations of the agent loop every turn is a reply with its observation. */
  lemma {:induction false} AlternatingTurns(body: seq<Message>, n: nat)
    requires |body| == 2 * n
    requires forall i: nat :: i < n ==> body[2 * i].role == Assistant && body[2 * i + 1].role == User
    ensures |TurnPairs(body)| == n && forall i: nat :: i < n ==> TurnPairs(body)[i] == body[2 * i..2 * i + 2]
  {
    if n > 0 {
      var rest := body[2..];
      FirstPair(body);
      hide TurnPairs;
      forall i: nat | i < n - 1 ensures rest[2 * i].role == Assistant && rest[2 * i + 1].role == User {
        assert rest[2 * i] == body[2 * (i + 1)] && rest[2 * i + 1] == body[2 * (i + 1) + 1];
      }
      AlternatingTurns(rest, n - 1);
      forall i: nat | 0 < i < n ensures TurnPairs(body)[i] == body[2 * i..2 * i + 2] {
        assert TurnPairs(body)[i] == TurnPairs(rest)[i - 1];
        assert rest[2 * (i - 1)..2 * (i - 1) + 2] == body[2 * i..2 * i + 2];
      }
    }
  }

  lemma {:induction false} FirstPair(body: seq<Message>)
    requires |body| >= 2 && body[2 * 0].role == Assistant && body[2 * 0 + 1].role == User
    ensures TurnPairs(body) == [body[..2]] + TurnPairs(body[2..])
  {
  }

  /** So the context of the agent loop is always cut at turn boundaries: at every loop head of every run, faults
      included, the conversation splits into exactly the retained turns. */
  lemma {:induction false} LoopConversation<E>(cfg: Config<E>, script: seq<AgentLoop.Turn>)
    requires After(cfg, script).status != Submitted
    ensures var c := After(cfg, script).core;
            && |TurnPairs(Rest(c.messages))| == c.step && |Rest(c.messages)| == 2 * c.step
            && (forall i: nat :: i < c.step ==> TurnPairs(Rest(c.messages))[i] == Rest(c.messages)[2 * i..2 * i + 2])
  {
    AgentRuns.LoopHead(cfg, script);
    hide After, TurnPairs;
    var c := After(cfg, script).core;
    var body := Rest(c.messages);
    forall i: nat | i < c.step ensures body[2 * i].role == Assistant && body[2 * i + 1].role == User {
      assert AgentRuns.TurnInPlace(cfg, c, i);
    }
    AlternatingTurns(body, c.step);
  }
}
