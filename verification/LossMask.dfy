/** Training masks: building them in swe-rl/message_utils.py and reading the spans of the replies back in
    swe-rl/generate_with_swe_remote.py. */
module LossMask {
  import opened Sequences

  datatype Speaker = User | Assistant | Other

  /** A message as the tokenizer sees it. */
  datatype Encoded = Encoded(speaker: Speaker, tokens: seq<int>)

  datatype Tokenizer = Tokenizer(generationPrompt: seq<int>, eos: int)

  datatype Error = NoMessages | WrongPrompt | BadLengths | MissingLogprobs | LogprobCount | UnknownRole
    | LogprobsMismatch

  datatype Result<+T> = Ok(value: T) | Err(error: Error)

  datatype Training = Training(ids: seq<int>, mask: seq<int>, logprobs: Option<seq<real>>)

  // ----- One message -----

  /** The position after the last end-of-sequence token, or the whole length without one. */
  function EosEnd(tokens: seq<int>, eos: int): (e: nat)
    ensures e <= |tokens|
    ensures eos in tokens ==> e > 0 && tokens[e - 1] == eos && forall k :: e <= k < |tokens| ==> tokens[k] != eos
    ensures eos !in tokens ==> e == |tokens|
  {
    if eos !in tokens then |tokens|
    else if tokens[|tokens| - 1] == eos then |tokens|
    else
      assert tokens == tokens[..|tokens| - 1] + [tokens[|tokens| - 1]];
      EosEnd(tokens[..|tokens| - 1], eos)
  }

  predicate StartsWith(tokens: seq<int>, prefix: seq<int>) { |prefix| <= |tokens| && tokens[..|prefix|] == prefix }

  /** How many tokens of a reply the model generated. */
  function Generated(t: Tokenizer, tokens: seq<int>): nat
  {
    var e := EosEnd(tokens, t.eos);
    if e < |t.generationPrompt| then 0 else e - |t.generationPrompt|
  }

  function ReplyMask(t: Tokenizer, tokens: seq<int>): (r: seq<int>)
    requires |t.generationPrompt| <= EosEnd(tokens, t.eos)
    ensures |r| == |tokens|
  {
    Repeat(0, |t.generationPrompt|) + Repeat(1, Generated(t, tokens)) + Repeat(0, |tokens| - EosEnd(tokens, t.eos))
  }

  /** What one message appends; `logprobs` are the lists of the replies, `reply` the number of the next one. */
  function Appended(t: Tokenizer, m: Encoded, logprobs: Option<seq<seq<real>>>, reply: nat): Result<Training>
  {
    var wanted := logprobs.Some? && logprobs.value != [];
    var nothing := if logprobs.Some? then Some([]) else None;
    match m.speaker
    case User =>
      Ok(Training(m.tokens, Repeat(0, |m.tokens|), if wanted then Some(Repeat(0.0, |m.tokens|)) else nothing))
    case Assistant =>
      var prompt, e, n := |t.generationPrompt|, EosEnd(m.tokens, t.eos), Generated(t, m.tokens);
      if !StartsWith(m.tokens, t.generationPrompt) then Err(WrongPrompt)
      else if e < prompt then Err(BadLengths)
      else if !wanted then Ok(Training(m.tokens, ReplyMask(t, m.tokens), nothing))
      else if reply >= |logprobs.value| then Err(MissingLogprobs)
      else if |logprobs.value[reply]| != n then Err(LogprobCount)
      else Ok(Training(m.tokens, ReplyMask(t, m.tokens),
                       Some(Repeat(0.0, prompt) + logprobs.value[reply] + Repeat(0.0, |m.tokens| - e))))
    case Other => Err(UnknownRole)
  }

  // ----- All messages -----

  function Replies(messages: seq<Encoded>): nat
  {
    if messages == [] then 0
    else Replies(messages[..|messages| - 1]) + (if messages[|messages| - 1].speaker == Assistant then 1 else 0)
  }

  function Append(a: Training, b: Training): Training
  {
    Training(a.ids + b.ids, a.mask + b.mask,
             if a.logprobs.Some? && b.logprobs.Some? then Some(a.logprobs.value + b.logprobs.value) else None)
  }

  function Start(logprobs: Option<seq<seq<real>>>): Training
  {
    Training([], [], if logprobs.Some? then Some([]) else None)
  }

  /** The lengths that the source asserts after each message. */
  function Aligned(x: Training): Result<Training>
  {
    if |x.mask| == |x.ids| && (x.logprobs.Some? ==> |x.logprobs.value| == |x.ids|) then Ok(x) else Err(LogprobsMismatch)
  }

  function Built(t: Tokenizer, messages: seq<Encoded>, logprobs: Option<seq<seq<real>>>): Result<Training>
  {
    if messages == [] then Ok(Start(logprobs))
    else
      var init, m := messages[..|messages| - 1], messages[|messages| - 1];
      match Built(t, init, logprobs)
      case Err(e) => Err(e)
      case Ok(x) =>
        match Appended(t, m, logprobs, Replies(init))
        case Err(e) => Err(e)
        case Ok(y) => Aligned(Append(x, y))
  }

  method GetResponseIdsAndLossMask(t: Tokenizer, messages: seq<Encoded>, logprobs: Option<seq<seq<real>>>)
    returns (r: Result<Training>)
    ensures r == if messages == [] then Err(NoMessages) else Built(t, messages, logprobs)
  {
    if messages == [] {
      return Err(NoMessages);
    }
    var x, reply := Start(logprobs), 0;
    for i := 0 to |messages|
      invariant Built(t, messages[..i], logprobs) == Ok(x) && reply == Replies(messages[..i])
    {
      BuiltNext(t, messages, logprobs, i);
      var y := Appended(t, messages[i], logprobs, reply);
      hide Appended;
      if y.Err? {
        BuiltFails(t, messages, logprobs, i + 1);
        return Err(y.error);
      }
      var aligned := Aligned(Append(x, y.value));
      if aligned.Err? {
        BuiltFails(t, messages, logprobs, i + 1);
        return aligned;
      }
      x := aligned.value;
      if messages[i].speaker == Assistant {
        reply := reply + 1;
      }
    }
    assert messages[..|messages|] == messages;
    r := Ok(x);
  }

  lemma {:induction false} BuiltNext(t: Tokenizer, messages: seq<Encoded>, logprobs: Option<seq<seq<real>>>, i: nat)
    requires i < |messages| && Built(t, messages[..i], logprobs).Ok?
    ensures Replies(messages[..i + 1]) == Replies(messages[..i]) + (if messages[i].speaker == Assistant then 1 else 0)
    ensures Built(t, messages[..i + 1], logprobs)
         == match Appended(t, messages[i], logprobs, Replies(messages[..i]))
            case Err(e) => Err(e)
            case Ok(y) => Aligned(Append(Built(t, messages[..i], logprobs).value, y))
  {
    assert messages[..i + 1][..i] == messages[..i];
    hide Appended;
  }

  lemma {:induction false} BuiltFails(t: Tokenizer, messages: seq<Encoded>, logprobs: Option<seq<seq<real>>>, i: nat)
    requires i <= |messages| && Built(t, messages[..i], logprobs).Err?
    ensures Built(t, messages, logprobs) == Built(t, messages[..i], logprobs)
    decreases |messages| - i
  {
    if i < |messages| {
      assert messages[..i + 1][..i] == messages[..i];
      BuiltFails(t, messages, logprobs, i + 1);
    } else {
      assert messages[..i] == messages;
    }
  }

  // ----- Exactly when a mask is built -----

  /** The encoding of a message is one the source accepts. */
  predicate Encodable(t: Tokenizer, m: Encoded)
  {
    m.speaker == User || (m.speaker == Assistant && StartsWith(m.tokens, t.generationPrompt)
                          && EosEnd(m.tokens, t.eos) >= |t.generationPrompt|)
  }

  function AllTokens(messages: seq<Encoded>): seq<int>
  {
    if messages == [] then [] else AllTokens(messages[..|messages| - 1]) + messages[|messages| - 1].tokens
  }

  /** A list of log probabilities fits when it has one for each generated token of its reply, or is an empty list and
      there is no token at all. */
  predicate LogprobsFit(t: Tokenizer, messages: seq<Encoded>, logprobs: Option<seq<seq<real>>>)
  {
    match logprobs
    case None => true
    case Some(lists) =>
      if lists == [] then AllTokens(messages) == []
      else
        forall k :: 0 <= k < |messages| && messages[k].speaker == Assistant ==>
             Replies(messages[..k]) < |lists| && |lists[Replies(messages[..k])]| == Generated(t, messages[k].tokens)
  }

  /** What a successful build returns: all tokens in order, one mask entry for each, and one log probability for each
      when any are asked for. */
  lemma {:induction false} BuiltShape(t: Tokenizer, messages: seq<Encoded>, logprobs: Option<seq<seq<real>>>)
    requires Built(t, messages, logprobs).Ok?
    ensures var x := Built(t, messages, logprobs).value;
            && x.ids == AllTokens(messages) && |x.mask| == |x.ids|
            && (x.logprobs.Some? <==> logprobs.Some?) && (x.logprobs.Some? ==> |x.logprobs.value| == |x.ids|)
  {
    if messages != [] {
      BuiltShape(t, messages[..|messages| - 1], logprobs);
      hide EosEnd, ReplyMask, Generated, StartsWith;
    }
  }

  /** The appended parts line up with the tokens, except that an empty list of lists yields no log probabilities. */
  lemma AppendedLengths(t: Tokenizer, m: Encoded, logprobs: Option<seq<seq<real>>>, reply: nat)
    requires Appended(t, m, logprobs, reply).Ok?
    ensures var y := Appended(t, m, logprobs, reply).value;
            && y.ids == m.tokens && |y.mask| == |m.tokens| && (y.logprobs.Some? <==> logprobs.Some?)
            && (y.logprobs.Some? ==> |y.logprobs.value| == if logprobs.value == [] then 0 else |m.tokens|)
  {
  }

  lemma AppendedIff(t: Tokenizer, m: Encoded, logprobs: Option<seq<seq<real>>>, reply: nat)
    ensures Appended(t, m, logprobs, reply).Ok? <==>
              && Encodable(t, m)
              && (m.speaker == Assistant && logprobs.Some? && logprobs.value != [] ==>
                    reply < |logprobs.value| && |logprobs.value[reply]| == Generated(t, m.tokens))
  {
  }

  /** What the last message adds to the log probabilities fitting. */
  predicate LastFits(t: Tokenizer, m: Encoded, logprobs: Option<seq<seq<real>>>, reply: nat)
  {
    match logprobs
    case None => true
    case Some(lists) =>
      if lists == [] then m.tokens == []
      else m.speaker == Assistant ==> reply < |lists| && |lists[reply]| == Generated(t, m.tokens)
  }

  lemma FitSnoc(t: Tokenizer, messages: seq<Encoded>, logprobs: Option<seq<seq<real>>>)
    requires messages != []
    ensures var init, m := messages[..|messages| - 1], messages[|messages| - 1];
            LogprobsFit(t, messages, logprobs) <==>
              LogprobsFit(t, init, logprobs) && LastFits(t, m, logprobs, Replies(init))
  {
    hide Generated, Replies;
    var init := messages[..|messages| - 1];
    assert forall k :: 0 <= k < |init| ==> init[k] == messages[k] && init[..k] == messages[..k];
    if logprobs.Some? && logprobs.value == [] {
      assert AllTokens(messages) == AllTokens(init) + messages[|messages| - 1].tokens;
    }
  }

  /** One message more is appended and stays aligned exactly when it can be encoded and its log probabilities fit. */
  lemma LastIff(t: Tokenizer, x: Training, m: Encoded, logprobs: Option<seq<seq<real>>>, reply: nat)
    requires |x.mask| == |x.ids| && (x.logprobs.Some? <==> logprobs.Some?)
             && (x.logprobs.Some? ==> |x.logprobs.value| == |x.ids|)
    ensures (match Appended(t, m, logprobs, reply)
             case Err(_) => false
             case Ok(y) => Aligned(Append(x, y)).Ok?) <==> Encodable(t, m) && LastFits(t, m, logprobs, reply)
  {
    AppendedIff(t, m, logprobs, reply);
    if Appended(t, m, logprobs, reply).Ok? {
      AppendedLengths(t, m, logprobs, reply);
    }
    hide Appended, Encodable, Generated;
  }

  /** The mask is built exactly when every message can be encoded and the log probabilities fit. */
  lemma {:induction false} BuiltIff(t: Tokenizer, messages: seq<Encoded>, logprobs: Option<seq<seq<real>>>)
    ensures Built(t, messages, logprobs).Ok? <==>
              (forall k :: 0 <= k < |messages| ==> Encodable(t, messages[k])) && LogprobsFit(t, messages, logprobs)
  {
    hide Appended, Encodable, Generated, Aligned, Append, Replies, LastFits;
    if messages != [] {
      var n := |messages| - 1;
      var init := messages[..n];
      BuiltIff(t, init, logprobs);
      FitSnoc(t, messages, logprobs);
      assert forall k :: 0 <= k < n ==> init[k] == messages[k];
      if Built(t, init, logprobs).Ok? {
        BuiltShape(t, init, logprobs);
        LastIff(t, Built(t, init, logprobs).value, messages[n], logprobs, Replies(init));
      }
      hide LogprobsFit;
    }
  }

  // ----- Why a build fails -----

  predicate Prompted(t: Tokenizer, m: Encoded)
  {
    |t.generationPrompt| <= |m.tokens| && m.tokens[..|t.generationPrompt|] == t.generationPrompt
  }

  /** What is wrong with a message when the build stops at it with the given error. */
  predicate Fails(t: Tokenizer, m: Encoded, logprobs: Option<seq<seq<real>>>, reply: nat, e: Error)
  {
    var replied := m.speaker == Assistant && Prompted(t, m) && EosEnd(m.tokens, t.eos) >= |t.generationPrompt|;
    match e
    case NoMessages => false
    case UnknownRole => m.speaker == Other
    case WrongPrompt => m.speaker == Assistant && !Prompted(t, m)
    case BadLengths => m.speaker == Assistant && Prompted(t, m) && EosEnd(m.tokens, t.eos) < |t.generationPrompt|
    case MissingLogprobs => replied && logprobs.Some? && 0 < |logprobs.value| <= reply
    case LogprobCount =>
      && replied && logprobs.Some? && reply < |logprobs.value|
      && |logprobs.value[reply]| != EosEnd(m.tokens, t.eos) - |t.generationPrompt|
    case LogprobsMismatch => (replied || m.speaker == User) && logprobs == Some([]) && m.tokens != []
  }

  /** The build stops with the error of the first message that is wrong. */
  lemma {:induction false} FirstError(t: Tokenizer, messages: seq<Encoded>, logprobs: Option<seq<seq<real>>>)
    returns (n: nat)
    requires Built(t, messages, logprobs).Err?
    ensures n < |messages| && Built(t, messages[..n], logprobs).Ok?
    ensures Fails(t, messages[n], logprobs, Replies(messages[..n]), Built(t, messages, logprobs).error)
  {
    var init, m := messages[..|messages| - 1], messages[|messages| - 1];
    if Built(t, init, logprobs).Err? {
      n := FirstError(t, init, logprobs);
      assert init[..n] == messages[..n];
    } else {
      n := |init|;
      BuiltShape(t, init, logprobs);
      StepFails(t, Built(t, init, logprobs).value, m, logprobs, Replies(init));
      hide Appended, Fails;
    }
  }

  lemma StepFails(t: Tokenizer, x: Training, m: Encoded, logprobs: Option<seq<seq<real>>>, reply: nat)
    requires |x.mask| == |x.ids| && (x.logprobs.Some? <==> logprobs.Some?)
             && (x.logprobs.Some? ==> |x.logprobs.value| == |x.ids|)
    ensures match Appended(t, m, logprobs, reply)
            case Err(e) => Fails(t, m, logprobs, reply, e)
            case Ok(y) => Aligned(Append(x, y)).Err? ==> Fails(t, m, logprobs, reply, Aligned(Append(x, y)).error)
  {
    if Appended(t, m, logprobs, reply).Ok? {
      AppendedLengths(t, m, logprobs, reply);
      AppendedIff(t, m, logprobs, reply);
      hide Appended, EosEnd, Generated;
    }
  }

  // ----- Log probabilities on their tokens -----

  /** What the last message adds to the mask and to the log probabilities. */
  lemma LogprobsSnoc(t: Tokenizer, messages: seq<Encoded>, lists: seq<seq<real>>)
    requires messages != [] && lists != [] && Built(t, messages, Some(lists)).Ok?
    ensures var init, m := messages[..|messages| - 1], messages[|messages| - 1];
            var x, y := Built(t, messages, Some(lists)).value, Built(t, init, Some(lists)).value;
            && Built(t, init, Some(lists)).Ok? && Encodable(t, m) && x.logprobs.Some? && y.logprobs.Some?
            && if m.speaker == Assistant then
                 && Replies(init) < |lists| && |lists[Replies(init)]| == Generated(t, m.tokens)
                 && x.mask == y.mask + ReplyMask(t, m.tokens)
                 && x.logprobs.value
                    == y.logprobs.value + (Repeat(0.0, |t.generationPrompt|) + lists[Replies(init)]
                                           + Repeat(0.0, |m.tokens| - EosEnd(m.tokens, t.eos)))
               else
                 && x.mask == y.mask + Repeat(0, |m.tokens|)
                 && x.logprobs.value == y.logprobs.value + Repeat(0.0, |m.tokens|)
  {
    BuiltShape(t, messages[..|messages| - 1], Some(lists));
    hide EosEnd, ReplyMask, Generated, StartsWith, Repeat, Replies;
  }

  predicate ZeroOutside(mask: seq<int>, lp: seq<real>)
  {
    |lp| == |mask| && forall i :: 0 <= i < |mask| && mask[i] == 0 ==> lp[i] == 0.0
  }

  lemma {:induction false} ZeroOutsideConcat(m1: seq<int>, l1: seq<real>, m2: seq<int>, l2: seq<real>)
    requires ZeroOutside(m1, l1) && ZeroOutside(m2, l2)
    ensures ZeroOutside(m1 + m2, l1 + l2)
  {
  }

  /** A reply's log probabilities are zero outside its generated tokens. */
  lemma {:induction false} ReplyZero(t: Tokenizer, m: Encoded, list: seq<real>)
    requires Encodable(t, m) && m.speaker == Assistant && |list| == Generated(t, m.tokens)
    ensures ZeroOutside(ReplyMask(t, m.tokens), Repeat(0.0, |t.generationPrompt|) + list
                                                + Repeat(0.0, |m.tokens| - EosEnd(m.tokens, t.eos)))
  {
    hide EosEnd, StartsWith;
  }

  lemma {:induction false} UserZero(n: nat)
    ensures ZeroOutside(Repeat(0, n), Repeat(0.0, n))
  {
  }

  /** Where the mask is zero no log probability is given. */
  lemma {:induction false} LogprobsZero(t: Tokenizer, messages: seq<Encoded>, lists: seq<seq<real>>)
    requires lists != [] && Built(t, messages, Some(lists)).Ok?
    ensures var x := Built(t, messages, Some(lists)).value; x.logprobs.Some? && ZeroOutside(x.mask, x.logprobs.value)
  {
    if messages != [] {
      hide *;
      var init, m := messages[..|messages| - 1], messages[|messages| - 1];
      LogprobsSnoc(t, messages, lists);
      LogprobsZero(t, init, lists);
      var y := Built(t, init, Some(lists)).value;
      if m.speaker == Assistant {
        var list := lists[Replies(init)];
        ReplyZero(t, m, list);
        ZeroOutsideConcat(y.mask, y.logprobs.value, ReplyMask(t, m.tokens),
                          Repeat(0.0, |t.generationPrompt|) + list
                          + Repeat(0.0, |m.tokens| - EosEnd(m.tokens, t.eos)));
      } else {
        UserZero(|m.tokens|);
        ZeroOutsideConcat(y.mask, y.logprobs.value, Repeat(0, |m.tokens|), Repeat(0.0, |m.tokens|));
      }
    }
  }

  /** The list given for a reply is at its span. */
  predicate ListAt(spans: seq<(nat, nat)>, lists: seq<seq<real>>, lp: seq<real>, reply: nat)
  {
    && reply < |lists| && reply < |spans| && spans[reply].0 <= spans[reply].1 <= |lp|
    && lp[spans[reply].0..spans[reply].1] == lists[reply]
  }

  lemma {:induction false} ListStays(spans: seq<(nat, nat)>, more: seq<(nat, nat)>, lists: seq<seq<real>>,
                                     lp: seq<real>, piece: seq<real>, reply: nat)
    requires ListAt(spans, lists, lp, reply)
    ensures ListAt(spans + more, lists, lp + piece, reply)
  {
    CutPrefix(lp, piece, spans[reply].0, spans[reply].1);
  }

  lemma {:induction false} LastListAt(t: Tokenizer, messages: seq<Encoded>, lists: seq<seq<real>>)
    requires messages != [] && lists != [] && Built(t, messages, Some(lists)).Ok?
    requires messages[|messages| - 1].speaker == Assistant
    ensures Built(t, messages, Some(lists)).value.logprobs.Some?
    ensures ListAt(ReplySpans(t, messages), lists, Built(t, messages, Some(lists)).value.logprobs.value,
                   Replies(messages[..|messages| - 1]))
  {
    hide *;
    var init, m := messages[..|messages| - 1], messages[|messages| - 1];
    LogprobsSnoc(t, messages, lists);
    BuiltShape(t, init, Some(lists));
    GeneratedLength(t, m);
    LastSpan(t, messages);
    var lp, own := Built(t, init, Some(lists)).value.logprobs.value, lists[Replies(init)];
    var before, after := Repeat(0.0, |t.generationPrompt|), Repeat(0.0, |m.tokens| - EosEnd(m.tokens, t.eos));
    MiddleOf(lp, before, own, after);
    MiddleListAt(ReplySpans(t, messages), lists, Built(t, messages, Some(lists)).value.logprobs.value, Replies(init),
                 |lp| + |before|, |lp| + |before| + |own|);
  }

  lemma MiddleListAt(spans: seq<(nat, nat)>, lists: seq<seq<real>>, lp: seq<real>, reply: nat, lo: nat, hi: nat)
    requires reply < |lists| && reply < |spans| && spans[reply] == (lo, hi)
    requires lo <= hi <= |lp| && lp[lo..hi] == lists[reply]
    ensures ListAt(spans, lists, lp, reply)
  {
  }

  lemma GeneratedLength(t: Tokenizer, m: Encoded)
    requires Encodable(t, m) && m.speaker == Assistant
    ensures |t.generationPrompt| + Generated(t, m.tokens) == EosEnd(m.tokens, t.eos)
  {
  }

  /** The log probabilities over the span of a reply are exactly the list given for it. */
  lemma {:induction false} LogprobsOfReply(t: Tokenizer, messages: seq<Encoded>, lists: seq<seq<real>>, k: nat)
    requires lists != [] && Built(t, messages, Some(lists)).Ok? && k < |messages| && messages[k].speaker == Assistant
    ensures Built(t, messages, Some(lists)).value.logprobs.Some?
    ensures ListAt(ReplySpans(t, messages), lists, Built(t, messages, Some(lists)).value.logprobs.value,
                   Replies(messages[..k]))
  {
    if k == |messages| - 1 {
      LastListAt(t, messages, lists);
    } else {
      var init := messages[..|messages| - 1];
      SpansSnoc(t, messages);
      hide *;
      LogprobsSnoc(t, messages, lists);
      LogprobsOfReply(t, init, lists, k);
      assert init[..k] == messages[..k];
      var spans, lp := ReplySpans(t, init), Built(t, init, Some(lists)).value.logprobs.value;
      ListStays(spans, ReplySpans(t, messages)[|spans|..], lists, lp,
                Built(t, messages, Some(lists)).value.logprobs.value[|lp|..], Replies(messages[..k]));
    }
  }

  lemma {:induction false} SpansSnoc(t: Tokenizer, messages: seq<Encoded>)
    requires messages != []
    ensures var spans := ReplySpans(t, messages[..|messages| - 1]);
            |spans| <= |ReplySpans(t, messages)|
            && ReplySpans(t, messages) == spans + ReplySpans(t, messages)[|spans|..]
  {
  }

  lemma MiddleOf<T>(a: seq<T>, b: seq<T>, c: seq<T>, d: seq<T>)
    ensures (a + (b + c + d))[|a| + |b|..|a| + |b| + |c|] == c
  {
  }

  /** An empty list of log probabilities, unlike none, makes a single user token fail the length assertion. */
  lemma {:induction false} EmptyLogprobsFail(t: Tokenizer)
    ensures Built(t, [Encoded(User, [1])], Some([])) == Err(LogprobsMismatch)
    ensures Built(t, [Encoded(User, [1])], None) == Ok(Training([1], [0], None))
  {
    var messages: seq<Encoded>, none: seq<Encoded>, empty: Option<seq<seq<real>>> := [Encoded(User, [1])], [], Some([]);
    assert messages[..|messages| - 1] == none && Replies(none) == 0 && Repeat(0, 1) == [0];
    assert Built(t, none, empty) == Ok(Training([], [], Some([])))
           && Built(t, none, None) == Ok(Training([], [], None));
    assert Appended(t, messages[0], empty, 0) == Ok(Training([1], [0], Some([])));
    assert Appended(t, messages[0], None, 0) == Ok(Training([1], [0], None));
    hide Appended, Replies;
    var zero: seq<real> := [];
    assert zero + zero == zero;
    assert Append(Training([], [], Some(zero)), Training([1], [0], Some(zero))) == Training([1], [0], Some(zero));
    assert Append(Training([], [], None), Training([1], [0], None)) == Training([1], [0], None);
  }

  // ----- Spans -----

  datatype Scan = Scan(spans: seq<(nat, nat)>, open: Option<nat>)

  function ScanNext(s: Scan, i: nat, m: int): Scan
  {
    if m == 1 && s.open.None? then Scan(s.spans, Some(i))
    else if m == 0 && s.open.Some? then Scan(s.spans + [(s.open.value, i)], None)
    else s
  }

  function Scanned(mask: seq<int>): Scan
  {
    if mask == [] then Scan([], None) else ScanNext(Scanned(mask[..|mask| - 1]), |mask| - 1, mask[|mask| - 1])
  }

  /** The spans once the mask has ended at n. */
  function Closed(s: Scan, n: nat): seq<(nat, nat)>
  {
    if s.open.Some? then s.spans + [(s.open.value, n)] else s.spans
  }

  predicate In(span: (nat, nat), i: int) { span.0 <= i < span.1 }

  predicate InSome(spans: seq<(nat, nat)>, i: int) { exists k :: 0 <= k < |spans| && In(spans[k], i) }

  /** Nonempty spans in increasing order that neither overlap nor touch. */
  predicate Separate(spans: seq<(nat, nat)>)
  {
    && (forall k :: 0 <= k < |spans| ==> spans[k].0 < spans[k].1)
    && (forall j, k :: 0 <= j < k < |spans| ==> spans[j].1 < spans[k].0)
  }

  /** The spans lie in the mask and contain exactly its ones. */
  ghost predicate Covers(mask: seq<int>, spans: seq<(nat, nat)>)
  {
    && (forall k :: 0 <= k < |spans| ==> spans[k].0 <= spans[k].1 <= |mask|)
    && (forall i :: 0 <= i < |mask| ==> (mask[i] == 1 <==> InSome(spans, i)))
  }

  predicate IsMask(mask: seq<int>) { forall i :: 0 <= i < |mask| ==> mask[i] == 0 || mask[i] == 1 }

  /** A span is a maximal run of ones: longer on neither side. */
  predicate MaximalRun(mask: seq<int>, span: (nat, nat))
  {
    && span.0 < span.1 <= |mask| && (forall i :: span.0 <= i < span.1 ==> mask[i] == 1)
    && (span.0 > 0 ==> mask[span.0 - 1] == 0) && (span.1 < |mask| ==> mask[span.1] == 0)
  }

  /** Between spans that do not touch, and before and after them, there are zeros. */
  lemma {:induction false} SpansAreMaximal(mask: seq<int>, spans: seq<(nat, nat)>)
    requires IsMask(mask) && Separate(spans) && Covers(mask, spans)
    ensures forall k :: 0 <= k < |spans| ==> MaximalRun(mask, spans[k])
  {
    forall k | 0 <= k < |spans| ensures MaximalRun(mask, spans[k]) {
      forall i | spans[k].0 <= i < spans[k].1 ensures mask[i] == 1 {
        assert In(spans[k], i);
      }
      if spans[k].0 > 0 {
        Outside(spans, k, spans[k].0 - 1);
      }
      if spans[k].1 < |mask| {
        Outside(spans, k, spans[k].1);
      }
    }
  }

  /** Just before and just behind a span there is no other. */
  lemma Outside(spans: seq<(nat, nat)>, k: nat, i: int)
    requires Separate(spans) && k < |spans| && (i + 1 == spans[k].0 || i == spans[k].1)
    ensures !InSome(spans, i)
  {
    forall j | 0 <= j < |spans| ensures !In(spans[j], i) {
      if j < k {
        assert spans[j].1 < spans[k].0;
      } else if k < j {
        assert spans[k].1 < spans[j].0;
      }
    }
  }

  /** What the loop has found of a prefix of the mask. */
  ghost predicate ScanOk(mask: seq<int>, s: Scan)
  {
    && Separate(Closed(s, |mask|)) && Covers(mask, Closed(s, |mask|))
    && (s.open.Some? ==> s.open.value < |mask|)
    && (s.open.None? ==> forall k :: 0 <= k < |s.spans| ==> s.spans[k].1 < |mask|)
  }

  lemma {:induction false} CoversSnoc(mask: seq<int>, m: int, before: seq<(nat, nat)>, after: seq<(nat, nat)>)
    requires Covers(mask, before) && forall k :: 0 <= k < |after| ==> after[k].0 <= after[k].1 <= |mask| + 1
    requires forall i :: 0 <= i < |mask| ==> (InSome(before, i) <==> InSome(after, i))
    requires m == 1 <==> InSome(after, |mask|)
    ensures Covers(mask + [m], after)
  {
  }

  lemma InSomeSnoc(spans: seq<(nat, nat)>, last: (nat, nat), i: int)
    ensures InSome(spans + [last], i) <==> InSome(spans, i) || In(last, i)
  {
    var all := spans + [last];
    if k :| 0 <= k < |spans| && In(spans[k], i) {
      assert In(all[k], i);
    }
    if k :| 0 <= k < |all| && In(all[k], i) {
      assert k < |spans| ==> In(spans[k], i);
    }
    if In(last, i) {
      assert In(all[|spans|], i);
    }
  }

  /** A one opens a span or makes the open one longer. */
  lemma {:induction false} ScanOne(mask: seq<int>, s: Scan)
    requires ScanOk(mask, s)
    ensures ScanOk(mask + [1], ScanNext(s, |mask|, 1))
  {
    SeparateGrows(mask, s);
    hide Separate, Covers;
    var start := if s.open.Some? then s.open.value else |mask|;
    LastGrows(mask, Closed(s, |mask|), s.spans, start);
  }

  lemma {:induction false} SeparateGrows(mask: seq<int>, s: Scan)
    requires ScanOk(mask, s)
    ensures Separate(Closed(ScanNext(s, |mask|, 1), |mask| + 1))
  {
    hide Covers;
    if s.open.Some? {
      assert Closed(s, |mask|)[|s.spans|] == (s.open.value, |mask|);
    }
    assert forall k :: 0 <= k < |s.spans| ==> Closed(s, |mask|)[k] == s.spans[k];
  }

  /** The last span, from `start` on, takes one more place. */
  lemma {:induction false} LastGrows(mask: seq<int>, before: seq<(nat, nat)>, spans: seq<(nat, nat)>, start: nat)
    requires Covers(mask, before) && start <= |mask|
    requires before == if start == |mask| then spans else spans + [(start, |mask|)]
    ensures Covers(mask + [1], spans + [(start, |mask| + 1)])
  {
    var n := |mask|;
    var after := spans + [(start, n + 1)];
    assert forall k :: 0 <= k < |spans| ==> before[k] == spans[k];
    forall i | 0 <= i <= n ensures InSome(after, i) <==> InSome(before, i) || i == n {
      InSomeSnoc(spans, (start, n), i);
      InSomeSnoc(spans, (start, n + 1), i);
      hide InSome;
    }
    CoversSnoc(mask, 1, before, after);
  }

  /** A zero closes the open span. */
  lemma {:induction false} ScanZero(mask: seq<int>, s: Scan)
    requires ScanOk(mask, s)
    ensures ScanOk(mask + [0], ScanNext(s, |mask|, 0))
  {
    var before := Closed(s, |mask|);
    assert !InSome(before, |mask|);
    CoversSnoc(mask, 0, before, before);
  }

  /** The spans found in a mask are its maximal runs of ones, all of them, in order. */
  lemma {:induction false} ScannedRuns(mask: seq<int>)
    requires IsMask(mask)
    ensures ScanOk(mask, Scanned(mask))
  {
    if mask != [] {
      var n := |mask| - 1;
      ScannedRuns(mask[..n]);
      hide ScanOk;
      if mask[n] == 1 {
        ScanOne(mask[..n], Scanned(mask[..n]));
      } else {
        ScanZero(mask[..n], Scanned(mask[..n]));
      }
      assert mask[..n] + [mask[n]] == mask;
    }
  }

  /** No other spans are separate and contain exactly the ones. */
  lemma {:induction false} SpansUnique(mask: seq<int>, a: seq<(nat, nat)>, b: seq<(nat, nat)>)
    requires Separate(a) && Covers(mask, a) && Separate(b) && Covers(mask, b)
    ensures a == b
    decreases |a|
  {
    if a == [] || b == [] {
      NoSpans(mask, a, b);
      NoSpans(mask, b, a);
    } else {
      var l, r := a[|a| - 1], b[|b| - 1];
      LastEnds(mask, a, b);
      LastEnds(mask, b, a);
      LastStarts(mask, a, b);
      LastStarts(mask, b, a);
      assert l == r;
      DropLast(mask, a);
      DropLast(mask, b);
      SpansUnique(mask[..l.0], a[..|a| - 1], b[..|b| - 1]);
      assert a == a[..|a| - 1] + [l] && b == b[..|b| - 1] + [r];
    }
  }

  lemma {:induction false} NoSpans(mask: seq<int>, a: seq<(nat, nat)>, b: seq<(nat, nat)>)
    requires Covers(mask, a) && Separate(b) && Covers(mask, b)
    ensures a == [] ==> b == []
  {
    if b != [] {
      assert In(b[0], b[0].0);
      assert mask[b[0].0] == 1;
    }
  }

  lemma {:induction false} LastEnds(mask: seq<int>, a: seq<(nat, nat)>, b: seq<(nat, nat)>)
    requires Separate(a) && Covers(mask, a) && Separate(b) && Covers(mask, b) && a != [] && b != []
    ensures a[|a| - 1].1 <= b[|b| - 1].1
  {
    var l, r := a[|a| - 1], b[|b| - 1];
    assert In(l, l.1 - 1) && mask[l.1 - 1] == 1;
    var k :| 0 <= k < |b| && In(b[k], l.1 - 1);
    assert k < |b| - 1 ==> b[k].1 < r.0;
  }

  lemma {:induction false} LastStarts(mask: seq<int>, a: seq<(nat, nat)>, b: seq<(nat, nat)>)
    requires Separate(a) && Covers(mask, a) && Separate(b) && Covers(mask, b) && a != [] && b != []
    requires a[|a| - 1].1 == b[|b| - 1].1
    ensures b[|b| - 1].0 <= a[|a| - 1].0
  {
    var l, r := a[|a| - 1], b[|b| - 1];
    if r.0 > 0 {
      Outside(b, |b| - 1, r.0 - 1);
      assert mask[r.0 - 1] != 1;
    }
    forall i | l.0 <= i < l.1 ensures mask[i] == 1 {
      assert In(l, i);
    }
  }

  lemma {:induction false} DropLast(mask: seq<int>, a: seq<(nat, nat)>)
    requires Separate(a) && Covers(mask, a) && a != []
    ensures var l := a[|a| - 1]; l.0 <= |mask| && Separate(a[..|a| - 1]) && Covers(mask[..l.0], a[..|a| - 1])
  {
    var l, init := a[|a| - 1], a[..|a| - 1];
    assert init + [l] == a;
    forall i | 0 <= i < l.0 ensures mask[..l.0][i] == 1 <==> InSome(init, i) {
      InSomeSnoc(init, l, i);
    }
  }

  /** The scanning loop: the maximal runs of ones of the mask, all of them, in order. */
  method ExtractAssistantTurnSpans(mask: seq<int>) returns (spans: seq<(nat, nat)>)
    ensures spans == Closed(Scanned(mask), |mask|)
    ensures IsMask(mask) ==> Separate(spans) && Covers(mask, spans)
    ensures IsMask(mask) ==> forall k :: 0 <= k < |spans| ==> MaximalRun(mask, spans[k])
  {
    spans := [];
    var inSpan, start := false, 0;
    for i := 0 to |mask|
      invariant Scanned(mask[..i]) == Scan(spans, if inSpan then Some(start) else None)
    {
      assert mask[..i + 1][..i] == mask[..i];
      if mask[i] == 1 && !inSpan {
        start, inSpan := i, true;
      } else if mask[i] == 0 && inSpan {
        spans := spans + [(start, i)];
        inSpan := false;
      }
    }
    assert mask[..|mask|] == mask;
    if inSpan {
      spans := spans + [(start, |mask|)];
    }
    hide Separate, Covers, MaximalRun, Scanned;
    if IsMask(mask) {
      ScannedRuns(mask);
      SpansAreMaximal(mask, spans);
    }
  }

  /** Where the generated tokens of each reply are in the token list. */
  function ReplySpans(t: Tokenizer, messages: seq<Encoded>): seq<(nat, nat)>
  {
    if messages == [] then []
    else
      var init, m := messages[..|messages| - 1], messages[|messages| - 1];
      var start := |AllTokens(init)| + |t.generationPrompt|;
      ReplySpans(t, init) + (if m.speaker == Assistant then [(start, start + Generated(t, m.tokens))] else [])
  }

  /** The mask of one message more. */
  lemma MaskSnoc(t: Tokenizer, messages: seq<Encoded>, logprobs: Option<seq<seq<real>>>)
    requires messages != [] && Built(t, messages, logprobs).Ok?
    ensures var init, m := messages[..|messages| - 1], messages[|messages| - 1];
            && Built(t, init, logprobs).Ok? && Encodable(t, m)
            && Built(t, messages, logprobs).value.mask
               == Built(t, init, logprobs).value.mask
                  + (if m.speaker == Assistant then ReplyMask(t, m.tokens) else Repeat(0, |m.tokens|))
  {
    hide EosEnd, ReplyMask, Generated, StartsWith, Repeat;
  }

  lemma {:induction false} CoversJoin(mask: seq<int>, more: seq<int>, spans: seq<(nat, nat)>)
    requires Covers(mask, spans) && forall i :: 0 <= i < |more| ==> more[i] == 0
    ensures Covers(mask + more, spans)
  {
  }

  lemma Beyond(mask: seq<int>, spans: seq<(nat, nat)>, i: int)
    requires Covers(mask, spans) && i >= |mask|
    ensures !InSome(spans, i)
  {
  }

  /** A message part that begins and ends with zeros, with ones in between. */
  lemma {:induction false} CoversReply(mask: seq<int>, spans: seq<(nat, nat)>, p: nat, n: nat, z: nat, more: seq<int>)
    requires Covers(mask, spans) && more == Repeat(0, p) + Repeat(1, n) + Repeat(0, z)
    ensures Covers(mask + more, spans + [(|mask| + p, |mask| + p + n)])
  {
    var all, last := mask + more, (|mask| + p, |mask| + p + n);
    forall i | 0 <= i < |all| ensures all[i] == 1 <==> InSome(spans + [last], i) {
      InSomeSnoc(spans, last, i);
      if i >= |mask| {
        Beyond(mask, spans, i);
      }
    }
  }

  lemma {:induction false} ReplyCovers(t: Tokenizer, mask: seq<int>, m: Encoded, spans: seq<(nat, nat)>, start: nat)
    requires IsMask(mask) && Covers(mask, spans) && Encodable(t, m) && start == |mask| + |t.generationPrompt|
    ensures m.speaker == Assistant ==>
      IsMask(mask + ReplyMask(t, m.tokens))
      && Covers(mask + ReplyMask(t, m.tokens), spans + [(start, start + Generated(t, m.tokens))])
    ensures m.speaker == User ==> IsMask(mask + Repeat(0, |m.tokens|)) && Covers(mask + Repeat(0, |m.tokens|), spans)
  {
    hide Covers, EosEnd;
    if m.speaker == Assistant {
      CoversReply(mask, spans, |t.generationPrompt|, Generated(t, m.tokens), |m.tokens| - EosEnd(m.tokens, t.eos),
                  ReplyMask(t, m.tokens));
    } else {
      CoversJoin(mask, Repeat(0, |m.tokens|), spans);
    }
  }

  /** A built mask has its ones exactly at the generated tokens of the replies. */
  lemma {:induction false} RepliesCover(t: Tokenizer, messages: seq<Encoded>, logprobs: Option<seq<seq<real>>>)
    requires Built(t, messages, logprobs).Ok?
    ensures var mask := Built(t, messages, logprobs).value.mask; IsMask(mask) && Covers(mask, ReplySpans(t, messages))
  {
    if messages != [] {
      var init, m := messages[..|messages| - 1], messages[|messages| - 1];
      MaskSnoc(t, messages, logprobs);
      assert m.speaker == User || m.speaker == Assistant;
      var start := |AllTokens(init)| + |t.generationPrompt|;
      assert ReplySpans(t, messages)
          == ReplySpans(t, init) + (if m.speaker == Assistant then [(start, start + Generated(t, m.tokens))] else []);
      hide Built, Covers, EosEnd, AllTokens, Generated, Encodable, ReplySpans, IsMask, ReplyMask, Repeat;
      RepliesCover(t, init, logprobs);
      BuiltShape(t, init, logprobs);
      ReplyCovers(t, Built(t, init, logprobs).value.mask, m, ReplySpans(t, init), start);
      assert m.speaker == User ==> ReplySpans(t, messages) == ReplySpans(t, init);
    }
  }

  /** Reading the spans back from a built mask gives exactly one span for each reply, in order, covering exactly its
      generated tokens, exactly if no reply is empty and no two replies' generated tokens follow each other directly. */
  lemma {:induction false} SpansAreRepliesIff(t: Tokenizer, messages: seq<Encoded>, logprobs: Option<seq<seq<real>>>)
    requires Built(t, messages, logprobs).Ok?
    ensures var mask := Built(t, messages, logprobs).value.mask;
            Closed(Scanned(mask), |mask|) == ReplySpans(t, messages) <==> Separate(ReplySpans(t, messages))
  {
    hide Built, Scanned, ReplySpans, Separate, Covers, IsMask;
    var mask := Built(t, messages, logprobs).value.mask;
    RepliesCover(t, messages, logprobs);
    ScannedRuns(mask);
    if Separate(ReplySpans(t, messages)) {
      SpansUnique(mask, Closed(Scanned(mask), |mask|), ReplySpans(t, messages));
    }
  }

  /** A reply of which nothing was generated has no span. */
  lemma EmptyReplyVanishes()
    ensures var (t, messages) := (Tokenizer([7], 9), [Encoded(Assistant, [7])]);
            && Built(t, messages, None) == Ok(Training([7], [0], None))
            && ReplySpans(t, messages) == [(1, 1)] && Closed(Scanned([0]), 1) == []
  {
    var t, messages: seq<Encoded>, none: seq<Encoded> := Tokenizer([7], 9), [Encoded(Assistant, [7])], [];
    assert messages[..|messages| - 1] == none && Replies(none) == 0;
    assert AllTokens(none) == [] && ReplySpans(t, none) == [];
    assert Built(t, none, None) == Ok(Training([], [], None));
    assert ReplyMask(t, [7]) == [0];
    assert Appended(t, messages[0], None, 0) == Ok(Training([7], [0], None));
    assert [0][..0] == [] && Scanned([0][..0]) == Scan([], None);
    hide Appended, Replies;
    assert Append(Training([], [], None), Training([7], [0], None)) == Training([7], [0], None);
  }

  /** Replies that are not empty are separate when the generation prompt is not empty. */
  lemma {:induction false} PromptSeparates(t: Tokenizer, messages: seq<Encoded>)
    requires t.generationPrompt != []
    requires forall k :: 0 <= k < |messages| && messages[k].speaker == Assistant ==>
               Encodable(t, messages[k]) && Generated(t, messages[k].tokens) > 0
    ensures Separate(ReplySpans(t, messages))
    ensures forall k :: 0 <= k < |ReplySpans(t, messages)| ==> ReplySpans(t, messages)[k].1 <= |AllTokens(messages)|
  {
    hide EosEnd;
    if messages != [] {
      var init, m := messages[..|messages| - 1], messages[|messages| - 1];
      PromptSeparates(t, init);
      assert AllTokens(messages) == AllTokens(init) + m.tokens;
      hide AllTokens;
    }
  }

  /** With a nonempty generation prompt and nonempty replies, the spans are the replies. */
  lemma {:induction false} SpansAreReplies(t: Tokenizer, messages: seq<Encoded>, logprobs: Option<seq<seq<real>>>)
    requires Built(t, messages, logprobs).Ok? && t.generationPrompt != []
    requires forall k :: 0 <= k < |messages| && messages[k].speaker == Assistant ==>
               Generated(t, messages[k].tokens) > 0
    ensures var mask := Built(t, messages, logprobs).value.mask;
            Closed(Scanned(mask), |mask|) == ReplySpans(t, messages)
  {
    hide Built, Scanned, ReplySpans, Separate, Generated, Encodable;
    BuiltIff(t, messages, logprobs);
    PromptSeparates(t, messages);
    SpansAreRepliesIff(t, messages, logprobs);
  }

  /** There are as many reply spans as replies. */
  lemma {:induction false} ReplySpansCount(t: Tokenizer, messages: seq<Encoded>)
    ensures |ReplySpans(t, messages)| == Replies(messages)
  {
    if messages != [] {
      ReplySpansCount(t, messages[..|messages| - 1]);
    }
  }

  /** The span of a reply holds exactly its tokens between the generation prompt and the end of its last
      end-of-sequence token. */
  lemma {:induction false} SpanHoldsReply(t: Tokenizer, messages: seq<Encoded>, k: nat)
    requires k < |messages| && messages[k].speaker == Assistant && Encodable(t, messages[k])
    ensures Replies(messages[..k]) < |ReplySpans(t, messages)|
    ensures var (lo, hi) := ReplySpans(t, messages)[Replies(messages[..k])];
            && lo <= hi <= |AllTokens(messages)|
            && AllTokens(messages)[lo..hi]
               == messages[k].tokens[|t.generationPrompt|..EosEnd(messages[k].tokens, t.eos)]
  {
    hide EosEnd, Replies;
    var n := |messages| - 1;
    var init, m := messages[..n], messages[n];
    assert AllTokens(messages) == AllTokens(init) + m.tokens;
    if k == n {
      LastSpan(t, messages);
      CutSuffix(AllTokens(init), m.tokens, |t.generationPrompt|, EosEnd(m.tokens, t.eos));
    } else {
      SpanHoldsReply(t, init, k);
      assert init[..k] == messages[..k];
      var (lo, hi) := ReplySpans(t, init)[Replies(messages[..k])];
      assert ReplySpans(t, messages)[Replies(messages[..k])] == (lo, hi);
      hide ReplySpans, AllTokens;
      CutPrefix(AllTokens(init), m.tokens, lo, hi);
    }
  }

  lemma LastSpan(t: Tokenizer, messages: seq<Encoded>)
    requires messages != [] && messages[|messages| - 1].speaker == Assistant && Encodable(t, messages[|messages| - 1])
    ensures var init, m := messages[..|messages| - 1], messages[|messages| - 1];
            && Replies(init) < |ReplySpans(t, messages)|
            && ReplySpans(t, messages)[Replies(init)]
               == (|AllTokens(init)| + |t.generationPrompt|, |AllTokens(init)| + EosEnd(m.tokens, t.eos))
  {
    hide EosEnd, AllTokens;
    ReplySpansCount(t, messages[..|messages| - 1]);
    hide Replies;
  }

  lemma CutSuffix<T>(a: seq<T>, b: seq<T>, lo: nat, hi: nat)
    requires lo <= hi <= |b|
    ensures (a + b)[|a| + lo..|a| + hi] == b[lo..hi]
  {
  }

  lemma CutPrefix<T>(a: seq<T>, b: seq<T>, lo: nat, hi: nat)
    requires lo <= hi <= |a|
    ensures (a + b)[lo..hi] == a[lo..hi]
  {
  }
}
