/** The committed cost is what it is said to be: nothing the recorded requests can bring about costs more. */
module BudgetWorstCase {
  import opened Prelude
  import opened BudgetLedger

  /** One provider call for a prompt, with the tokens it used. */
  datatype TokenUse = TokenUse(input: nat, output: nat)

  /** What one request led to: its calls, retries included, or the images delivered by each of its attempts. */
  datatype Spending = Prompts(calls: seq<TokenUse>) | Pictures(batches: seq<nat>)

  /** The constraints the policy's own fields carry. */
  predicate Sound(p: Policy) {
    1 <= p.samplesPerArm && 1 <= p.maxRetries && 1 <= p.callGroups && 0 < p.maxInputTokens && 0 < p.maxOutputTokens
    && 0.0 < p.inputRate && 0.0 < p.outputRate && 0.0 < p.imageRate
  }

  function CallCost(c: TokenUse, p: Policy): real {
    (c.input as real * p.inputRate + c.output as real * p.outputRate) / 1000000.0
  }

  function CallsCost(calls: seq<TokenUse>, p: Policy): real {
    if calls == [] then 0.0 else CallsCost(calls[..|calls| - 1], p) + CallCost(calls[|calls| - 1], p)
  }

  function Images(batches: seq<nat>): nat {
    if batches == [] then 0 else Images(batches[..|batches| - 1]) + batches[|batches| - 1]
  }

  function Cost(s: Spending, p: Policy): real {
    match s
    case Prompts(calls) => CallsCost(calls, p)
    case Pictures(batches) => Images(batches) as real * p.imageRate
  }

  function TotalCost(spent: seq<Spending>, p: Policy): real {
    if spent == [] then 0.0 else TotalCost(spent[..|spent| - 1], p) + Cost(spent[|spent| - 1], p)
  }

  /** What a request of event `e` can lead to within the token, call-group, retry and image maxima. */
  ghost predicate Possible(e: UsageEvent, s: Spending, p: Policy) {
    match e.kind
    case Enhancement =>
      && s.Prompts? && |s.calls| <= p.callGroups * p.maxRetries
      && forall c | c in s.calls :: c.input <= p.maxInputTokens && c.output <= p.maxOutputTokens
    case Generation =>
      && s.Pictures? && |s.batches| <= p.maxRetries
      && forall n | n in s.batches :: n <= e.requestedImages
  }

  // ---------------------------------------------------------------- one request

  lemma Scaled(a: real, b: real, c: real)
    requires a <= b && 0.0 <= c
    ensures a * c <= b * c
  {
  }

  lemma PerMillion(x: real, y: real, mostX: real, mostY: real)
    requires 0.0 <= x <= mostX && 0.0 <= y <= mostY
    ensures 0.0 <= (x + y) / 1000000.0 <= mostX / 1000000.0 + mostY / 1000000.0
  {
  }

  lemma CallWithin(c: TokenUse, p: Policy)
    requires Sound(p) && c.input <= p.maxInputTokens && c.output <= p.maxOutputTokens
    ensures 0.0 <= CallCost(c, p) <= PerGemini(p)
  {
    Scaled(c.input as real, p.maxInputTokens as real, p.inputRate);
    Scaled(c.output as real, p.maxOutputTokens as real, p.outputRate);
    Scaled(0.0, c.input as real, p.inputRate);
    Scaled(0.0, c.output as real, p.outputRate);
    PerMillion(c.input as real * p.inputRate, c.output as real * p.outputRate,
               p.maxInputTokens as real * p.inputRate, p.maxOutputTokens as real * p.outputRate);
  }

  lemma {:induction false} CallsWithin(calls: seq<TokenUse>, p: Policy)
    requires Sound(p) && forall c | c in calls :: c.input <= p.maxInputTokens && c.output <= p.maxOutputTokens
    ensures CallsCost(calls, p) <= |calls| as real * PerGemini(p)
  {
    if calls != [] {
      hide CallCost, PerGemini;
      var n := |calls| - 1;
      assert calls == calls[..n] + [calls[n]];
      CallsWithin(calls[..n], p);
      CallWithin(calls[n], p);
      OneMore(n, PerGemini(p));
    }
  }

  lemma OneMore(n: int, x: real)
    ensures (n + 1) as real * x == n as real * x + x
  {
  }

  lemma {:induction false} ImagesWithin(batches: seq<nat>, most: int)
    requires forall b | b in batches :: b <= most
    ensures Images(batches) <= |batches| * most
  {
    if batches != [] {
      var n := |batches| - 1;
      assert batches[n] in batches && forall b | b in batches[..n] :: b in batches;
      ImagesWithin(batches[..n], most);
      assert (n + 1) * most == n * most + most;
    }
  }

  /** The share of one event in the committed cost. */
  function Committed(e: UsageEvent, p: Policy): real {
    if e.kind.Enhancement? then PerGemini(p) * p.callGroups as real * p.maxRetries as real
    else e.requestedImages as real * p.imageRate * p.maxRetries as real
  }

  lemma PromptsWithin(e: UsageEvent, s: Spending, p: Policy)
    requires Sound(p) && e.kind.Enhancement? && Possible(e, s, p)
    ensures Cost(s, p) <= Committed(e, p)
  {
    hide PerGemini, CallsCost;
    CallsWithin(s.calls, p);
    CallWithin(TokenUse(0, 0), p);
    var g, r := p.callGroups, p.maxRetries;
    Scaled(|s.calls| as real, (g * r) as real, PerGemini(p));
    Rearranged(g, r, PerGemini(p));
  }

  lemma Rearranged(g: int, r: int, x: real)
    ensures (g * r) as real * x == x * g as real * r as real
  {
    assert (g * r) as real == g as real * r as real;
  }

  lemma PicturesWithin(e: UsageEvent, s: Spending, p: Policy)
    requires Sound(p) && e.kind.Generation? && 0 <= e.requestedImages && Possible(e, s, p)
    ensures Cost(s, p) <= Committed(e, p)
  {
    var n, r := e.requestedImages, p.maxRetries;
    ImagesWithin(s.batches, n);
    assert |s.batches| * n <= r * n;
    Scaled(Images(s.batches) as real, (n * r) as real, p.imageRate);
    Rearranged(n, r, p.imageRate);
    assert p.imageRate * n as real * r as real == n as real * p.imageRate * r as real;
  }

  // ---------------------------------------------------------------- all requests together

  function CommittedBy(events: seq<UsageEvent>, p: Policy): real {
    if events == [] then 0.0 else CommittedBy(events[..|events| - 1], p) + Committed(events[|events| - 1], p)
  }

  /** The worst case of one prompt, and of one image. */
  function PromptWorst(p: Policy): real {
    PerGemini(p) * p.callGroups as real * p.maxRetries as real
  }

  function ImageWorst(p: Policy): real {
    p.imageRate * p.maxRetries as real
  }

  lemma CommittedShape(events: seq<UsageEvent>, p: Policy)
    ensures CommittedCost(events, p) == SumOf(events, IsEnhancement) as real * PromptWorst(p) + SumOf(events, ImagesOf) as real * ImageWorst(p)
  {
    hide PerGemini, SumOf;
    Grouped(SumOf(events, IsEnhancement) as real, PerGemini(p), p.callGroups as real, p.maxRetries as real);
  }

  lemma Grouped(k: real, x: real, g: real, r: real)
    ensures k * x * g * r == k * (x * g * r)
  {
  }

  lemma LastCommitted(k: int, n: int, e: UsageEvent, p: Policy)
    requires e.kind.Enhancement? ==> e.requestedImages == 0
    ensures (k + IsEnhancement(e)) as real * PromptWorst(p) + (n + ImagesOf(e)) as real * ImageWorst(p)
            == k as real * PromptWorst(p) + n as real * ImageWorst(p) + Committed(e, p)
  {
    hide PerGemini;
    if e.kind.Enhancement? {
      hide PromptWorst, ImageWorst;
      OneMore(k, PromptWorst(p));
      assert Committed(e, p) == PromptWorst(p) by { CommittedPrompt(e, p); }
    } else {
      hide PromptWorst;
      var m := e.requestedImages;
      assert (n + m) as real == n as real + m as real;
      Raised(n as real, m as real, ImageWorst(p));
      assert Committed(e, p) == m as real * ImageWorst(p);
    }
  }

  lemma CommittedPrompt(e: UsageEvent, p: Policy)
    requires e.kind.Enhancement?
    ensures Committed(e, p) == PromptWorst(p)
  {
  }

  lemma Raised(k: real, n: real, x: real)
    ensures (k + n) * x == k * x + n * x
  {
  }

  /** The committed cost, counted event by event. */
  lemma {:induction false} CommittedSplits(events: seq<UsageEvent>, p: Policy)
    requires forall e | e in events :: e.kind.Enhancement? ==> e.requestedImages == 0
    ensures CommittedCost(events, p) == CommittedBy(events, p)
  {
    hide CommittedCost, Committed, SumOf, IsEnhancement, ImagesOf, PromptWorst, ImageWorst;
    CommittedShape(events, p);
    if events == [] {
      NothingSummed();
    } else {
      var n := |events| - 1;
      var e := events[n];
      assert events == events[..n] + [e];
      CommittedSplits(events[..n], p);
      CommittedShape(events[..n], p);
      SumOfAppend(events[..n], e, IsEnhancement);
      SumOfAppend(events[..n], e, ImagesOf);
      LastCommitted(SumOf(events[..n], IsEnhancement), SumOf(events[..n], ImagesOf), e, p);
    }
  }

  lemma NothingSummed()
    ensures SumOf([], IsEnhancement) == 0 && SumOf([], ImagesOf) == 0
  {
  }

  lemma {:induction false} SpentWithin(events: seq<UsageEvent>, spent: seq<Spending>, p: Policy)
    requires Sound(p) && |spent| == |events|
    requires forall i | 0 <= i < |events| :: AsApproved(events[i], p) && Possible(events[i], spent[i], p)
    ensures TotalCost(spent, p) <= CommittedBy(events, p)
  {
    hide Possible, Committed, Cost;
    if events != [] {
      var n := |events| - 1;
      SpentWithin(events[..n], spent[..n], p);
      assert AsApproved(events[n], p);
      if events[n].kind.Enhancement? {
        PromptsWithin(events[n], spent[n], p);
      } else {
        PicturesWithin(events[n], spent[n], p);
      }
    }
  }

  /**
   * After every run of the pilot, with its crashes and restarts: whatever the
   * recorded requests led to within the token, call-group, retry and image
   * maxima, it costs no more than was committed, and so no more than the
   * amount to stop at.
   */
  lemma NeverOverBudget(p: Policy, actions: seq<Action>, spent: seq<Spending>)
    requires Sound(p) && 0.0 <= p.stopAt
    requires var events := FileEvents(Execute(NOTHING_YET, p, actions));
             |spent| == |events| && forall i | 0 <= i < |events| :: Possible(events[i], spent[i], p)
    ensures TotalCost(spent, p) <= CommittedCost(FileEvents(Execute(NOTHING_YET, p, actions)), p)
    ensures TotalCost(spent, p) <= p.stopAt
  {
    hide Execute, CommittedCost, Possible;
    LimitsHold(p, actions);
    var events := FileEvents(Execute(NOTHING_YET, p, actions));
    forall i | 0 <= i < |events|
      ensures AsApproved(events[i], p)
    {
      assert events[i] in events;
    }
    CommittedSplits(events, p);
    SpentWithin(events, spent, p);
  }

  /** And the bound is reached: requests that use up every maximum cost exactly what was committed. */
  lemma CommittedIsTight(p: Policy, actions: seq<Action>) returns (spent: seq<Spending>)
    requires Sound(p)
    ensures var events := FileEvents(Execute(NOTHING_YET, p, actions));
            && |spent| == |events| && (forall i | 0 <= i < |events| :: Possible(events[i], spent[i], p))
            && TotalCost(spent, p) == CommittedCost(events, p)
  {
    hide Execute, CommittedCost, Possible;
    LimitsHold(p, actions);
    var events := FileEvents(Execute(NOTHING_YET, p, actions));
    forall i | 0 <= i < |events|
      ensures AsApproved(events[i], p)
    {
      assert events[i] in events;
    }
    spent := AllUsedUp(events, p);
    CommittedSplits(events, p);
  }

  lemma {:induction false} AllUsedUp(events: seq<UsageEvent>, p: Policy) returns (spent: seq<Spending>)
    requires Sound(p) && forall i | 0 <= i < |events| :: AsApproved(events[i], p)
    ensures |spent| == |events| && (forall i | 0 <= i < |events| :: Possible(events[i], spent[i], p))
    ensures TotalCost(spent, p) == CommittedBy(events, p)
  {
    hide Committed, Cost, Possible;
    if events == [] {
      spent := [];
    } else {
      var n := |events| - 1;
      var before := AllUsedUp(events[..n], p);
      assert AsApproved(events[n], p);
      var last := Worst(events[n], p);
      spent := before + [last];
    }
  }

  lemma Worst(e: UsageEvent, p: Policy) returns (s: Spending)
    requires Sound(p) && AsApproved(e, p)
    ensures Possible(e, s, p) && Cost(s, p) == Committed(e, p)
  {
    if e.kind.Enhancement? {
      s := Prompts(seq(p.callGroups * p.maxRetries, i => TokenUse(p.maxInputTokens, p.maxOutputTokens)));
      FullCalls(p, p.callGroups * p.maxRetries);
      Rearranged(p.callGroups, p.maxRetries, PerGemini(p));
    } else {
      s := Pictures(seq(p.maxRetries, i => e.requestedImages));
      FullBatches(e.requestedImages, p.maxRetries);
      Rearranged(e.requestedImages, p.maxRetries, p.imageRate);
      assert p.imageRate * e.requestedImages as real * p.maxRetries as real == e.requestedImages as real * p.imageRate * p.maxRetries as real;
    }
  }

  lemma {:induction false} FullCalls(p: Policy, n: nat)
    requires Sound(p)
    ensures CallsCost(seq(n, i => TokenUse(p.maxInputTokens, p.maxOutputTokens)), p) == n as real * PerGemini(p)
  {
    var calls := seq(n, i => TokenUse(p.maxInputTokens, p.maxOutputTokens));
    if n > 0 {
      assert calls[..n - 1] == seq(n - 1, i => TokenUse(p.maxInputTokens, p.maxOutputTokens));
      FullCalls(p, n - 1);
      OneMore(n - 1, PerGemini(p));
    }
  }

  lemma {:induction false} FullBatches(images: nat, n: nat)
    ensures Images(seq(n, i => images)) == images * n
  {
    var batches: seq<nat> := seq(n, i => images);
    if n > 0 {
      assert batches[..n - 1] == seq(n - 1, i => images);
      FullBatches(images, n - 1);
    }
  }
}
