/** The budget-reduction controller of pipeline_main.py (inside `main()`):
    measure the transcript; if it is over budget, summarize it with a ratio
    derived from the budget, then keep halving the ratio and re-summarizing
    the previous summary until the text fits or the ratio reaches the floor.
    The token meter and the summarizer service are parameters; the pipeline
    module supplies the ones of the token-cost and summarizer modules. */
module Reduction {
  /** Upper bound on the retention ratio of the first round. */
  const RetentionCap: real := 0.3

  /** The loop stops once the ratio is at or below this floor. */
  const ShrinkFloor: real := 0.05

  /** Each further round multiplies the ratio by this factor. */
  const ShrinkFactor: real := 0.5

  /** Fallback word count of the first round. */
  const FirstFallbackWords: int := 600

  /** Fallback word count of every later round. */
  const LaterFallbackWords: int := 400

  /** Most summarization rounds a run can make: the first plus three halvings. */
  const MaxRounds: nat := 4

  /** The collaborators the controller calls: `count_tokens` of the token
      meter, and `summarize_text` of a `TextSummarizerService(ratio,
      fallback_words)` built for the round. */
  datatype Tools = Tools(count: string -> nat, summarize: (string, real, int) -> string)

  /** One summarization round. */
  datatype Attempt = Attempt(round: nat, ratio: real, fallbackWords: int,
                             input: string, output: string, outputTokens: nat)

  /** What the controller hands on: the text sent to the formatter, its token
      count, the rounds made, and whether the text fits the budget. */
  datatype ReductionResult = ReductionResult(originalTokens: nat, finalText: string,
                                             finalTokens: nat, attempts: seq<Attempt>,
                                             converged: bool)

  /** `token_service.count_tokens(text)`. */
  function Count(tools: Tools, text: string): nat {
    tools.count(text)
  }

  /** `TextSummarizerService(ratio, fallback_words).summarize_text(text)`. */
  function Summarize(tools: Tools, ratio: real, fallbackWords: int, text: string): string {
    tools.summarize(text, ratio, fallbackWords)
  }

  /** Python's `min(a, b)`. */
  function Min(a: real, b: real): (m: real)
    ensures m <= a && m <= b && (m == a || m == b)
  {
    if b < a then b else a
  }

  /** `min(0.3, MAX_TOKENS / original_tokens)`: never more than the cap, never
      more than the budget's share of the text, and positive for a positive budget. */
  function InitialRatio(originalTokens: nat, maxTokens: nat): (r: real)
    requires originalTokens > 0
    ensures r == RetentionCap || r * originalTokens as real == maxTokens as real
    ensures r <= RetentionCap && r * originalTokens as real <= maxTokens as real
    ensures maxTokens > 0 ==> 0.0 < r
  {
    Min(RetentionCap, maxTokens as real / originalTokens as real)
  }

  /** With the default budget of 2000: 8000 tokens give a first ratio of
      0.25 (the budget's share), 4000 tokens give the cap 0.3. */
  lemma InitialRatioExamples()
    ensures InitialRatio(8000, 2000) == 0.25
    ensures InitialRatio(4000, 2000) == RetentionCap
  {
  }

  /** The round's output is the summarizer's answer on its input with its
      parameters, and its token count is that output's. */
  predicate IsRound(tools: Tools, a: Attempt) {
    && a.output == Summarize(tools, a.ratio, a.fallbackWords, a.input)
    && a.outputTokens == Count(tools, a.output)
  }

  /** The loop condition `summary_tokens > MAX_TOKENS and current_ratio > 0.05`,
      read after the given round. */
  predicate Continues(maxTokens: nat, a: Attempt) {
    a.outputTokens > maxTokens && a.ratio > ShrinkFloor
  }

  /** Round `next` is the loop iteration run after round `prev`: the loop
      condition held, the ratio was halved, the fallback is 400 words and the
      previous summary is the input. */
  predicate Follows(maxTokens: nat, prev: Attempt, next: Attempt) {
    && Continues(maxTokens, prev)
    && next.ratio == prev.ratio * ShrinkFactor
    && next.fallbackWords == LaterFallbackWords
    && next.input == prev.output
  }

  /** The shape of the loop, apart from what the summarizer answers: rounds
      are numbered from 0, the first has the initial ratio, and each later
      round follows the one before it. */
  ghost predicate Schedule(maxTokens: nat, initialRatio: real, h: seq<Attempt>) {
    && |h| >= 1
    && h[0].ratio == initialRatio
    && (forall i :: 0 <= i < |h| ==> h[i].round == i)
    && (forall i, j {:trigger h[i], h[j]} :: 0 <= i < j < |h| && j == i + 1 ==>
          Follows(maxTokens, h[i], h[j]))
  }

  /** The rounds a run over budget makes: the schedule above, starting from
      the transcript with 600 fallback words, where every round's output and
      count are what the summarizer and the meter give. */
  ghost predicate ValidHistory(tools: Tools, maxTokens: nat, transcript: string,
                               initialRatio: real, h: seq<Attempt>)
  {
    && Schedule(maxTokens, initialRatio, h)
    && h[0].input == transcript
    && h[0].fallbackWords == FirstFallbackWords
    && (forall i :: 0 <= i < |h| ==> IsRound(tools, h[i]))
  }

  /** The example of the code's comment carried one round on: a run over an
      8000-token transcript with a budget of 2000 makes its second round, if
      any, at ratio 0.125. */
  lemma SecondRoundExample(h: seq<Attempt>)
    requires Schedule(2000, InitialRatio(8000, 2000), h) && |h| >= 2
    ensures h[1].ratio == 0.125
  {
    InitialRatioExamples();
    assert Follows(2000, h[0], h[1]);
  }

  /** What the controller hands on, given its collaborators, the budget and
      the transcript. Within budget: the transcript itself, its own count and
      no rounds. Over budget: the rounds the loop prescribes until its
      condition failed, and the last round's output. Either way the reported
      count is that of the text sent on, and `converged` says whether that
      count fits the budget. */
  ghost predicate Reduced(tools: Tools, maxTokens: nat, transcript: string, res: ReductionResult) {
    && res.originalTokens == Count(tools, transcript)
    && (res.originalTokens <= maxTokens ==>
          && res.attempts == []
          && res.finalText == transcript
          && res.finalTokens == res.originalTokens)
    && (res.originalTokens > maxTokens ==>
          && ValidHistory(tools, maxTokens, transcript, InitialRatio(res.originalTokens, maxTokens),
                          res.attempts)
          && !Continues(maxTokens, res.attempts[|res.attempts| - 1])
          && res.finalText == res.attempts[|res.attempts| - 1].output)
    && res.finalTokens == Count(tools, res.finalText)
    && (res.converged <==> res.finalTokens <= maxTokens)
  }

  /** The controller's result is determined by its inputs: two results that
      both meet `Reduced` for the same collaborators, budget and transcript
      are equal. */
  lemma ReducedUnique(tools: Tools, maxTokens: nat, transcript: string,
                      r1: ReductionResult, r2: ReductionResult)
    requires Reduced(tools, maxTokens, transcript, r1)
    requires Reduced(tools, maxTokens, transcript, r2)
    ensures r1 == r2
  {
    if r1.originalTokens > maxTokens {
      HistoryUnique(tools, maxTokens, transcript, InitialRatio(r1.originalTokens, maxTokens),
                    r1.attempts, r2.attempts);
    }
  }

  /** A result meeting `Reduced` either fits the budget or stopped at the
      ratio floor, after at most four rounds. */
  lemma ReducedBounds(tools: Tools, maxTokens: nat, transcript: string, res: ReductionResult)
    requires Reduced(tools, maxTokens, transcript, res)
    ensures res.converged || res.attempts[|res.attempts| - 1].ratio <= ShrinkFloor
    ensures |res.attempts| <= MaxRounds
  {
    if res.originalTokens > maxTokens {
      HistoryBound(maxTokens, InitialRatio(res.originalTokens, maxTokens), res.attempts);
    }
  }

  /** `2^n` as a real. */
  function Pow2(n: nat): (p: real)
    ensures p >= 1.0
  {
    if n == 0 then 1.0 else 2.0 * Pow2(n - 1)
  }

  /** Halving one factor and doubling the other keeps the product. */
  lemma HalveDouble(prev: real, next: real, p: real, r0: real)
    requires prev * p == r0 && next == prev * ShrinkFactor
    ensures next * (2.0 * p) == r0
  {
  }

  /** Round i's ratio is the initial ratio divided by 2^i. */
  lemma {:induction false} RatioAt(maxTokens: nat, initialRatio: real, h: seq<Attempt>, i: nat)
    requires Schedule(maxTokens, initialRatio, h)
    requires i < |h|
    ensures h[i].ratio * Pow2(i) == initialRatio
  {
    if i > 0 {
      RatioAt(maxTokens, initialRatio, h, i - 1);
      assert Follows(maxTokens, h[i - 1], h[i]);
      HalveDouble(h[i - 1].ratio, h[i].ratio, Pow2(i - 1), initialRatio);
    }
  }

  /** The geometric bound: a run that made n > 1 rounds saw the ratio of
      round n - 2 still above the floor, so 0.05 * 2^(n-2) < initial ratio,
      that is, at most ceil(log2(initial_ratio / 0.05)) halvings happen. */
  lemma LogarithmicBound(maxTokens: nat, initialRatio: real, h: seq<Attempt>)
    requires Schedule(maxTokens, initialRatio, h)
    requires |h| >= 2
    ensures ShrinkFloor * Pow2(|h| - 2) < initialRatio
  {
    var k := |h| - 2;
    RatioAt(maxTokens, initialRatio, h, k);
    assert Follows(maxTokens, h[k], h[k + 1]);
    FloorScaled(h[k].ratio, Pow2(k), initialRatio);
  }

  /** A ratio above the floor, scaled by a factor of at least one, stays above
      the floor scaled by the same factor. */
  lemma FloorScaled(r: real, p: real, r0: real)
    requires r > ShrinkFloor && p >= 1.0 && r * p == r0
    ensures ShrinkFloor * p < r0
  {
  }

  /** 2^n grows with n. */
  lemma {:induction false} PowMonotone(m: nat, n: nat)
    requires m <= n
    ensures Pow2(m) <= Pow2(n)
  {
    if m < n {
      PowMonotone(m, n - 1);
    }
  }

  /** With the first ratio at most 0.3, no run makes more than four rounds:
      the first and at most three halvings. */
  lemma HistoryBound(maxTokens: nat, initialRatio: real, h: seq<Attempt>)
    requires Schedule(maxTokens, initialRatio, h)
    requires initialRatio <= RetentionCap
    ensures |h| <= MaxRounds
  {
    if |h| > MaxRounds {
      LogarithmicBound(maxTokens, initialRatio, h);
      PowMonotone(3, |h| - 2);
      assert false;
    }
  }

  /** With a positive first ratio (a positive budget) the ratios strictly
      decrease from round to round. */
  lemma RatiosDecrease(maxTokens: nat, initialRatio: real, h: seq<Attempt>, i: nat, j: nat)
    requires Schedule(maxTokens, initialRatio, h)
    requires initialRatio > 0.0
    requires i < j < |h|
    ensures h[j].ratio < h[i].ratio
  {
    RatioAt(maxTokens, initialRatio, h, i);
    RatioAt(maxTokens, initialRatio, h, j);
    PowMonotone(i + 1, j);
    ScaledDown(h[i].ratio, h[j].ratio, Pow2(i), Pow2(j), initialRatio);
  }

  /** If ri * pi == rj * pj == r0 > 0 and pj >= 2 pi >= 2, then rj < ri. */
  lemma ScaledDown(ri: real, rj: real, pi: real, pj: real, r0: real)
    requires pi >= 1.0 && pj >= 2.0 * pi && r0 > 0.0
    requires ri * pi == r0 && rj * pj == r0
    ensures rj < ri
  {
    assert rj > 0.0;
    assert rj * (2.0 * pi) <= rj * pj;
  }

  /** Every round but the last is one after which the loop condition held. */
  lemma NotLastContinues(maxTokens: nat, initialRatio: real, h: seq<Attempt>, i: nat)
    requires Schedule(maxTokens, initialRatio, h)
    requires i + 1 < |h|
    ensures Continues(maxTokens, h[i])
  {
    assert Follows(maxTokens, h[i], h[i + 1]);
  }

  /** The rounds are determined by the inputs: two histories that both ran
      until the loop condition failed agree round for round. */
  lemma HistoryUnique(tools: Tools, maxTokens: nat, transcript: string,
                      initialRatio: real, h1: seq<Attempt>, h2: seq<Attempt>)
    requires ValidHistory(tools, maxTokens, transcript, initialRatio, h1)
    requires ValidHistory(tools, maxTokens, transcript, initialRatio, h2)
    requires !Continues(maxTokens, h1[|h1| - 1]) && !Continues(maxTokens, h2[|h2| - 1])
    ensures h1 == h2
  {
    var n := if |h1| < |h2| then |h1| else |h2|;
    SameRounds(tools, maxTokens, transcript, initialRatio, h1, h2, n);
    if |h1| < |h2| {
      NotLastContinues(maxTokens, initialRatio, h2, n - 1);
      assert false;
    } else if |h2| < |h1| {
      NotLastContinues(maxTokens, initialRatio, h1, n - 1);
      assert false;
    } else {
      assert h1 == h1[..n] && h2 == h2[..n];
    }
  }

  /** Two valid histories agree on their common rounds. */
  lemma {:induction false} SameRounds(tools: Tools, maxTokens: nat, transcript: string,
                                      initialRatio: real, h1: seq<Attempt>, h2: seq<Attempt>,
                                      n: nat)
    requires ValidHistory(tools, maxTokens, transcript, initialRatio, h1)
    requires ValidHistory(tools, maxTokens, transcript, initialRatio, h2)
    requires n <= |h1| && n <= |h2|
    ensures h1[..n] == h2[..n]
  {
    if n > 0 {
      SameRounds(tools, maxTokens, transcript, initialRatio, h1, h2, n - 1);
      var i := n - 1;
      if i > 0 {
        assert h1[i - 1] == h1[..n - 1][i - 1] == h2[..n - 1][i - 1] == h2[i - 1];
        assert Follows(maxTokens, h1[i - 1], h1[i]);
        assert Follows(maxTokens, h2[i - 1], h2[i]);
      }
      assert IsRound(tools, h1[i]) && IsRound(tools, h2[i]);
      assert h1[i] == h2[i];
      assert h1[..n] == h1[..n - 1] + [h1[i]];
      assert h2[..n] == h2[..n - 1] + [h2[i]];
    }
  }

  /** The controller. */
  method Reduce(tools: Tools, maxTokens: nat, transcript: string) returns (res: ReductionResult)
    // within budget the transcript goes on untouched with no summarizer call;
    // over budget the rounds are exactly those the loop prescribes and the
    // text sent on is the last round's output, with its own count
    ensures Reduced(tools, maxTokens, transcript, res)
    // either the budget is met or the ratio reached the floor
    ensures res.converged || res.attempts[|res.attempts| - 1].ratio <= ShrinkFloor
    ensures |res.attempts| <= MaxRounds
  {
    var originalTokens := Count(tools, transcript);
    if originalTokens <= maxTokens {
      return ReductionResult(originalTokens, transcript, originalTokens, [], true);
    }

    var initialRatio := InitialRatio(originalTokens, maxTokens);
    var summary := Summarize(tools, initialRatio, FirstFallbackWords, transcript);
    var summaryTokens := Count(tools, summary);
    var attempts := [Attempt(0, initialRatio, FirstFallbackWords, transcript, summary, summaryTokens)];

    var currentRatio := initialRatio;
    while summaryTokens > maxTokens && currentRatio > ShrinkFloor
      invariant ValidHistory(tools, maxTokens, transcript, initialRatio, attempts)
      invariant attempts[|attempts| - 1].ratio == currentRatio
      invariant attempts[|attempts| - 1].output == summary
      invariant attempts[|attempts| - 1].outputTokens == summaryTokens
      invariant |attempts| <= MaxRounds
      decreases MaxRounds - |attempts|
    {
      currentRatio := currentRatio * ShrinkFactor;
      var next := Summarize(tools, currentRatio, LaterFallbackWords, summary);
      var nextTokens := Count(tools, next);
      attempts := attempts + [Attempt(|attempts|, currentRatio, LaterFallbackWords, summary, next, nextTokens)];
      summary, summaryTokens := next, nextTokens;
      HistoryBound(maxTokens, initialRatio, attempts);
    }
    res := ReductionResult(originalTokens, summary, summaryTokens, attempts, summaryTokens <= maxTokens);
  }
}
