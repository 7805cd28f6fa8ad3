/** The orchestration in `main()` of pipeline_main.py: read a video id, fetch
    its transcript, reduce it to the token budget, rewrite it as an article
    and price the text sent to the model. Console input and output and the two files it
    writes are left to the caller; the article formatter's remote model is a
    parameter. */
module Pipeline {
  import opened Results
  import opened Text
  import TokenCost
  import Summarizer
  import Transcriptor
  import Reduction

  /** `MAX_TOKENS`. */
  const MaxTokens: nat := 2000

  /** The chat-completion call of the article formatter: the model's reply to
      a prompt built around the text. */
  type Rewriter = string -> string

  /** `NewsArticleFormatterService.format_as_article`: nothing is sent for a
      blank text; otherwise the model's reply, stripped. */
  function FormatAsArticle(llm: Rewriter, text: string): (article: string)
    ensures IsBlank(text) ==> article == ""
    ensures !IsBlank(text) ==> article == Strip(llm(text))
    ensures article == [] || (!IsSpace(article[0]) && !IsSpace(article[|article| - 1]))
  {
    if IsBlank(text) then "" else Strip(llm(text))
  }

  /** The controller's collaborators as `main()` builds them: the token
      meter's count, and a summarizer service constructed for each round
      with that round's ratio and fallback word count. */
  function ServiceTools(meter: TokenCost.TokenCostService, encode: TokenCost.Tokenizer,
                        summa: Summarizer.Summa): (tools: Reduction.Tools)
    ensures forall text :: tools.count(text) == TokenCost.CountTokens(meter, encode, text)
    ensures forall text, ratio, fallbackWords ::
              tools.summarize(text, ratio, fallbackWords)
              == Summarizer.SummarizeText(Summarizer.NewSummarizer(ratio, fallbackWords), summa, text).text
  {
    Reduction.Tools(
      text => TokenCost.CountTokens(meter, encode, text),
      (text, ratio, fallbackWords) =>
        Summarizer.SummarizeText(Summarizer.NewSummarizer(ratio, fallbackWords), summa, text).text)
  }

  /** Whatever the round, the controller's summarizer turns a blank text into "". */
  lemma BlankRoundsGiveNothing(meter: TokenCost.TokenCostService, encode: TokenCost.Tokenizer,
                               summa: Summarizer.Summa, text: string, ratio: real, fallbackWords: int)
    requires IsBlank(text)
    ensures ServiceTools(meter, encode, summa).summarize(text, ratio, fallbackWords) == ""
  {
    Summarizer.BlankSummary(Summarizer.NewSummarizer(ratio, fallbackWords), summa, text);
  }

  /** What one completed run produced. */
  datatype Run = Run(videoId: string, transcript: string,
                     reduction: Reduction.ReductionResult, article: string,
                     inputTokens: nat, inputCost: real)

  /** How a run ended: no id given, an error from the transcript API, or done. */
  datatype Outcome = NoVideoId | Aborted(error: Transcriptor.ApiError) | Completed(run: Run)

  /** `main()`, with the token meter built as `TokenCostService()` builds it
      for the default model. */
  method RunPipeline(rawVideoId: string, list: Transcriptor.Lister, fetch: Transcriptor.Fetcher,
                     lookup: TokenCost.EncodingLookup, encode: TokenCost.Tokenizer,
                     summa: Summarizer.Summa, llm: Rewriter)
    returns (outcome: Outcome)
    // a blank id stops the run before anything is fetched, measured or summarized
    ensures IsBlank(rawVideoId) <==> outcome.NoVideoId?
    ensures !IsBlank(rawVideoId) ==>
      (outcome.Aborted? <==> Transcriptor.Transcribe(list, fetch, Strip(rawVideoId)).Failure?)
    ensures outcome.Aborted? ==>
      Transcriptor.Transcribe(list, fetch, Strip(rawVideoId)) == Failure(outcome.error)
    ensures outcome.Completed? ==>
      var run := outcome.run;
      var meter := TokenCost.NewTokenCostService(lookup, TokenCost.DefaultModel);
      && run.videoId == Strip(rawVideoId) && run.videoId != ""
      && Transcriptor.Transcribe(list, fetch, run.videoId) == Success(run.transcript)
      // the article is written from the text the controller sent on
      && run.article == FormatAsArticle(llm, run.reduction.finalText)
      // the cost is that of the text actually sent to the formatter
      && run.inputTokens == TokenCost.CountTokens(meter, encode, run.reduction.finalText)
      && run.inputCost == TokenCost.EstimateInputCost(run.inputTokens)
    // the reduction is the controller's, run with that meter and the
    // summarizer service on the budget of 2000
    ensures outcome.Completed? ==>
      Reduction.Reduced(ServiceTools(TokenCost.NewTokenCostService(lookup, TokenCost.DefaultModel), encode, summa),
                        MaxTokens, outcome.run.transcript, outcome.run.reduction)
  {
    var videoId := Strip(rawVideoId);
    if videoId == "" {
      return NoVideoId;
    }
    var transcript := Transcriptor.Transcribe(list, fetch, videoId);
    if transcript.Failure? {
      return Aborted(transcript.error);
    }
    var meter := TokenCost.NewTokenCostService(lookup, TokenCost.DefaultModel);
    var reduction := Reduction.Reduce(ServiceTools(meter, encode, summa), MaxTokens, transcript.value);
    var article := FormatAsArticle(llm, reduction.finalText);
    var totalInputTokens := reduction.finalTokens;
    var cost := TokenCost.EstimateInputCost(totalInputTokens);
    outcome := Completed(Run(videoId, transcript.value, reduction, article, totalInputTokens, cost));
  }
}
