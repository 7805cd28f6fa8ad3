/** TextSummarizerService of services/text_summarizer_service.py: a ratio-based
    extractive summary with a fixed-word-count retry when the first result is
    blank. The TextRank library call is a parameter; every call made to it is
    recorded so that the policy's call pattern can be stated. */
module Summarizer {
  import opened Text

  /** How much the library is asked to keep: a fraction of the text
      (`ratio=`) or a number of words (`words=`). */
  datatype Target = ByRatio(ratio: real) | ByWords(words: int)

  /** `summa.summarizer.summarize(text, ..., split=False)`. */
  type Summa = (string, Target) -> string

  /** One call made to the library. */
  datatype Call = Call(text: string, target: Target)

  /** The instance fields set by the constructor. */
  datatype SummarizerConfig = SummarizerConfig(ratio: real, fallbackWords: int)

  /** What `summarize_text` returned, with the library calls it made, in order. */
  datatype Summary = Summary(text: string, calls: seq<Call>)

  /** The constructor: the arguments are stored unchanged, and default to a
      ratio of 0.1 and 300 fallback words. */
  function NewSummarizer(ratio: real := 0.1, fallbackWords: int := 300): (cfg: SummarizerConfig)
    ensures cfg.ratio == ratio && cfg.fallbackWords == fallbackWords
  {
    SummarizerConfig(ratio, fallbackWords)
  }

  /** The result of a recorded library call. */
  function Answer(summa: Summa, c: Call): string {
    summa(c.text, c.target)
  }

  /** `summarize_text`. */
  function SummarizeText(cfg: SummarizerConfig, summa: Summa, text: string): (r: Summary)
    // a blank input returns "" and never reaches the library
    ensures IsBlank(text) <==> r.calls == []
    ensures IsBlank(text) ==> r.text == ""
    // at most one retry, always on the caller's own text
    ensures |r.calls| <= 2
    ensures forall c :: c in r.calls ==> c.text == text
    // the first attempt uses the configured ratio
    ensures r.calls != [] ==> r.calls[0] == Call(text, ByRatio(cfg.ratio))
    // the retry happens exactly when the ratio-based answer is blank
    ensures |r.calls| == 2 <==> !IsBlank(text) && IsBlank(summa(text, ByRatio(cfg.ratio)))
    ensures |r.calls| == 2 ==> r.calls[1] == Call(text, ByWords(cfg.fallbackWords))
    // the answer of the last call is returned as it came, with no further retry
    ensures r.calls != [] ==> r.text == Answer(summa, r.calls[|r.calls| - 1])
  {
    if IsBlank(text) then Summary("", [])
    else
      var first := Call(text, ByRatio(cfg.ratio));
      if !IsBlank(Answer(summa, first)) then Summary(Answer(summa, first), [first])
      else
        var retry := Call(text, ByWords(cfg.fallbackWords));
        Summary(Answer(summa, retry), [first, retry])
  }

  /** A non-blank ratio-based summary is returned unchanged; a blank one is
      replaced by the word-count summary, blank or not. */
  lemma FallbackPolicy(cfg: SummarizerConfig, summa: Summa, text: string)
    requires !IsBlank(text)
    ensures var byRatio := summa(text, ByRatio(cfg.ratio));
      SummarizeText(cfg, summa, text).text
        == if IsBlank(byRatio) then summa(text, ByWords(cfg.fallbackWords)) else byRatio
  {
  }

  /** The summary is blank only when the input is blank or both attempts
      came back blank. */
  lemma BlankSummary(cfg: SummarizerConfig, summa: Summa, text: string)
    ensures IsBlank(SummarizeText(cfg, summa, text).text) <==>
      || IsBlank(text)
      || (IsBlank(summa(text, ByRatio(cfg.ratio))) && IsBlank(summa(text, ByWords(cfg.fallbackWords))))
  {
    assert IsBlank("") by { assert Strip("") == ""; }
  }
}
