# Token-budget reduction pipeline, modelled in Dafny

This project models the core of a small Python pipeline that turns a YouTube
video's captions into a news-style article. The pipeline fetches the
transcript and counts its tokens. If the transcript is over a budget of 2000
tokens, it summarizes it again and again with a shrinking ratio. It then hands
the reduced text to a language model. It prices the token count of that text
only, not the system prompt and template wrapped around it.

The model covers these parts:

- `Reduction` (`pipeline_main.py`, inside `main()`): the budget-reduction
  controller. It measures the transcript and short-circuits when it is within
  budget. Otherwise it summarizes with `min(0.3, MAX_TOKENS / tokens)` and 600
  fallback words. It then halves the ratio and re-summarizes the previous
  summary with 400 fallback words. It stops when the text fits or the ratio is
  at most 0.05. Each run is recorded as a history of rounds. The proofs show:
  - the history is the one the loop prescribes, and it is unique;
  - each round halves the ratio, so the ratios strictly decrease;
  - there are at most four rounds, and the geometric bound
    `0.05 * 2^(rounds - 2) < initial ratio` holds;
  - the reported token count belongs to the text that is sent on.

  The controller takes its token counter and its per-round summarizer as
  function parameters. `Pipeline` supplies the `TokenCost` counter and the
  `Summarizer` service built with each round's ratio and fallback word count.
- `Summarizer` (`services/text_summarizer_service.py`): the summarizer's
  fallback policy. The library call is a parameter, and each call to it is
  recorded. So the model can state that a blank input makes no call and that
  there are at most two calls.
- `TokenCost` (`services/token_cost_service.py`): the encoding fallback, the
  token count and the linear pricing. Prices are exact reals.
- `Transcriptor` (`services/youtube_transcriptor_service.py`): the
  caption-language listing and the assembly of the transcript text.
- `Trending` (`services/youtube_trending_service.py`): the API-key check, the
  search parameters, and how search and detail items become video records.
  The records are sorted by views with a stable descending sort. The model
  proves that this sort is the only sorted result that keeps tied records in
  their original order.
- `Pipeline` (`pipeline_main.py` `main()`, and the blank-input guard of
  `services/news_article_formatter_service.py`): the orchestration from
  video id to article and cost.
- `Text`: the Python string behaviour the code relies on. This covers
  `str.strip()`, the blank test `not s or not s.strip()` and `sep.join`.
  `Text.SplitOn` is not used by the code. It is a one-character split defined
  only as the inverse of joining, so that round-trip lemmas can be stated.

Third-party calls become function-typed parameters. These are the summa
TextRank summarizer, the tiktoken encoder and model lookup, the transcript
API's `list` and `fetch`, the data API's details lookup, and the
chat-completion model. A library exception that the code catches becomes a
`Result`/`Option` value.

## Model

| member | source | states |
|---|---|---|
| Text.Strip | pipeline_main.py:16 | `strip()` never lengthens its input and leaves no whitespace at either end |
| Text.IsBlank | services/text_summarizer_service.py:16-17 | the blank test `not s or not s.strip()` holds exactly when every character is whitespace |
| Text.StripShape | services/text_summarizer_service.py:16 | `strip()` returns a contiguous piece of its input with no whitespace at either end, and only whitespace is removed around it |
| Text.BlankIffAllSpace | services/text_summarizer_service.py:16-17 | stripping leaves nothing exactly when every character is whitespace, including for the empty string |
| Text.JoinSnoc | services/youtube_transcriptor_service.py:37-38 | `sep.join` builds left to right: adding a part appends the separator and then that part, and a single part is returned unchanged |
| Text.Join | services/youtube_transcriptor_service.py:37-38 | a join of n >= 1 parts is the parts' total length plus n - 1 separators |
| Text.SplitJoin | services/youtube_transcriptor_service.py:38 | splitting a join on its one-character separator gives back the parts when no part contains that character (a round-trip partner of `sep.join`; the code itself never splits) |
| TokenCost.NewTokenCostService | services/token_cost_service.py:13-22 | the service keeps the model name and uses the model's own encoding when the library knows the model, else `cl100k_base`; it never fails |
| TokenCost.CountTokens | services/token_cost_service.py:24-28 | an empty text has 0 tokens; any other text has as many tokens as its encoding under the service's encoding, always a natural number |
| TokenCost.DefaultMeterCounts | services/token_cost_service.py:13-28 | the meter built for the default model counts a non-empty text with the model's own encoding when the library knows it, else with `cl100k_base` |
| TokenCost.EstimateInputCost | services/token_cost_service.py:30-32 | input cost is $0.00015 per 1,000 tokens, that is 1.5e-7 per token, and is non-negative for a non-negative count |
| TokenCost.EstimateOutputCost | services/token_cost_service.py:34-36 | output cost is $0.00060 per 1,000 tokens, that is 6e-7 per token, and is non-negative for a non-negative count |
| TokenCost.EstimateTotalCost | services/token_cost_service.py:38-43 | total cost is (0.15 × input + 0.6 × output) / 1,000,000 dollars |
| TokenCost.CostOfNothing | services/token_cost_service.py:30-43 | zero tokens cost zero, for input, output and total |
| TokenCost.CostMonotone | services/token_cost_service.py:30-36 | more tokens never cost less, for input or output |
| TokenCost.CostAdditive | services/token_cost_service.py:30-43 | pricing is linear: the cost of a + b tokens is the sum of the costs, and the total is input cost plus output cost |
| TokenCost.OutputCostIsFourfold | services/token_cost_service.py:10-11 | an output token costs four times an input token |
| Summarizer.NewSummarizer | services/text_summarizer_service.py:10-12 | the constructor stores ratio and fallback word count unchanged; the defaults are 0.1 and 300 |
| Summarizer.SummarizeText | services/text_summarizer_service.py:14-34 | a blank input returns "" and makes no library call. Otherwise the first call is on the input with the configured ratio. A second call, with the fallback word count, happens exactly when the first answer is blank. There are at most two calls, and the last answer is returned as it came |
| Summarizer.FallbackPolicy | services/text_summarizer_service.py:20-34 | for non-blank input the result is the ratio summary if that is not blank, else the word-count summary, even when that one is blank too |
| Summarizer.BlankSummary | services/text_summarizer_service.py:16-34 | the summary is blank exactly when the input is blank or both attempts came back blank |
| Reduction.Min | pipeline_main.py:44 | `min(a, b)` is one of its arguments and no greater than either |
| Reduction.InitialRatio | pipeline_main.py:44 | the first ratio is `min(0.3, MAX_TOKENS / tokens)`: either 0.3 or the budget's share, never above either, and positive for a positive budget |
| Reduction.InitialRatioExamples | pipeline_main.py:42-44 | with a budget of 2000: 8000 tokens give 0.25, the budget's share; 4000 tokens give the cap 0.3 |
| Reduction.SecondRoundExample | pipeline_main.py:42-55 | a run over an 8000-token transcript with a budget of 2000 makes its second round, if any, at ratio 0.125 |
| Reduction.RatioAt | pipeline_main.py:53-55 | round i runs at the initial ratio divided by 2^i |
| Reduction.NotLastContinues | pipeline_main.py:54 | after every round but the last, the text was still over budget and the ratio still above 0.05 |
| Reduction.LogarithmicBound | pipeline_main.py:54-55 | a run of n > 1 rounds satisfies 0.05 × 2^(n-2) < initial ratio, so at most ceil(log2(initial ratio / 0.05)) halvings happen |
| Reduction.HistoryBound | pipeline_main.py:44-55 | with a first ratio of at most 0.3, a run makes at most four rounds: the first one and at most three halvings |
| Reduction.RatiosDecrease | pipeline_main.py:53-55 | with a positive first ratio, a later round always has a strictly smaller ratio |
| Reduction.HistoryUnique | pipeline_main.py:46-61 | two histories that both follow the loop from the same transcript until its condition fails are equal, so the controller's behaviour is determined by its inputs |
| Reduction.Reduce | pipeline_main.py:33-67 | within budget, the transcript is sent on unchanged with no summarizer call and its own count. Over budget, the first round summarizes the transcript at the initial ratio with 600 words. Each further round halves the ratio, uses 400 words and summarizes the previous summary, and runs only while the count is over budget and the ratio is above 0.05. At exit the text fits or the ratio is at most 0.05. There are at most four rounds. The reported count is always that of the text sent on |
| Reduction.ReducedUnique | pipeline_main.py:33-67 | the controller's result is determined by its collaborators, budget and transcript: two results meeting its postcondition are equal |
| Reduction.ReducedBounds | pipeline_main.py:53-54 | any result meeting the controller's postcondition fits the budget or stopped at a ratio of at most 0.05, after at most four rounds |
| Transcriptor.LanguageCodes | services/youtube_transcriptor_service.py:20 | the language codes of a listing, one per transcript, in listing order |
| Transcriptor.SnippetTexts | services/youtube_transcriptor_service.py:38 | the snippet texts, one per snippet, in order |
| Transcriptor.ListCaptionLanguages | services/youtube_transcriptor_service.py:13-23 | returns None exactly on NoTranscriptFound, TranscriptsDisabled or VideoUnavailable. Any other error propagates. Otherwise it returns the language codes in listing order |
| Transcriptor.Transcribe | services/youtube_transcriptor_service.py:25-40 | no languages (None or empty) gives exactly "No captions available for this video.". Otherwise the result is `", ".join(langs) + " languages found for " + id + " :\n" + " ".join(snippet texts)`. Errors that are not caught propagate |
| Transcriptor.CaptionsAfterHeader | services/youtube_transcriptor_service.py:40 | when the codes and the id have no line break, the captions are exactly what follows the transcript's first line |
| Transcriptor.TranscriptIsNotMessage | services/youtube_transcriptor_service.py:32-40 | a transcript with captions always contains a line break, so it is never equal to the "no captions" message |
| Transcriptor.MessageIffNoLanguages | services/youtube_transcriptor_service.py:13-40 | the transcript is the "no captions" message exactly when the listing reported no captions or listed no languages |
| Transcriptor.CaptionsSplitBack | services/youtube_transcriptor_service.py:38 | captions free of spaces split back on " " into the snippet texts. This is only the single-word case: in general the space join loses the snippet boundaries |
| Trending.NewTrendingService | services/youtube_trending_service.py:9-12 | a missing or empty API key is refused; any other key is kept |
| Trending.TrendingSearchParams | services/youtube_trending_service.py:21-47 | the search is a video search for the topic, ordered by view count, with `top_n` results (10 by default), snippet parts and the cut-off. `region_code` is present exactly when the country code (None by default) is truthy |
| Trending.ViralSearchParams | services/youtube_trending_service.py:79-96 | the same parameters with no publication cut-off and 5 results by default. `region_code` is present exactly when the country code (None by default) is truthy |
| Trending.SearchDefaults | services/youtube_trending_service.py:21-26 | called without optional arguments, a trending search asks for 10 videos and a viral search for 5, with no region |
| Trending.ViewsOf | services/youtube_trending_service.py:64 | the views are the view count when statistics and a count are present, else 0 |
| Trending.ToRecord | services/youtube_trending_service.py:59-74 | a record keeps id, title and publication time. Its views are the view count when statistics and a view count are present, else 0. Its url is the watch URL followed by the id |
| Trending.ToRecords | services/youtube_trending_service.py:59-74 | one record per details item, in response order |
| Trending.UrlNamesVideo | services/youtube_trending_service.py:67-73 | reading a record's url back as a watch URL gives the record's own id |
| Trending.SortByViews | services/youtube_trending_service.py:76 | the sort is a permutation of its input, with views never increasing along the list, and records with equal views keep their relative order (the sort is stable, as Python's is even with reverse=True) |
| Trending.SortCharacterized | services/youtube_trending_service.py:76 | any list that is sorted by views and keeps the input's order among equal views is exactly the sort's result |
| Trending.SortedStableUnique | services/youtube_trending_service.py:76 | two lists sorted by views that agree on every equal-views subsequence are equal |
| Trending.ShapeDetails | services/youtube_trending_service.py:59-77 | the returned list is sorted by views, is a permutation of the per-item records, and is stable |
| Trending.PresentIds | services/youtube_trending_service.py:51 | the id list is empty exactly when no search item has an id, and holds exactly the video ids of the items that have one |
| Trending.PresentIdsSnoc | services/youtube_trending_service.py:51 | the ids come out in item order, one per item that has an id: adding an item at the end adds its id, if any, at the end |
| Trending.AllIds | services/youtube_trending_service.py:100 | takes every item's video id in order, and fails exactly when some item has no id |
| Trending.ShapeFromIds | services/youtube_trending_service.py:53-77 | no ids gives [] with no details lookup. Otherwise there is one lookup with the comma-joined ids, and its items are shaped and sorted |
| Trending.DetailsQuerySplitsBack | services/youtube_trending_service.py:56 | the comma-joined query splits back into exactly the ids it was built from, in order, when no id contains a comma |
| Trending.ShapeTrending | services/youtube_trending_service.py:49-77 | `get_trending_videos` skips items without an id. It makes no lookup and returns [] when no item has one. Otherwise it looks up the comma-joined ids of the items that have one, in order, and returns that lookup's records sorted by views, stable and permuted |
| Trending.ShapeViral | services/youtube_trending_service.py:98-123 | `get_viral_all_time` takes every item's id and fails if one is missing. It makes no lookup and returns [] for no items. Otherwise it looks up the comma-joined ids of all items, in order, and returns that lookup's records sorted by views, stable and permuted |
| Pipeline.FormatAsArticle | services/news_article_formatter_service.py:28-62 | a blank text gives "" without calling the model. Otherwise the result is the model's reply stripped, so it has no whitespace at either end |
| Pipeline.ServiceTools | pipeline_main.py:46-60 | the controller counts with the token meter and summarizes with a summarizer service built for the round's ratio and fallback word count; a blank text is summarized to "" |
| Pipeline.RunPipeline | pipeline_main.py:14-79 | a blank video id stops the run before any fetch, count or summary. A transcript error aborts the run with that error. Otherwise the meter is the one `TokenCostService()` builds for gpt-4o-mini, the reduction is exactly the controller's result with that meter and the summarizer service on a budget of 2000, the article is written from the text the controller sent on, and the cost is priced on that text's token count |

## Left out

- Console input and output, and file writes: the `input()` prompt, the `print` calls, the two `write_text` files and the `__main__` demo blocks. The model starts from the raw id string and ends with the article and the cost.
- Library and network internals: the summa TextRank algorithm, tiktoken's encodings, the transcript API, the data API's search call and the OpenAI chat call. They appear only as function parameters with the narrow contracts stated above. Errors from the details lookup and the model call are not modelled; in the code they abort the run.
- The formatter's prompt text and model settings: `format_as_article` is modelled only up to its blank guard and the stripping of the reply.
- Trending.TrendingSearchParams: the `published_after` cut-off depends on the current time and on `days_back` (default 1), so the caller supplies it as a parameter.
- Environment and credential loading: `from_env`, `load_dotenv` and `os.getenv`. A missing key reaches `Trending.NewTrendingService` as None.
- Floating point: ratios and prices are exact reals. IEEE rounding of `MAX_TOKENS / original_tokens`, of `*= 0.5` and of the price products is not modelled.
- Trending.ToRecord: `viewCount` is taken as an already-parsed optional integer. The `int(...)` conversion of a non-numeric count, which would raise, is not modelled. A zero count gives 0 either way.
- Trending.PresentIds, Trending.AllIds: a search id whose `videoId` is None is not modelled. In the code, joining it with "," would raise.
- TokenCost.NewTokenCostService: an encoding is identified by its name; the tokenizer object itself is the `Tokenizer` parameter.
- Reduction.Reduce: the budget is a parameter, so any budget can be supplied. `Pipeline.RunPipeline` uses 2000, as the code does.
- Text.IsSpace: the characters `str.strip()` removes are the ones Python's `str.isspace` accepts. The model has no other Unicode handling.
- Only the three "no captions" errors give the placeholder text. Any other transcript-API error propagates and aborts the run (`Pipeline.RunPipeline` returns `Aborted`); the model does not turn it into the placeholder.
- `Reduction.Attempt` and `Reduction.ReductionResult` are the model's records of the loop variables; the code keeps no such records. `converged` means the final count is within budget.
