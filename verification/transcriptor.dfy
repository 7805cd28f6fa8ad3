/** YouTubeTranscriptorService of services/youtube_transcriptor_service.py:
    the caption-language listing with its "no captions" errors turned into
    None, and the assembly of the transcript text. The transcript API's
    `list` and `fetch` are parameters. */
module Transcriptor {
  import opened Results
  import opened Text

  /** The exceptions the transcript API can raise. */
  datatype ApiError =
    | NoTranscriptFound
    | TranscriptsDisabled
    | VideoUnavailable
    | OtherApiError(name: string)

  /** One entry of `ytt_api.list(video_id)`. */
  datatype TranscriptInfo = TranscriptInfo(languageCode: string)

  /** One caption snippet of a fetched transcript. */
  datatype Snippet = Snippet(text: string)

  /** `ytt_api.list(video_id)`. */
  type Lister = string -> Result<seq<TranscriptInfo>, ApiError>

  /** `ytt_api.fetch(video_id, languages=langs).snippets`. */
  type Fetcher = (string, seq<string>) -> Result<seq<Snippet>, ApiError>

  /** The character the caption texts are joined with. */
  const CaptionSeparator: char := ' '

  /** The text returned when a video has no captions. */
  const NoCaptionsMessage := "No captions available for this video."

  /** The three errors the service reads as "this video has no captions". */
  predicate MeansNoCaptions(e: ApiError) {
    e.NoTranscriptFound? || e.TranscriptsDisabled? || e.VideoUnavailable?
  }

  /** The language codes of a listing, in listing order. */
  function LanguageCodes(ts: seq<TranscriptInfo>): (codes: seq<string>)
    ensures |codes| == |ts|
    ensures forall i :: 0 <= i < |ts| ==> codes[i] == ts[i].languageCode
  {
    if ts == [] then [] else [ts[0].languageCode] + LanguageCodes(ts[1..])
  }

  /** The texts of the caption snippets, in order. */
  function SnippetTexts(snippets: seq<Snippet>): (texts: seq<string>)
    ensures |texts| == |snippets|
    ensures forall i :: 0 <= i < |snippets| ==> texts[i] == snippets[i].text
  {
    if snippets == [] then [] else [snippets[0].text] + SnippetTexts(snippets[1..])
  }

  /** `list_caption_languages`: the language codes in listing order, None
      on the three "no captions" errors; any other error propagates. */
  function ListCaptionLanguages(list: Lister, videoId: string): (r: Result<Option<seq<string>>, ApiError>)
    ensures r == Success(None) <==> list(videoId).Failure? && MeansNoCaptions(list(videoId).error)
    ensures r.Failure? <==> list(videoId).Failure? && !MeansNoCaptions(list(videoId).error)
    ensures r.Failure? ==> r.error == list(videoId).error
    ensures list(videoId).Success? ==>
      && r.Success? && r.value.Some?
      && |r.value.value| == |list(videoId).value|
      && forall i :: 0 <= i < |r.value.value| ==> r.value.value[i] == list(videoId).value[i].languageCode
  {
    match list(videoId)
    case Success(ts) => Success(Some(LanguageCodes(ts)))
    case Failure(e) => if MeansNoCaptions(e) then Success(None) else Failure(e)
  }

  /** The line that introduces the captions: the languages joined by ", ". */
  function Header(langs: seq<string>, videoId: string): string {
    Join(", ", langs) + " languages found for " + videoId + " :\n"
  }

  /** `transcribe`: the "no captions" message when there are no languages,
      otherwise the header followed by the caption texts joined by single
      spaces. Errors the service does not catch propagate. */
  function Transcribe(list: Lister, fetch: Fetcher, videoId: string): (r: Result<string, ApiError>)
    ensures var langs := ListCaptionLanguages(list, videoId);
      && (langs.Failure? ==> r == Failure(langs.error))
      && (langs.Success? && (langs.value.None? || langs.value.value == []) ==>
            r == Success(NoCaptionsMessage))
      && (langs.Success? && langs.value.Some? && langs.value.value != [] ==>
            var fetched := fetch(videoId, langs.value.value);
            && (fetched.Failure? ==> r == Failure(fetched.error))
            && (fetched.Success? ==>
                  r == Success(Header(langs.value.value, videoId)
                               + Join(" ", SnippetTexts(fetched.value)))))
  {
    match ListCaptionLanguages(list, videoId)
    case Failure(e) => Failure(e)
    case Success(None) => Success(NoCaptionsMessage)
    case Success(Some(langs)) =>
      if |langs| == 0 then Success(NoCaptionsMessage)
      else
        match fetch(videoId, langs)
        case Failure(e) => Failure(e)
        case Success(snippets) =>
          Success(Header(langs, videoId) + Join(" ", SnippetTexts(snippets)))
  }

  /** The text after the first line break (the whole text if it has none). */
  function AfterFirstLine(s: string): string {
    if s == [] then []
    else if s[0] == '\n' then s[1..]
    else AfterFirstLine(s[1..])
  }

  lemma {:induction false} AfterFirstLineOf(a: string, b: string)
    requires '\n' !in a
    ensures AfterFirstLine(a + "\n" + b) == b
  {
    if a == [] {
      assert a + "\n" + b == "\n" + b;
    } else {
      assert (a + "\n" + b)[1..] == a[1..] + "\n" + b;
      AfterFirstLineOf(a[1..], b);
    }
  }

  /** A line break in a join comes from one of the parts, never from the
      separator if the separator has none. */
  lemma {:induction false} NoNewlineInJoin(sep: string, parts: seq<string>)
    requires '\n' !in sep
    requires forall i :: 0 <= i < |parts| ==> '\n' !in parts[i]
    ensures '\n' !in Join(sep, parts)
  {
    if |parts| >= 2 {
      NoNewlineInJoin(sep, parts[1..]);
    }
  }

  /** When neither the language codes nor the video id contain a line break,
      the captions can be read back from a transcript: they are everything
      after its first line. */
  lemma CaptionsAfterHeader(langs: seq<string>, videoId: string, captions: string)
    requires forall i :: 0 <= i < |langs| ==> '\n' !in langs[i]
    requires '\n' !in videoId
    ensures AfterFirstLine(Header(langs, videoId) + captions) == captions
  {
    NoNewlineInJoin(", ", langs);
    var a := Join(", ", langs) + " languages found for " + videoId + " :";
    assert Header(langs, videoId) + captions == a + "\n" + captions;
    AfterFirstLineOf(a, captions);
  }

  /** A transcript with captions can never be mistaken for the "no captions"
      message: it contains a line break and the message does not. */
  lemma TranscriptIsNotMessage(langs: seq<string>, videoId: string, captions: string)
    ensures Header(langs, videoId) + captions != NoCaptionsMessage
  {
    var h := Header(langs, videoId);
    assert h[|h| - 1] == '\n';
    assert (h + captions)[|h| - 1] == '\n';
    assert '\n' !in NoCaptionsMessage;
  }

  /** The listing and the transcript agree: the "no captions" message comes
      back exactly when the listing found no languages, either because the
      API reported no captions or because it listed none. */
  lemma MessageIffNoLanguages(list: Lister, fetch: Fetcher, videoId: string)
    ensures Transcribe(list, fetch, videoId) == Success(NoCaptionsMessage)
        <==> ListCaptionLanguages(list, videoId) in {Success(None), Success(Some([]))}
  {
    var langs := ListCaptionLanguages(list, videoId);
    if langs.Success? && langs.value.Some? && langs.value.value != [] {
      var fetched := fetch(videoId, langs.value.value);
      if fetched.Success? {
        TranscriptIsNotMessage(langs.value.value, videoId, Join(" ", SnippetTexts(fetched.value)));
      }
    }
  }

  /** With captions free of spaces, splitting the captions part on " "
      gives back the snippet texts. Real snippets usually hold several
      words, so this covers only the single-word case: in general the
      space join loses the snippet boundaries. */
  lemma {:induction false} CaptionsSplitBack(snippets: seq<Snippet>)
    requires |snippets| >= 1
    requires forall i :: 0 <= i < |snippets| ==> CaptionSeparator !in snippets[i].text
    ensures SplitOn(Join([CaptionSeparator], SnippetTexts(snippets)), CaptionSeparator)
         == SnippetTexts(snippets)
  {
    SplitJoin(SnippetTexts(snippets), CaptionSeparator);
  }
}
