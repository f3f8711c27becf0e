/** `transcript_api.py`: a style profile from a YouTube video's transcript.
    URL parsing is done beforehand (a `Url` record as `urlparse` and
    `parse_qs` would give it), and the transcript service is an oracle
    that either fails or returns the video's segments. The analysis runs
    at temperature 0.7 and the merge at 0.3. */
module TranscriptApi {
  import opened Values
  import opened Text
  import opened Llm
  import opened Profiles

  const AnalysisTemperature := 0.7
  const MergeTemperature := 0.3

  /** `parse_qs` output: every parameter present has at least one value. */
  type Query = q: map<string, seq<string>> | forall k :: k in q ==> q[k] != [] witness map[]

  /** The parts of `urlparse(url)` the script looks at; `hostname` is
      already lower-cased and is `None` when the URL has no host. */
  datatype Url = Url(hostname: Option<string>, path: string, query: Query)

  const InvalidUrl := "Invalid YouTube URL provided."

  /** `extract_video_id(url)`. */
  function ExtractVideoId(url: Url): (r: Result<string>)
    ensures url.hostname == Some("www.youtube.com") || url.hostname == Some("youtube.com") ==>
      r == (if "v" in url.query then Ok(url.query["v"][0]) else Err(KeyError("v")))
    ensures url.hostname == Some("youtu.be") ==>
      r == Ok(if url.path == "" then "" else url.path[1..])
    ensures r == Err(ValueError(InvalidUrl)) <==>
      url.hostname !in {Some("www.youtube.com"), Some("youtube.com"), Some("youtu.be")}
  {
    if url.hostname == Some("www.youtube.com") || url.hostname == Some("youtube.com") then
      if "v" in url.query then Ok(url.query["v"][0]) else Err(KeyError("v"))
    else if url.hostname == Some("youtu.be") then
      Ok(if url.path == "" then "" else url.path[1..])
    else Err(ValueError(InvalidUrl))
  }

  /** The mobile host is not accepted. */
  lemma MobileHostRejected(path: string, query: Query)
    ensures ExtractVideoId(Url(Some("m.youtube.com"), path, query)) == Err(ValueError(InvalidUrl))
  {
  }

  /** One transcript segment. */
  datatype Segment = Segment(text: string)

  /** `not s.strip()`: the text is whitespace only. */
  predicate Blank(s: string) {
    AllSpace(s)
  }

  /** Blank texts are exactly those that strip to nothing. */
  lemma BlankIsEmptyStrip(s: string)
    ensures Blank(s) <==> Strip(s) == ""
  {
    StripAllSpace(s);
  }

  /** `[t.text for t in segments if t.text.strip()]`. */
  function Texts(segments: seq<Segment>): (r: seq<string>)
    ensures |r| <= |segments|
    ensures forall k :: 0 <= k < |r| ==> !Blank(r[k])
    decreases |segments|
  {
    if segments == [] then []
    else if Blank(segments[0].text) then Texts(segments[1..])
    else [segments[0].text] + Texts(segments[1..])
  }

  /** The texts keep the segments' order: the texts of two runs of
      segments are the texts of the first followed by those of the second. */
  lemma {:induction false} TextsAppend(a: seq<Segment>, b: seq<Segment>)
    ensures Texts(a + b) == Texts(a) + Texts(b)
    decreases |a|
  {
    if a == [] {
      assert a + b == b;
    } else {
      assert (a + b)[0] == a[0];
      assert (a + b)[1..] == a[1..] + b;
      TextsAppend(a[1..], b);
    }
  }

  /** A text is kept exactly when it is not blank. */
  lemma TextsOfOne(s: Segment)
    ensures Texts([s]) == if Blank(s.text) then [] else [s.text]
  {
    assert [s][1..] == [];
  }

  /** The transcript: the non-blank texts joined by single spaces. */
  function JoinSegments(segments: seq<Segment>): string {
    Join(Texts(segments), " ")
  }

  /** Only blank segments give the empty transcript. */
  lemma {:induction false} AllBlankGivesEmpty(segments: seq<Segment>)
    requires forall k :: 0 <= k < |segments| ==> Blank(segments[k].text)
    ensures JoinSegments(segments) == ""
    decreases |segments|
  {
    if segments != [] {
      AllBlankGivesEmpty(segments[1..]);
    }
  }

  /** `get_youtube_transcript(url)`: the video id is extracted before the
      guarded block, so its errors propagate; any failure of the fetch
      gives the empty transcript. */
  function GetYoutubeTranscript(url: Url, fetch: string -> Option<seq<Segment>>): (r: Result<string>)
    ensures ExtractVideoId(url).Err? ==> r == Err(ExtractVideoId(url).error)
    ensures ExtractVideoId(url).Ok? && fetch(ExtractVideoId(url).value).None? ==> r == Ok("")
    ensures ExtractVideoId(url).Ok? && fetch(ExtractVideoId(url).value).Some? ==>
      r == Ok(JoinSegments(fetch(ExtractVideoId(url).value).value))
  {
    match ExtractVideoId(url)
    case Err(e) => Err(e)
    case Ok(id) =>
      match fetch(id)
      case None => Ok("")
      case Some(segments) => Ok(JoinSegments(segments))
  }

  /** `main()` after reading its two inputs: the influencer name is
      stripped; an empty transcript skips profiling with nothing requested
      or written; otherwise the transcript is cleaned and profiled. */
  method ProfileFromUrl(nameInput: string, url: Url, fetch: string -> Option<seq<Segment>>,
                        files: map<string, Obj>, client: Client, lib: Foreign)
    returns (r: Result<Option<Obj>>, files': map<string, Obj>)
    modifies client
    ensures GetYoutubeTranscript(url, fetch).Err? ==>
      r == Err(GetYoutubeTranscript(url, fetch).error) && files' == files && client.log == old(client.log)
    ensures GetYoutubeTranscript(url, fetch) == Ok("") ==>
      r == Ok(None) && files' == files && client.log == old(client.log)
    ensures var run := TranscriptRun(Strip(nameInput), GetYoutubeTranscript(url, fetch), files, client.respond,
                                     |old(client.log)|, lib, AnalysisTemperature, MergeTemperature);
      r == run.result && files' == run.files && client.log == old(client.log) + run.sent
  {
    var transcript := GetYoutubeTranscript(url, fetch);
    r, files' := ProfileTranscript(Strip(nameInput), transcript, files, client, lib, AnalysisTemperature, MergeTemperature);
  }
}
