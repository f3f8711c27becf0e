/** The influencer style record kept per influencer by the two profiling
    scripts: its file name, the append of one analysis per run, and the
    merged profile requested once there is more than one analysis. The
    style-file directory is an in-memory map from file name to record. */
module Profiles {
  import opened Values
  import opened Text
  import opened Llm
  import Extraction

  /** The chat model the scripts name directly. */
  const ScriptModel := "gpt-4o-mini"

  /** How much of the transcript goes into the profiling prompt. */
  const SampleLimit := 7000

  /** `s[:n]`. */
  function Take(s: string, n: nat): (r: string)
    ensures |r| == if |s| <= n then |s| else n
    ensures r == s[..|r|]
  {
    if |s| <= n then s else s[..n]
  }

  /** `f"{name.lower().replace(' ', '_')}.json"`. */
  function ProfileFileName(name: string): (f: string)
    ensures |f| == |name| + 5 && f[|name|..] == ".json"
    ensures forall k :: 0 <= k < |name| ==>
      f[k] == (if LowerChar(name[k]) == ' ' then '_' else LowerChar(name[k]))
    ensures forall k :: 0 <= k < |name| ==> f[k] != ' '
  {
    ReplaceChar(Lower(name), ' ', '_') + ".json"
  }

  /** Names that differ only in ASCII case share one file. */
  lemma FileNameIgnoresCase(a: string, b: string)
    requires |a| == |b|
    requires forall k :: 0 <= k < |a| ==> LowerChar(a[k]) == LowerChar(b[k])
    ensures ProfileFileName(a) == ProfileFileName(b)
  {
    var fa, fb := ProfileFileName(a), ProfileFileName(b);
    assert forall k :: 0 <= k < |fa| ==> fa[k] == fb[k];
  }

  /** The record created when no file exists yet. */
  function NewRecord(name: string): (r: Obj)
    ensures r.Keys == {"name", "analyses"}
    ensures r["name"] == JStr(name) && r["analyses"] == JArr([])
  {
    map["name" := JStr(name), "analyses" := JArr([])]
  }

  /** `record["analyses"]` as something `append` works on. */
  function Analyses(record: Obj): (r: Result<seq<Json>>)
    ensures r.Ok? <==> "analyses" in record && record["analyses"].JArr?
    ensures r.Ok? ==> r.value == record["analyses"].items
    ensures "analyses" !in record ==> r == Err(KeyError("analyses"))
  {
    if "analyses" !in record then Err(KeyError("analyses"))
    else match record["analyses"]
      case JArr(items) => Ok(items)
      case _ => Err(AttributeError)
  }

  /** A style record, updated in place. */
  class StyleRecord {
    var data: Obj

    constructor (data: Obj)
      ensures this.data == data
    {
      this.data := data;
    }

    /** `data["analyses"].append(analysis)`; the result is the new length. */
    method AppendAnalysis(analysis: Json) returns (r: Result<nat>)
      modifies this
      ensures Analyses(old(data)).Err? ==> r == Err(Analyses(old(data)).error) && data == old(data)
      ensures Analyses(old(data)).Ok? ==>
        var items := Analyses(old(data)).value;
        && data == old(data)["analyses" := JArr(items + [analysis])]
        && r == Ok(|items| + 1)
    {
      var items := Analyses(data);
      if items.Err? {
        return Err(items.error);
      }
      data := data["analyses" := JArr(items.value + [analysis])];
      r := Ok(|items.value| + 1);
    }

    /** `data["merged_profile"] = merged`. */
    method SetMergedProfile(merged: Obj)
      modifies this
      ensures data == old(data)["merged_profile" := JObj(merged)]
    {
      data := data["merged_profile" := JObj(merged)];
    }
  }

  /** The record after one run, as a value: one analysis appended, and a
      merged profile from the merge reply when there is more than one. */
  function Updated(record: Obj, analysis: Json, mergeReply: string, parse: string -> Option<Obj>): (r: Result<Obj>)
    ensures r.Err? <==> Analyses(record).Err?
    ensures r.Ok? ==>
      var items := Analyses(record).value;
      && Analyses(r.value) == Ok(items + [analysis])
      && r.value.Keys == record.Keys + (if |items| + 1 > 1 then {"merged_profile"} else {})
      && (forall k :: k in record && k != "analyses" && k != "merged_profile" ==> r.value[k] == record[k])
      && (|items| + 1 > 1 ==> r.value["merged_profile"] == JObj(Extraction.SafeJsonLoads(mergeReply, parse)))
      && (|items| + 1 <= 1 && "merged_profile" in record ==> r.value["merged_profile"] == record["merged_profile"])
  {
    match Analyses(record)
    case Err(e) => Err(e)
    case Ok(items) =>
      var appended := record["analyses" := JArr(items + [analysis])];
      if |items| + 1 > 1 then
        Ok(appended["merged_profile" := JObj(Extraction.SafeJsonLoads(mergeReply, parse))])
      else Ok(appended)
  }

  /** Earlier analyses are kept, in order, and the new one is last. */
  lemma UpdateKeepsHistory(record: Obj, analysis: Json, mergeReply: string, parse: string -> Option<Obj>)
    requires Analyses(record).Ok?
    ensures Updated(record, analysis, mergeReply, parse).Ok?
    ensures var after := Analyses(Updated(record, analysis, mergeReply, parse).value).value;
      && after[..|after| - 1] == Analyses(record).value && after[|after| - 1] == analysis
  {
  }

  /** The first analysis of a new influencer produces no merged profile. */
  lemma FirstAnalysisNotMerged(name: string, analysis: Json, mergeReply: string, parse: string -> Option<Obj>)
    ensures var r := Updated(NewRecord(name), analysis, mergeReply, parse);
      && r.Ok? && r.value.Keys == {"name", "analyses"} && r.value["analyses"] == JArr([analysis])
  {
  }

  function MergePrompt(analyses: string): (p: string)
    ensures Contains(p, analyses)
  {
    var head := "Merge these analyses as JSON:\n";
    var p := head + analyses;
    assert OccursAt(p, analyses, |head|);
    p
  }

  /** The request that merges the analyses. */
  function MergeRequest(items: seq<Json>, lib: Foreign, temperature: real): Request {
    PromptRequest(ScriptModel, MergePrompt(lib.dumps(JArr(items))), temperature)
  }

  /** Appends one analysis to the record and, when it then holds more than
      one, asks for a merged profile; returns the record's new contents. */
  method AppendAndMerge(record: StyleRecord, analysis: Json, client: Client, lib: Foreign, mergeTemperature: real)
    returns (r: Result<Obj>)
    modifies record, client
    ensures Analyses(old(record.data)).Err? ==>
      r == Err(Analyses(old(record.data)).error) && record.data == old(record.data) && client.log == old(client.log)
    ensures Analyses(old(record.data)).Ok? ==>
      var items := Analyses(old(record.data)).value + [analysis];
      var request := MergeRequest(items, lib, mergeTemperature);
      && client.log == old(client.log) + (if |items| > 1 then [request] else [])
      && r == Updated(old(record.data), analysis, client.respond(|old(client.log)|, request), lib.parse)
      && r == Ok(record.data)
  {
    var count := record.AppendAnalysis(analysis);
    if count.Err? {
      return Err(count.error);
    }
    var items := Analyses(record.data).value;
    if count.value > 1 {
      var reply := client.Create(MergeRequest(items, lib, mergeTemperature));
      record.SetMergedProfile(Extraction.SafeJsonLoads(reply, lib.parse));
    }
    r := Ok(record.data);
  }

  function CleanPrompt(raw: string): (p: string)
    ensures Contains(p, raw)
  {
    var head := "Clean the transcript:\n";
    var p := head + raw;
    assert OccursAt(p, raw, |head|);
    p
  }

  /** The request `clean_transcript(raw)` sends. */
  function CleanRequest(raw: string): Request {
    PromptRequest(ScriptModel, CleanPrompt(raw), 0.0)
  }

  /** `clean_transcript(raw)`: one request at temperature 0.0, stripped. */
  method CleanTranscript(raw: string, client: Client) returns (cleaned: string)
    modifies client
    ensures client.log == old(client.log) + [CleanRequest(raw)]
    ensures cleaned == Strip(client.respond(|old(client.log)|, CleanRequest(raw)))
    ensures cleaned != [] ==> !IsSpace(cleaned[0]) && !IsSpace(cleaned[|cleaned| - 1])
  {
    var reply := client.Create(CleanRequest(raw));
    cleaned := Strip(reply);
  }

  function ProfilePrompt(transcript: string): (p: string)
    ensures Contains(p, Take(transcript, SampleLimit))
  {
    var head := "Style profile JSON. Transcript sample:\n";
    var p := head + Take(transcript, SampleLimit);
    assert OccursAt(p, Take(transcript, SampleLimit), |head|);
    p
  }

  function ProfileRequest(transcript: string, temperature: real): Request {
    PromptRequest(ScriptModel, ProfilePrompt(transcript), temperature)
  }

  /** The record on file for `name`, or a new one. */
  function Loaded(name: string, files: map<string, Obj>): Obj {
    var file := ProfileFileName(name);
    if file in files then files[file] else NewRecord(name)
  }

  /** A record written under a name is the one loaded for it, and for any
      name that differs from it only in ASCII case. */
  lemma LoadedAfterStore(name: string, other: string, files: map<string, Obj>, record: Obj)
    requires |other| == |name|
    requires forall k :: 0 <= k < |name| ==> LowerChar(other[k]) == LowerChar(name[k])
    ensures Loaded(other, files[ProfileFileName(name) := record]) == record
  {
    FileNameIgnoresCase(other, name);
  }

  /** One profiling run as a value, given the service's replies from call
      number `n` on: its result, the style directory afterwards and the
      requests sent, in order. */
  datatype Run<T> = Run(result: Result<T>, files: map<string, Obj>, sent: seq<Request>)

  /** `generate_style_profile(name, transcript)` as a value: one analysis
      request, the record loaded from the file named after the influencer
      (or a new one), the append and the merge when there is more than one
      analysis, and the record written back under the same name. */
  function ProfileRun(name: string, transcript: string, files: map<string, Obj>, respond: (nat, Request) -> string,
                      n: nat, lib: Foreign, profileTemperature: real, mergeTemperature: real): Run<Obj>
  {
    var request := ProfileRequest(transcript, profileTemperature);
    var before := Loaded(name, files);
    var analysis := JObj(Extraction.SafeJsonLoads(respond(n, request), lib.parse));
    match Analyses(before)
    case Err(e) => Run(Err(e), files, [request])
    case Ok(items) =>
      var merge := MergeRequest(items + [analysis], lib, mergeTemperature);
      var r := Updated(before, analysis, respond(n + 1, merge), lib.parse);
      Run(r, files[ProfileFileName(name) := r.value], [request] + (if |items| > 0 then [merge] else []))
  }

  /** The analysis request goes first; the merge request follows exactly
      when the record already held an analysis. A run that fails writes
      nothing; one that succeeds stores its result under the name, where
      the next run loads it. */
  lemma ProfileRunSendsAndStores(name: string, transcript: string, files: map<string, Obj>,
                                 respond: (nat, Request) -> string, n: nat, lib: Foreign,
                                 profileTemperature: real, mergeTemperature: real)
    ensures var run := ProfileRun(name, transcript, files, respond, n, lib, profileTemperature, mergeTemperature);
      var before := Analyses(Loaded(name, files));
      && 1 <= |run.sent| <= 2
      && run.sent[0] == ProfileRequest(transcript, profileTemperature)
      && (|run.sent| == 2 <==> before.Ok? && |before.value| > 0)
      && (run.result.Err? <==> before.Err?)
      && (run.result.Err? ==> run.result.error == before.error && run.files == files)
      && (run.result.Ok? ==> run.files == files[ProfileFileName(name) := run.result.value])
      && (run.result.Ok? ==> Loaded(name, run.files) == run.result.value)
  {
  }

  /** The record on file afterwards holds the earlier analyses, in order,
      followed by the analysis of this transcript. */
  lemma ProfileRunAppends(name: string, transcript: string, files: map<string, Obj>,
                          respond: (nat, Request) -> string, n: nat, lib: Foreign,
                          profileTemperature: real, mergeTemperature: real)
    requires Analyses(Loaded(name, files)).Ok?
    ensures var run := ProfileRun(name, transcript, files, respond, n, lib, profileTemperature, mergeTemperature);
      var reply := respond(n, ProfileRequest(transcript, profileTemperature));
      && run.result.Ok?
      && Analyses(Loaded(name, run.files))
         == Ok(Analyses(Loaded(name, files)).value + [JObj(Extraction.SafeJsonLoads(reply, lib.parse))])
  {
    var run := ProfileRun(name, transcript, files, respond, n, lib, profileTemperature, mergeTemperature);
    assert Loaded(name, run.files) == run.result.value;
  }

  /** `generate_style_profile(name, transcript)` over the style directory
      `files`, with the record updated in place before it is written back. */
  method GenerateStyleProfile(name: string, transcript: string, files: map<string, Obj>,
                              client: Client, lib: Foreign, profileTemperature: real, mergeTemperature: real)
    returns (r: Result<Obj>, files': map<string, Obj>)
    modifies client
    ensures var run := ProfileRun(name, transcript, files, client.respond, |old(client.log)|, lib,
                                  profileTemperature, mergeTemperature);
      r == run.result && files' == run.files && client.log == old(client.log) + run.sent
  {
    var reply := client.Create(ProfileRequest(transcript, profileTemperature));
    var analysis := JObj(Extraction.SafeJsonLoads(reply, lib.parse));
    var record := new StyleRecord(Loaded(name, files));
    r := AppendAndMerge(record, analysis, client, lib, mergeTemperature);
    files' := if r.Ok? then files[ProfileFileName(name) := r.value] else files;
  }

  /** Profiling a transcription, as a value: an error propagates, an empty
      transcript gives `None` with nothing requested or written, and any
      other transcript is cleaned and the cleaned text profiled. */
  function TranscriptRun(name: string, transcription: Result<string>, files: map<string, Obj>,
                         respond: (nat, Request) -> string, n: nat, lib: Foreign,
                         profileTemperature: real, mergeTemperature: real): Run<Option<Obj>>
  {
    match transcription
    case Err(e) => Run(Err(e), files, [])
    case Ok(raw) =>
      if raw == "" then Run(Ok(None), files, [])
      else
        var cleaned := Strip(respond(n, CleanRequest(raw)));
        var inner := ProfileRun(name, cleaned, files, respond, n + 1, lib, profileTemperature, mergeTemperature);
        var r := if inner.result.Ok? then Ok(Some(inner.result.value)) else Err(inner.result.error);
        Run(r, inner.files, [CleanRequest(raw)] + inner.sent)
  }

  /** A non-empty transcript is cleaned first, and what is profiled is the
      stripped reply to that request; a successful run returns the record
      it stored under the name, and a failed one writes nothing. */
  lemma TranscriptRunProfilesCleaned(name: string, raw: string, files: map<string, Obj>,
                                     respond: (nat, Request) -> string, n: nat, lib: Foreign,
                                     profileTemperature: real, mergeTemperature: real)
    requires raw != ""
    ensures var run := TranscriptRun(name, Ok(raw), files, respond, n, lib, profileTemperature, mergeTemperature);
      var cleaned := Strip(respond(n, CleanRequest(raw)));
      && |run.sent| >= 2
      && run.sent[0] == CleanRequest(raw)
      && run.sent[1] == ProfileRequest(cleaned, profileTemperature)
      && (run.result.Ok? ==> run.result.value.Some? && Loaded(name, run.files) == run.result.value.value)
      && (run.result.Err? ==> run.files == files)
  {
    var cleaned := Strip(respond(n, CleanRequest(raw)));
    ProfileRunSendsAndStores(name, cleaned, files, respond, n + 1, lib, profileTemperature, mergeTemperature);
  }

  /** A non-empty transcript's run is the cleaning request followed by
      the profiling run on the cleaned text. */
  lemma TranscriptRunOfText(name: string, raw: string, files: map<string, Obj>,
                            respond: (nat, Request) -> string, n: nat, lib: Foreign,
                            profileTemperature: real, mergeTemperature: real)
    requires raw != ""
    ensures var inner := ProfileRun(name, Strip(respond(n, CleanRequest(raw))), files, respond, n + 1, lib,
                                    profileTemperature, mergeTemperature);
      TranscriptRun(name, Ok(raw), files, respond, n, lib, profileTemperature, mergeTemperature)
      == Run(if inner.result.Ok? then Ok(Some(inner.result.value)) else Err(inner.result.error),
             inner.files, [CleanRequest(raw)] + inner.sent)
  {
  }

  /** `cleaned = clean_transcript(transcript)` followed by
      `generate_style_profile(name, cleaned)`: the cleaning request, then
      the profiling run on the stripped reply. */
  method CleanAndProfile(name: string, raw: string, files: map<string, Obj>,
                         client: Client, lib: Foreign, profileTemperature: real, mergeTemperature: real)
    returns (r: Result<Obj>, files': map<string, Obj>)
    modifies client
    ensures var n := |old(client.log)|;
      var run := ProfileRun(name, Strip(client.respond(n, CleanRequest(raw))), files, client.respond, n + 1, lib,
                            profileTemperature, mergeTemperature);
      r == run.result && files' == run.files && client.log == old(client.log) + [CleanRequest(raw)] + run.sent
  {
    var cleaned := CleanTranscript(raw, client);
    r, files' := GenerateStyleProfile(name, cleaned, files, client, lib, profileTemperature, mergeTemperature);
  }

  /** A non-empty transcript, cleaned and profiled: exactly the run of
      `TranscriptRun` on it. */
  method ProfileText(name: string, raw: string, files: map<string, Obj>,
                     client: Client, lib: Foreign, profileTemperature: real, mergeTemperature: real)
    returns (r: Result<Option<Obj>>, files': map<string, Obj>)
    requires raw != ""
    modifies client
    ensures var run := TranscriptRun(name, Ok(raw), files, client.respond, |old(client.log)|, lib,
                                     profileTemperature, mergeTemperature);
      r == run.result && files' == run.files && client.log == old(client.log) + run.sent
  {
    TranscriptRunOfText(name, raw, files, client.respond, |client.log|, lib, profileTemperature, mergeTemperature);
    var profile;
    profile, files' := CleanAndProfile(name, raw, files, client, lib, profileTemperature, mergeTemperature);
    r := if profile.Ok? then Ok(Some(profile.value)) else Err(profile.error);
  }

  /** Profiling a transcription, with the requests sent through `client`. */
  method ProfileTranscript(name: string, transcription: Result<string>, files: map<string, Obj>,
                           client: Client, lib: Foreign, profileTemperature: real, mergeTemperature: real)
    returns (r: Result<Option<Obj>>, files': map<string, Obj>)
    modifies client
    ensures transcription.Err? ==>
      r == Err(transcription.error) && files' == files && client.log == old(client.log)
    ensures transcription == Ok("") ==>
      r == Ok(None) && files' == files && client.log == old(client.log)
    ensures var run := TranscriptRun(name, transcription, files, client.respond, |old(client.log)|, lib,
                                     profileTemperature, mergeTemperature);
      r == run.result && files' == run.files && client.log == old(client.log) + run.sent
  {
    if transcription.Err? {
      return Err(transcription.error), files;
    }
    if transcription.value == "" {
      return Ok(None), files;
    }
    r, files' := ProfileText(name, transcription.value, files, client, lib, profileTemperature, mergeTemperature);
  }
}
