# AI Multi-Agent Content Studio — a verified model of the script pipeline

The AI Content Studio writes YouTube and Instagram scripts in the voice of a
chosen influencer. A director graph runs a chain of language-model agents
over one shared state dictionary:

- research notes on the topic;
- a long-form writer (hooks first, then a draft) or a short-form writer, chosen by content type;
- an editor;
- a post-processor that strips stage directions;
- a quality evaluator, which can send the script back to the writer for at most two revisions.

A voice-calibration agent turns a creator's own writing samples into a
style profile and merges it with the influencer's. Two scripts build and
extend the influencer style records from video transcripts. The web front
end contributes a little pure logic: the display-name cleanup, the platform
key and the default video length.

The model is Dafny. Each agent, the director graph and the web front end have a module of their own. The JSON values, the string operations, `safe_json_loads`, the LLM client and the state dictionary are shared modules, and the two profile scripts share `Profiles`:

| module | models |
|---|---|
| `Values` | JSON values, `dict.get`, Python truthiness and `<`, the exceptions raised |
| `Text` | `str.strip`, `lower`, `replace`, `join`, substring membership |
| `Extraction` | `safe_json_loads` (strict parse, then greedy brace span, then `{"raw_output": text}`) |
| `Llm` | `BaseAgent.call_llm` and the chat-completion client as an oracle with a request log |
| `ScriptState` | the shared state dictionary as a class with one optional field per key |
| `Research`, `ScriptWriter`, `ShortForm`, `Editor`, `PostProcessor`, `Quality` | each agent's `run`, as a method that changes the state in place |
| `DirectorGraph` | the graph table, `choose_writer`, `quality_check`, and a sequential runner with a proved bound on revisions |
| `VoiceCalibration` | `VoiceCalibrationAgent.run`, `analyze_creator_style`, `merge_styles` |
| `Profiles`, `InfluencerProfile`, `TranscriptApi` | the style-record update, transcript cleaning, `extract_video_id`, the transcript join |
| `App` | `remove_influencer`, the content key, the default duration and its session reset, the initial state |

Every language-model call goes through `Llm.Client`. Its reply to the n-th
request is `respond(n, request)`, and the client appends each request
(model, messages, temperature) to `log`. So every agent's contract states
exactly which requests it sends and which state keys it writes from the
replies, and that nothing else changes. `json.loads` and `json.dumps` are
the parameters `parse` and `dumps` of `Values.Foreign`.

## Model

| member | source | states |
|---|---|---|
| Values.Get | AI_Content_Studio/Agents/quality_agent.py:47-50 | `d.get(key, default)`: the stored value when the key is present, the default otherwise |
| Values.LessThan | Agents/director_graph.py:89 | comparing a number with the threshold is numeric `<`; `True` compares as 1 and `False` as 0; any other value raises TypeError, and only then |
| Values.Truthy | Agents/script_writer_agent.py:9 | Python truthiness: `None`, `False`, zero and empty strings, lists and dicts are false; the writer's revision test and the sample selection use it |
| Text.Strip | Agents/postprocessor_agent.py:21 | `strip`: a slice of the input with only whitespace dropped at both ends, neither starting nor ending with whitespace |
| Text.SkipLeft | Agents/postprocessor_agent.py:21 | where `strip` starts: the first position at or after a given one whose character is not whitespace, every character before it from there being whitespace |
| Text.SkipRight | Agents/postprocessor_agent.py:21 | where `strip` ends: the end of a range once its trailing whitespace is dropped, every dropped character being whitespace |
| Text.StripIdempotent | Agents/postprocessor_agent.py:21 | stripping twice equals stripping once |
| Text.StripAllSpace | Scripts/transcript_api.py:53 | a string strips to "" exactly when it is all whitespace |
| Text.Lower | app.py:109 | `lower` keeps the length and lower-cases each ASCII letter |
| Text.ReplaceChar | Scripts/youtube_influencer_profile.py:145 | `replace(a, b)` keeps the length and replaces exactly the occurrences of `a` |
| Text.Join | Agents/voice_calibration.py:63 | `sep.join(parts)`; its order and length are stated by `Text.JoinSnoc` and `Text.JoinLength` |
| Text.JoinSnoc | Agents/voice_calibration.py:63 | `sep.join` keeps the order: appending a part appends the separator and that part |
| Text.JoinLength | Agents/voice_calibration.py:63 | the joined length is the parts' lengths plus one separator between each two |
| Extraction.FindFrom | Agents/voice_calibration.py:9 | the first occurrence of a character at or after a position, or none |
| Extraction.FindLastBefore | Agents/voice_calibration.py:9 | the last occurrence of a character before a position, or none |
| Extraction.BraceBounds | Agents/voice_calibration.py:9-10 | the regex matches exactly when a `{` precedes a `}`; the match runs from the first `{` to the last `}` |
| Extraction.BraceSpan | Agents/voice_calibration.py:9-12 | `match.group()` is the text between those bounds, inclusive |
| Extraction.BraceSpanIsLongest | Agents/voice_calibration.py:9 | every `{...}` substring lies inside the greedy span |
| Extraction.SpanOfWrappedObject | Agents/voice_calibration.py:9-12 | an object between brace-free prose and a tail without `}` is cut out exactly |
| Extraction.SpanOfExampleReply | Agents/voice_calibration.py:9-12 | the span of a reply with prose around `{"a": 1, "b": 2}` is that object |
| Extraction.RawOutput | Agents/voice_calibration.py:14-15 | the fallback record has the single key `raw_output`, holding the text |
| Extraction.SafeJsonLoads | Agents/voice_calibration.py:5-15 | a successful strict parse is returned; without a brace span the fallback record is returned |
| Extraction.SafeJsonLoadsCases | Scripts/youtube_influencer_profile.py:12-22 | the result is the strict parse, or the parse of the brace span after a failed strict parse, or the fallback record when both fail |
| Extraction.NoRawOutputMeansParsed | Scripts/transcript_api.py:15-26 | a result without `raw_output` comes from a successful parse of the text or of its span |
| Extraction.NoBracesFallsBack | Scripts/transcript_api.py:19-26 | brace-free text that does not parse gives `{"raw_output": text}` |
| Llm.Client.Create | AI_Content_Studio/Agents/base_agent.py:43-48 | one request is appended to the log, and the reply is the oracle's answer to it |
| Llm.Messages | AI_Content_Studio/Agents/base_agent.py:38-41 | given messages are sent unchanged and the prompt ignored; a prompt alone becomes one user message; neither raises ValueError, and only then |
| Llm.CallLlm | AI_Content_Studio/Agents/base_agent.py:28-48 | on ValueError nothing is sent; otherwise exactly one request, with model and temperature defaulting to the configured ones, and its reply is returned |
| Llm.Ask | AI_Content_Studio/Agents/base_agent.py:28-48 | `call_llm(prompt, temperature=t)` sends one user message with the default model at temperature t |
| ScriptState.State.constructor | Agents/state_schema.py:3-15 | a dictionary holding exactly the given keys |
| Research.Prompt | AI_Content_Studio/Agents/research_agent.py:11-14 | the research prompt contains the topic |
| Research.Run | AI_Content_Studio/Agents/research_agent.py:9-52 | no topic: KeyError, and nothing sent or changed; otherwise one request at 0.9, and only `research_notes` changes, to the reply |
| ScriptWriter.TargetWords | Agents/script_writer_agent.py:44 | `int(duration * 2.5)`: 2.5 words per second, truncated toward zero, negative durations included |
| ScriptWriter.DefaultTargets | Agents/script_writer_agent.py:41-44 | the default 180 seconds gives 450 words, and 60 seconds gives 150 |
| ScriptWriter.RevisionMode | Agents/script_writer_agent.py:9-11 | `if feedback:` on the stored feedback; `ScriptWriter.EmptyFeedbackIsFirstPass` states which values select it |
| ScriptWriter.EmptyFeedbackIsFirstPass | Agents/script_writer_agent.py:9-11 | absent or empty feedback selects the first pass; any non-empty feedback string selects revision mode |
| ScriptWriter.Hooks | Agents/script_writer_agent.py:66-69 | hooks are the strict parse of the reply, else `{"raw_output": reply}` |
| ScriptWriter.HooksSkipBraceSpan | Agents/script_writer_agent.py:66-69 | unlike `safe_json_loads`, the hooks never take a parsable brace span out of an unparsable reply |
| ScriptWriter.RevisionPrompt | Agents/script_writer_agent.py:15-33 | the revision prompt contains the draft and the feedback |
| ScriptWriter.HookPrompt | Agents/script_writer_agent.py:46-62 | the hook prompt contains the topic |
| ScriptWriter.DraftPrompt | Agents/script_writer_agent.py:74-118 | the draft prompt contains the topic |
| ScriptWriter.Run | Agents/script_writer_agent.py:5-121 | revision mode: one request at 0.9 on `processed_script` (default ""), and only `draft_script` changes. First pass: KeyError for a missing topic, then for a missing style profile; otherwise two requests at 1.0, and only `hooks` and `draft_script` change |
| ShortForm.UserMessage | Agents/shortform_agent.py:30-35 | the user message contains the topic |
| ShortForm.Messages | Agents/shortform_agent.py:51-56 | exactly two messages, system then user |
| ShortForm.Run | Agents/shortform_agent.py:8-59 | KeyError for a missing topic, then for a missing style profile; otherwise one request of those two messages at 1.0 with duration defaulting to 60, and only `draft_script` changes, to the reply |
| Editor.Prompt | Agents/editor_agent.py:9-35 | the editor prompt contains the draft |
| Editor.Run | Agents/editor_agent.py:5-38 | never fails: the draft defaults to "" and the profile to {}; one request at 0.6, and only `edited_script` changes, to the reply |
| PostProcessor.Prompt | Agents/postprocessor_agent.py:9-19 | the post-processing prompt contains the script |
| PostProcessor.Run | Agents/postprocessor_agent.py:7-22 | one request at 0.0 on `edited_script` (default ""); only `processed_script` changes, to the stripped reply, which neither starts nor ends with whitespace |
| Quality.DefaultReport | AI_Content_Studio/Agents/quality_agent.py:29-35 | the fallback report: scores of 0.5, a fixed feedback and the raw reply; `DirectorGraph.UnparsableReportRevises` shows it always sends the script back while revisions remain |
| Quality.ShapeReport | AI_Content_Studio/Agents/quality_agent.py:29-52 | the report has exactly the five keys and always keeps the raw reply; a `raw_output` key in the parse gives the default report; otherwise each score defaults to 0.5 on its own, and feedback to "Unable to parse feedback." |
| Quality.UnparsableReplyGivesDefault | AI_Content_Studio/Agents/quality_agent.py:37-43 | a reply with no parsable JSON gives the default report: three scores of 0.5 and "No structured feedback available." |
| Quality.RawOutputKeyMeansFailure | AI_Content_Studio/Agents/quality_agent.py:39-43 | a parsed object that itself has a `raw_output` key is also treated as a failure |
| Quality.ParsedScoresKept | AI_Content_Studio/Agents/quality_agent.py:46-49 | a parsed key stays in the report exactly when it is one of the report keys, and a score or feedback the reply gives is kept as given |
| Quality.Prompt | AI_Content_Studio/Agents/quality_agent.py:10-26 | the quality prompt contains the script |
| Quality.Run | AI_Content_Studio/Agents/quality_agent.py:6-54 | no style profile: KeyError, and nothing sent or changed; otherwise one request at 0.0 on `processed_script` (default ""), and only `quality_report` changes |
| DirectorGraph.GraphBuilder.AddNode | Agents/director_graph.py:21-68 | registers one node and changes nothing else |
| DirectorGraph.GraphBuilder.AddEdge | Agents/director_graph.py:107-111 | registers one fixed edge and changes nothing else |
| DirectorGraph.GraphBuilder.AddConditionalEdges | Agents/director_graph.py:99-119 | registers one router with its label table and changes nothing else |
| DirectorGraph.GraphBuilder.SetEntryPoint | Agents/director_graph.py:98 | sets the entry point and changes nothing else |
| DirectorGraph.BuildScriptGraph | Agents/director_graph.py:17-121 | the calls build exactly the script graph: seven nodes with their input and output keys, the two routers with their label tables, five fixed edges, and research as the entry point |
| DirectorGraph.ChooseWriterLabel | Agents/director_graph.py:70-78 | "shortform" exactly when the lower-cased content type is "instagram", and "writer" otherwise (absent and "" included) |
| DirectorGraph.ChooseWriterExamples | Agents/director_graph.py:70-78 | "Instagram" and "INSTAGRAM" route to the short form; absent, "" and "youtube" route to the writer |
| DirectorGraph.GateDecision | Agents/director_graph.py:80-96 | at two or more revisions: finish, whatever the score. Below that: a score under 0.85, or `False`, revises with the report's feedback (default "") and count+1; a score of 0.85 or more, or `True`, finishes; any other score raises TypeError, and only then |
| DirectorGraph.UnparsableReportRevises | Agents/director_graph.py:89-93 | the fallback report of an unparsable quality reply always revises while fewer than two revisions were made, with its fixed feedback |
| DirectorGraph.MissingScoreFinishes | Agents/director_graph.py:81-82 | a missing report or score counts as 1 and finishes |
| DirectorGraph.QualityCheckRoute | Agents/director_graph.py:80-96 | "revise" stores the feedback and the new count, and changes nothing else; "finish" and errors change nothing |
| DirectorGraph.ScriptGraphEdges | Agents/director_graph.py:98-120 | the graph's edges are exactly the nine listed, including the two branches of each router |
| DirectorGraph.GateRun | Agents/director_graph.py:83-96 | the gate alone over a sequence of scores: how many evaluations run and the final count; `DirectorGraph.GateRunBound` bounds it |
| DirectorGraph.GateRunBound | Agents/director_graph.py:83-93 | over any sequence of scores, the gate is evaluated at most (remaining revisions + 1) times, and the count never passes 2 |
| DirectorGraph.TwoRevisionsThenGood | Agents/director_graph.py:83-96 | two low scores and then a good one: three evaluations, ending at count 2 |
| DirectorGraph.NeverGoodStopsAtCap | Agents/director_graph.py:83-87 | scores that are always low stop after three evaluations at count 2 |
| DirectorGraph.GoodFirstScore | Agents/director_graph.py:94-96 | a good first score finishes after one evaluation, with no revision recorded |
| DirectorGraph.ScriptGraphNodes | Agents/director_graph.py:21-68 | the graph's nodes are exactly the seven registered agents |
| DirectorGraph.ScriptPathIsPath | Agents/director_graph.py:98-120 | a walk along the listed edges is a path of the built graph |
| DirectorGraph.PathSnoc | Agents/director_graph.py:98-120 | a walk along the listed edges, extended by a listed edge, is still such a walk |
| DirectorGraph.FixedEdgeAdvances | Agents/director_graph.py:107-111 | every fixed edge leads to a node of the graph that is one step closer to the quality gate |
| DirectorGraph.BranchAdvances | Agents/director_graph.py:99-119 | every router target is an edge; research's writers are closer to the quality gate; the gate's "revise" goes back to the revising writer and "finish" ends the run |
| DirectorGraph.RunNode | Agents/director_graph.py:21-68 | running any node leaves `revision_count` unchanged and never removes `processed_script`; the post-processor always sets `processed_script`, and a successful quality node leaves a report |
| DirectorGraph.Step | Agents/director_graph.py:80-120 | one node and its routing follow an edge of the graph; going back from the quality node uses up one revision; leaving the graph happens only when the gate decides "finish" on the state as it then is, with a report present |
| DirectorGraph.Invoke | Agents/director_graph.py:80-121 | a run starts at research and follows edges of the graph; a successful run ends at the quality node, with `processed_script` and `quality_report` set and the gate deciding "finish" on the final state; the quality node is reached at most (remaining revisions + 1) times, 3 from a fresh state, and the count stays at most 2 |
| VoiceCalibration.JoinSamplesInOrder | Agents/voice_calibration.py:63 | the samples are joined in order with the sample-break marker between them |
| VoiceCalibration.AnalysisPrompt | Agents/voice_calibration.py:65-95 | the analysis prompt contains the joined samples |
| VoiceCalibration.CreatorProfile | Agents/voice_calibration.py:100-115 | the strict parse of the reply; otherwise "unable to parse" for tone, structure, sentence pattern and persona, an empty list of phrases, and the raw reply |
| VoiceCalibration.AnalyzeCreatorStyle | Agents/voice_calibration.py:44-115 | one request at 0.3 on the joined samples; the result is the creator profile of the reply |
| VoiceCalibration.SelectSamples | Agents/voice_calibration.py:36 | non-empty creator samples win; otherwise `samples` is used |
| VoiceCalibration.Run | Agents/voice_calibration.py:27-42 | without samples nothing is sent or changed; otherwise one request, and only `creator_style` changes |
| VoiceCalibration.CleanCreator | Agents/voice_calibration.py:129 | every key of the creator style except `raw_output`, with its value |
| VoiceCalibration.Last | Agents/voice_calibration.py:136 | `x[-1]`: the last item of a non-empty list; IndexError for an empty one |
| VoiceCalibration.InfluencerSide | Agents/voice_calibration.py:132-138 | `merged_profile` if present, else the last of `analyses` if present, else the whole profile |
| VoiceCalibration.EmptyAnalysesFail | Agents/voice_calibration.py:134-136 | an empty `analyses` list with no merged profile raises IndexError |
| VoiceCalibration.MergeOutcome | Agents/voice_calibration.py:190-206 | a parsed merge has exactly the parsed keys plus `signature_phrases`: the reply's list when it gave one, `[]` otherwise, and every other parsed key as given; a failed parse gives the influencer side plus `merge_note` and `raw_merge_output`, with all other keys unchanged; a list influencer side raises TypeError and any other non-dict raises AttributeError |
| VoiceCalibration.MergePrompt | Agents/voice_calibration.py:140-185 | the merge prompt contains both rendered styles |
| VoiceCalibration.MergeStyles | Agents/voice_calibration.py:117-206 | an error choosing the influencer side is raised before any request; otherwise one request at 0.3 decides the result |
| Profiles.Take | Scripts/youtube_influencer_profile.py:120 | `s[:7000]`: the prefix of length min(len(s), 7000) |
| Profiles.ProfileFileName | Scripts/youtube_influencer_profile.py:143-146 | the name lower-cased, every space made `_`, then ".json"; the name part contains no space |
| Profiles.FileNameIgnoresCase | Scripts/youtube_influencer_profile.py:145 | names that differ only in ASCII case share one file |
| Profiles.NewRecord | Scripts/youtube_influencer_profile.py:152-153 | a new record has exactly `name` and an empty `analyses` list |
| Profiles.Analyses | Scripts/youtube_influencer_profile.py:156 | appending needs a list under `analyses`: a missing key raises KeyError, and a non-list value cannot be appended to |
| Profiles.StyleRecord.AppendAnalysis | Scripts/youtube_influencer_profile.py:156 | appends exactly one analysis at the end, or raises and changes nothing |
| Profiles.StyleRecord.SetMergedProfile | Scripts/youtube_influencer_profile.py:218 | sets `merged_profile` and changes nothing else |
| Profiles.Updated | Scripts/youtube_influencer_profile.py:155-218 | one analysis appended; `merged_profile` is added from the merge reply exactly when there is more than one analysis; every other key is kept |
| Profiles.UpdateKeepsHistory | Scripts/youtube_influencer_profile.py:156 | earlier analyses stay in order, and the new one is last |
| Profiles.FirstAnalysisNotMerged | Scripts/youtube_influencer_profile.py:152-159 | a new influencer's first analysis gives a record with only `name` and that one analysis |
| Profiles.MergePrompt | Scripts/youtube_influencer_profile.py:160-211 | the merge prompt contains the rendered analyses |
| Profiles.AppendAndMerge | Scripts/youtube_influencer_profile.py:155-218 | the in-place append and merge produce `Updated`; the merge request is sent only when there is more than one analysis |
| Profiles.CleanPrompt | Scripts/youtube_influencer_profile.py:26-37 | the cleaning prompt contains the raw transcript |
| Profiles.CleanTranscript | Scripts/youtube_influencer_profile.py:24-43 | one request at 0.0; the result is the stripped reply, which neither starts nor ends with whitespace |
| Profiles.ProfilePrompt | Scripts/youtube_influencer_profile.py:84-121 | the profiling prompt contains the first 7000 characters of the transcript |
| Profiles.Loaded | Scripts/youtube_influencer_profile.py:149-153 | the record on file under the influencer's file name, or a new one; `Profiles.LoadedAfterStore` states the round trip |
| Profiles.LoadedAfterStore | Scripts/youtube_influencer_profile.py:143-153 | a record stored under a name is loaded back for that name and for every name that differs from it only in ASCII case |
| Profiles.ProfileRun | Scripts/youtube_influencer_profile.py:79-225 | `generate_style_profile` as a value: the analysis request, the loaded-or-new record, the append and conditional merge, and the write-back; its properties are the two lemmas below |
| Profiles.ProfileRunSendsAndStores | Scripts/youtube_influencer_profile.py:79-225 | a profiling run sends the analysis request first and the merge request exactly when the record already held an analysis; a failure writes nothing; a success stores its result, which the next run loads |
| Profiles.ProfileRunAppends | Scripts/youtube_influencer_profile.py:132-159 | after a run, the record on file holds the earlier analyses in order, then the analysis of this transcript |
| Profiles.GenerateStyleProfile | Scripts/youtube_influencer_profile.py:79-225 | the requests sent, the result and the new style directory are exactly those of `Profiles.ProfileRun`, with the record updated in place |
| Profiles.TranscriptRun | Scripts/youtube_influencer_profile.py:228-247 | profiling a transcription as a value: an error propagates, an empty transcript gives None with nothing sent or written, and any other transcript is cleaned and the cleaned text profiled |
| Profiles.TranscriptRunProfilesCleaned | Scripts/youtube_influencer_profile.py:228-247 | a non-empty transcript is cleaned first, and the text profiled is the stripped reply to that request; a success returns the record now on file, and a failure writes nothing |
| Profiles.TranscriptRunOfText | Scripts/youtube_influencer_profile.py:239-247 | for a non-empty transcript, `Profiles.TranscriptRun` is the cleaning request followed by `Profiles.ProfileRun` on the stripped reply, with the result wrapped in Some |
| Profiles.CleanAndProfile | Scripts/youtube_influencer_profile.py:239-247 | sends the cleaning request, then does exactly `Profiles.ProfileRun` on the stripped reply to it, with the same result and new directory |
| Profiles.ProfileText | Scripts/youtube_influencer_profile.py:239-247 | for a non-empty transcript, the requests sent, the result and the new directory are exactly those of `Profiles.TranscriptRun` |
| Profiles.ProfileTranscript | Scripts/youtube_influencer_profile.py:228-247 | a transcription error propagates and an empty transcript returns None, both with nothing sent or written; in every case the requests, the result and the new directory are exactly those of `Profiles.TranscriptRun` |
| InfluencerProfile.GenerateInfluencerStyle | Scripts/youtube_influencer_profile.py:228-247 | `Profiles.TranscriptRun` with the analysis and the merge at temperature 0.7 |
| TranscriptApi.ExtractVideoId | Scripts/transcript_api.py:30-40 | for www.youtube.com and youtube.com, the first value of `v` (KeyError without one); for youtu.be, the path minus its first character; any other host raises ValueError, and only those |
| TranscriptApi.MobileHostRejected | Scripts/transcript_api.py:39-40 | m.youtube.com is rejected |
| TranscriptApi.BlankIsEmptyStrip | Scripts/transcript_api.py:53 | a segment is dropped exactly when its text strips to "" |
| TranscriptApi.Texts | Scripts/transcript_api.py:53 | the kept texts are non-blank |
| TranscriptApi.TextsAppend | Scripts/transcript_api.py:53 | the kept texts follow the segments' order |
| TranscriptApi.TextsOfOne | Scripts/transcript_api.py:53 | one segment is kept exactly when its text is not blank |
| TranscriptApi.AllBlankGivesEmpty | Scripts/transcript_api.py:53 | only blank segments give the empty transcript |
| TranscriptApi.JoinSegments | Scripts/transcript_api.py:53 | `" ".join(...)` of the non-blank texts; `TranscriptApi.TextsAppend` and `TranscriptApi.AllBlankGivesEmpty` state what it keeps |
| TranscriptApi.GetYoutubeTranscript | Scripts/transcript_api.py:43-58 | a bad URL raises; a failed fetch gives ""; otherwise the non-blank texts joined by spaces |
| TranscriptApi.ProfileFromUrl | Scripts/transcript_api.py:216-230 | `Profiles.TranscriptRun` on the stripped name and the fetched transcript, with the analysis at 0.7 and the merge at 0.3 |
| App.Scan | app.py:24 | the left-to-right `re.sub` of the whole-word pattern by ""; `App.ScanIsKept` proves it equal to the reference `App.Kept` |
| App.Kept | app.py:23-24 | the reference result of the substitution: each character is kept exactly when no whole-word match covers it |
| App.MatchesDisjoint | app.py:24 | two whole-word matches of "Influencer" never overlap |
| App.ScanIsKept | app.py:24 | the left-to-right substitution deletes exactly the characters inside whole-word matches and keeps all others, in order |
| App.RemoveInfluencer | app.py:22-24 | every case-insensitive whole-word "Influencer" is deleted and the ends are stripped, so the result neither starts nor ends with whitespace |
| App.ScanWithoutMatch | app.py:24 | text with no whole-word match is not changed by the substitution |
| App.KeptSkipsMatch | app.py:24 | the reference drops every character of a match |
| App.PluralKept | app.py:23-24 | a trailing "Influencers" is kept; only the ends are stripped |
| App.ScanTrailingWord | app.py:24 | the substitution turns "Alex Influencer" into "Alex " |
| App.TrailingWordRemoved | app.py:22-24 | "Alex Influencer" becomes "Alex" |
| App.ContentKey | app.py:109 | "youtube" exactly when the lower-cased selection contains "youtube", else "instagram" |
| App.ContentKeyOfChoices | app.py:102-109 | the two offered choices map to "youtube" and "instagram" |
| App.DefaultDuration | app.py:127 | 60 for instagram, 180 otherwise |
| App.Session.AdjustDuration | app.py:124-131 | the stored length starts at 180 and is reset to the platform default only when the platform differs from the last one seen |
| App.Adjusted | app.py:124-131 | the same rule as a value: a change of platform gives the default, otherwise the stored length (180 if none) |
| App.AdjustedIdempotent | app.py:124-131 | a second rerun with the same platform leaves the stored length and platform as the first left them |
| App.InitialState | app.py:202-208 | the initial state has exactly topic, influencer, style profile, duration and content type, the style profile always being a loaded record |
| App.InitialStateRoutes | app.py:202-208 | the initial state routes instagram to the short form and youtube to the writer, and records no revisions |

## Left out

- The chat-completion and transcription services are oracles. Prompt wording is abstracted: each prompt is a short stand-in that provably contains the text it interpolates.
- `json.loads` is an abstract partial function that yields only objects; `json.dumps` is an abstract function. A reply whose top level is a list or scalar counts as a parse failure: `safe_json_loads` then tries the brace span or gives `{"raw_output": ...}`, and the other callers take their own fallback. The source behaves differently in these places:
  - the quality agent raises on `parsed.get` (AI_Content_Studio/Agents/quality_agent.py:46);
  - `merge_styles` raises TypeError on `merged_profile["signature_phrases"]` (Agents/voice_calibration.py:191-193);
  - the profile scripts append the list to `analyses` and store it as `merged_profile` (Scripts/youtube_influencer_profile.py:132, 156, 218);
  - `analyze_creator_style` returns it (Agents/voice_calibration.py:101);
  - the writer stores it as `hooks` (Agents/script_writer_agent.py:67).
- The exception types the source catches are not told apart. Every parse failure is caught, including the `JSONDecodeError`-only handlers in the voice-calibration agent.
- The LangGraph engine is out of scope: compilation, its recursion limit, its key filtering, and whether a router's writes persist. `DirectorGraph.Invoke` runs the node table in sequence and applies `quality_check`'s writes before the next node.
- File I/O is left out: `load_*`, `save_new_style`, temporary video files and `os.remove`. The style directory is a map from file name to record, and the video transcription result is passed in.
- The Streamlit UI is left out: widgets, the progress loop and `time.sleep`, the dummy `process_youtube_video`, the writing-sample upload, and the merged-profile selection in the generate handler.
- `AI_Content_Studio/Agents/__main__.py` (mermaid printing) and `AI_Content_Studio/llm_client.py` (client construction) are not part of this model.
- `TranscriptApi.ExtractVideoId`: `urlparse` and `parse_qs` are not modelled. The URL arrives as host, path and query map, with the host already lower-cased as `urlparse` gives it.
- `Text.Lower`, `App.ContentKey`, `Profiles.ProfileFileName`: lower-casing is modelled for ASCII letters only. Python's `str.lower` also lower-cases other scripts.
- `App.RemoveInfluencer`: `\w` is exact up to U+024F and treats later characters as non-word. Case folding beyond the two cases of each letter covers only U+0130 and U+0131 for `i`.
- Scores are `real` values, so floating-point rounding is not modelled. They are only compared with 0.85.
- Durations are integers; a float or `None` duration in the state is not modelled.
- Printing and logging are not modelled.
- `DirectorGraph.GateRunBound` proves the revision bound for the gate alone, over any sequence of scores. `DirectorGraph.Invoke` proves the same bound again, for the full run; no lemma connects the two.
