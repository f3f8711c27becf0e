/** `VoiceCalibrationAgent`: analyses a creator's writing samples into a
    style profile and merges it with an influencer's profile. */
module VoiceCalibration {
  import opened Values
  import opened Text
  import opened Llm
  import opened ScriptState
  import Extraction

  const SampleBreak := "\n\n--- SAMPLE BREAK ---\n\n"

  /** The samples joined in order, with the sample-break marker between
      each two. */
  function JoinSamples(samples: seq<string>): string {
    Join(samples, SampleBreak)
  }

  /** Adding a sample appends the marker and that sample. */
  lemma JoinSamplesInOrder(samples: seq<string>, next: string)
    requires samples != []
    ensures JoinSamples(samples + [next]) == JoinSamples(samples) + SampleBreak + next
  {
    JoinSnoc(samples, next, SampleBreak);
  }

  function AnalysisPrompt(joined: string): (p: string)
    ensures Contains(p, joined)
  {
    var head := "Style profile JSON for:\n";
    var p := head + joined;
    assert OccursAt(p, joined, |head|);
    p
  }

  /** The profile returned when the analysis reply is not JSON. */
  function UnparsedProfile(reply: string): Obj {
    map["tone" := JStr("unable to parse"), "structure" := JStr("unable to parse"),
        "sentence_pattern" := JStr("unable to parse"), "signature_phrases" := JArr([]),
        "persona" := JStr("unable to parse"), "raw_output" := JStr(reply)]
  }

  /** The creator profile: the strict parse of the reply, else the
      "unable to parse" profile carrying the reply. */
  function CreatorProfile(reply: string, parse: string -> Option<Obj>): (p: Obj)
    ensures parse(reply).Some? ==> p == parse(reply).value
    ensures parse(reply).None? ==>
      && p.Keys == {"tone", "structure", "sentence_pattern", "signature_phrases", "persona", "raw_output"}
      && p["signature_phrases"] == JArr([]) && p["raw_output"] == JStr(reply)
      && p["tone"] == p["structure"] == p["sentence_pattern"] == p["persona"] == JStr("unable to parse")
  {
    match parse(reply)
    case Some(o) => o
    case None => UnparsedProfile(reply)
  }

  /** `analyze_creator_style(samples)`: one request at temperature 0.3. */
  method AnalyzeCreatorStyle(samples: seq<string>, client: Client, lib: Foreign) returns (profile: Obj)
    modifies client
    ensures var request := PromptRequest(client.defaultModel, AnalysisPrompt(JoinSamples(samples)), 0.3);
      && client.log == old(client.log) + [request]
      && profile == CreatorProfile(client.respond(|old(client.log)|, request), lib.parse)
  {
    var reply := Ask(client, AnalysisPrompt(JoinSamples(samples)), 0.3);
    profile := CreatorProfile(reply, lib.parse);
  }

  /** `state.get("creator_samples") or state.get("samples")`. */
  function SelectSamples(creatorSamples: Option<seq<string>>, samples: Option<seq<string>>): (s: Option<seq<string>>)
    ensures creatorSamples.Some? && creatorSamples.value != [] ==> s == creatorSamples
    ensures !(creatorSamples.Some? && creatorSamples.value != []) ==> s == samples
  {
    if creatorSamples.Some? && creatorSamples.value != [] then creatorSamples else samples
  }

  /** `run(state)`: without samples the state is returned untouched and no
      request is made; otherwise only `creator_style` is written. */
  method Run(st: State, client: Client, lib: Foreign) returns (r: Outcome)
    modifies st, client
    ensures r == Done
    ensures var chosen := SelectSamples(old(st.creatorSamples), old(st.samples));
      && (chosen.None? || chosen.value == [] ==>
            st.Snapshot() == old(st.Snapshot()) && client.log == old(client.log))
      && (chosen.Some? && chosen.value != [] ==>
            var request := PromptRequest(client.defaultModel, AnalysisPrompt(JoinSamples(chosen.value)), 0.3);
            && client.log == old(client.log) + [request]
            && st.Snapshot() == old(st.Snapshot()).(creatorStyle :=
                 Some(CreatorProfile(client.respond(|old(client.log)|, request), lib.parse))))
  {
    var samples := SelectSamples(st.creatorSamples, st.samples);
    if samples.None? || samples.value == [] {
      return Done;
    }
    var profile := AnalyzeCreatorStyle(samples.value, client, lib);
    st.creatorStyle := Some(profile);
    r := Done;
  }

  /** The creator side of a merge: every key but `raw_output`. */
  function CleanCreator(creator: Obj): (c: Obj)
    ensures c.Keys == creator.Keys - {"raw_output"}
    ensures forall k :: k in c ==> c[k] == creator[k]
  {
    map k | k in creator && k != "raw_output" :: creator[k]
  }

  /** `x[-1]` on a JSON value. */
  function Last(j: Json): (r: Result<Json>)
    ensures j.JArr? && j.items != [] ==> r == Ok(j.items[|j.items| - 1])
    ensures j.JArr? && j.items == [] ==> r == Err(IndexError)
  {
    match j
    case JArr(items) => if items == [] then Err(IndexError) else Ok(items[|items| - 1])
    case JStr(s) => if s == "" then Err(IndexError) else Ok(JStr([s[|s| - 1]]))
    case JObj(_) => Err(KeyError("-1"))
    case _ => Err(TypeError)
  }

  /** The influencer side of a merge: `merged_profile` when present, else
      the last of `analyses` when present (the `merged_profile` default
      there can never apply), else the whole profile. */
  function InfluencerSide(influencer: Obj): (r: Result<Json>)
    ensures "merged_profile" in influencer ==> r == Ok(influencer["merged_profile"])
    ensures "merged_profile" !in influencer && "analyses" in influencer ==> r == Last(influencer["analyses"])
    ensures "merged_profile" !in influencer && "analyses" !in influencer ==> r == Ok(JObj(influencer))
  {
    if "merged_profile" in influencer then Ok(influencer["merged_profile"])
    else if "analyses" in influencer then Last(Get(influencer, "merged_profile", influencer["analyses"]))
    else Ok(JObj(influencer))
  }

  /** An influencer record with an empty `analyses` list and no merged
      profile cannot be merged. */
  lemma EmptyAnalysesFail(influencer: Obj)
    requires "merged_profile" !in influencer && "analyses" in influencer
    requires influencer["analyses"] == JArr([])
    ensures InfluencerSide(influencer) == Err(IndexError)
  {
  }

  const MergeNote := "Merge failed - using influencer style only"

  /** The merge result from the reply: the parsed profile with a list under
      `signature_phrases`, or, when the reply is not JSON, a copy of the
      influencer side with a note and the raw reply. */
  function MergeOutcome(influencerClean: Json, reply: string, parse: string -> Option<Obj>): (r: Result<Obj>)
    ensures parse(reply).Some? ==> r.Ok? && "signature_phrases" in r.value && r.value["signature_phrases"].JArr?
    ensures parse(reply).Some? ==> forall k :: k in parse(reply).value && k != "signature_phrases" ==>
      k in r.value && r.value[k] == parse(reply).value[k]
    ensures parse(reply).Some? ==>
      var merged := parse(reply).value;
      && r.value.Keys == merged.Keys + {"signature_phrases"}
      && ("signature_phrases" in merged && merged["signature_phrases"].JArr? ==>
            r.value["signature_phrases"] == merged["signature_phrases"])
      && (!("signature_phrases" in merged && merged["signature_phrases"].JArr?) ==>
            r.value["signature_phrases"] == JArr([]))
    ensures parse(reply).None? && influencerClean.JObj? ==>
      && r.Ok?
      && r.value.Keys == influencerClean.fields.Keys + {"merge_note", "raw_merge_output"}
      && r.value["merge_note"] == JStr(MergeNote) && r.value["raw_merge_output"] == JStr(reply)
      && forall k :: k in influencerClean.fields && k !in {"merge_note", "raw_merge_output"} ==>
           r.value[k] == influencerClean.fields[k]
    ensures parse(reply).None? && influencerClean.JArr? ==> r == Err(TypeError)
    ensures parse(reply).None? && !influencerClean.JObj? && !influencerClean.JArr? ==> r == Err(AttributeError)
  {
    match parse(reply)
    case Some(merged) =>
      if "signature_phrases" !in merged || !merged["signature_phrases"].JArr? then
        Ok(merged["signature_phrases" := JArr([])])
      else Ok(merged)
    case None =>
      match influencerClean
      case JObj(fields) => Ok(fields["merge_note" := JStr(MergeNote)]["raw_merge_output" := JStr(reply)])
      case JArr(_) => Err(TypeError)
      case _ => Err(AttributeError)
  }

  function MergePrompt(influencer: string, creator: string): (p: string)
    ensures Contains(p, influencer) && Contains(p, creator)
  {
    var head := "Merge styles.\nInfluencer:\n";
    var mid := "\nCreator:\n";
    var p := head + influencer + mid + creator;
    assert OccursAt(p, influencer, |head|);
    assert OccursAt(p, creator, |head| + |influencer| + |mid|);
    p
  }

  /** `merge_styles(creator_style, influencer_style)`: selecting the
      influencer side may raise before any request; otherwise one request
      at temperature 0.3 decides the result. */
  method MergeStyles(creator: Obj, influencer: Obj, client: Client, lib: Foreign) returns (r: Result<Obj>)
    modifies client
    ensures InfluencerSide(influencer).Err? ==>
      r == Err(InfluencerSide(influencer).error) && client.log == old(client.log)
    ensures InfluencerSide(influencer).Ok? ==>
      var side := InfluencerSide(influencer).value;
      var request := PromptRequest(client.defaultModel, MergePrompt(lib.dumps(side), lib.dumps(JObj(CleanCreator(creator)))), 0.3);
      && client.log == old(client.log) + [request]
      && r == MergeOutcome(side, client.respond(|old(client.log)|, request), lib.parse)
  {
    var creatorClean := CleanCreator(creator);
    var side := InfluencerSide(influencer);
    if side.Err? {
      return Err(side.error);
    }
    var reply := Ask(client, MergePrompt(lib.dumps(side.value), lib.dumps(JObj(creatorClean))), 0.3);
    r := MergeOutcome(side.value, reply, lib.parse);
  }
}
