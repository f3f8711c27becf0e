/** `QualityAgent.run`: one request at temperature 0.0 asks for a JSON
    report; the reply is shaped into a report with five fixed keys, using
    defaults when it cannot be parsed. */
module Quality {
  import opened Values
  import opened Text
  import opened Llm
  import opened ScriptState
  import Extraction

  const ReportKeys: set<string> :=
    {"style_match_score", "clarity_score", "storytelling_score", "feedback", "raw_output"}

  /** The report used when the reply could not be parsed. */
  function DefaultReport(reply: string): Obj {
    map["style_match_score" := JNum(0.5), "clarity_score" := JNum(0.5),
        "storytelling_score" := JNum(0.5),
        "feedback" := JStr("No structured feedback available."),
        "raw_output" := JStr(reply)]
  }

  /** The report built from the reply and what `safe_json_loads` made of it. */
  function ShapeReport(reply: string, parsed: Obj): (report: Obj)
    ensures report.Keys == ReportKeys
    ensures report["raw_output"] == JStr(reply)
    ensures "raw_output" in parsed ==> report == DefaultReport(reply)
    ensures "raw_output" !in parsed ==>
      && report["style_match_score"] == Get(parsed, "style_match_score", JNum(0.5))
      && report["clarity_score"] == Get(parsed, "clarity_score", JNum(0.5))
      && report["storytelling_score"] == Get(parsed, "storytelling_score", JNum(0.5))
      && report["feedback"] == Get(parsed, "feedback", JStr("Unable to parse feedback."))
  {
    if "raw_output" in parsed then DefaultReport(reply)
    else
      map["style_match_score" := Get(parsed, "style_match_score", JNum(0.5)),
          "clarity_score" := Get(parsed, "clarity_score", JNum(0.5)),
          "storytelling_score" := Get(parsed, "storytelling_score", JNum(0.5)),
          "feedback" := Get(parsed, "feedback", JStr("Unable to parse feedback.")),
          "raw_output" := JStr(reply)]
  }

  /** The report for a reply. */
  function Report(reply: string, parse: string -> Option<Obj>): Obj {
    ShapeReport(reply, Extraction.SafeJsonLoads(reply, parse))
  }

  /** A reply from which no object can be recovered yields the default
      report, whose style score 0.5 is below the 0.85 threshold. */
  lemma UnparsableReplyGivesDefault(reply: string, parse: string -> Option<Obj>)
    requires parse(reply).None?
    requires Extraction.BraceSpan(reply).None? || parse(Extraction.BraceSpan(reply).value).None?
    ensures Report(reply, parse) == DefaultReport(reply)
    ensures Report(reply, parse)["style_match_score"] == JNum(0.5)
  {
    Extraction.SafeJsonLoadsCases(reply, parse);
  }

  /** A parsed reply that itself carries `raw_output` is treated as a parse
      failure: its scores and feedback are all discarded. */
  lemma RawOutputKeyMeansFailure(reply: string, parse: string -> Option<Obj>)
    requires parse(reply).Some? && "raw_output" in parse(reply).value
    ensures Report(reply, parse) == DefaultReport(reply)
  {
  }

  /** Keys other than the three scores and the feedback are dropped, and a
      score the reply gives is kept as it is. */
  lemma ParsedScoresKept(reply: string, parsed: Obj, key: string)
    requires "raw_output" !in parsed && key in parsed
    ensures key in ShapeReport(reply, parsed) <==> key in ReportKeys
    ensures key in ReportKeys - {"raw_output"} ==> ShapeReport(reply, parsed)[key] == parsed[key]
  {
  }

  function Prompt(style: string, script: string): (p: string)
    ensures Contains(p, script)
  {
    var head := "Rate style match as JSON.\nStyle:\n" + style + "\nScript:\n";
    var p := head + script;
    assert OccursAt(p, script, |head|);
    p
  }

  function Request(model: string, f: Fields, lib: Foreign): Llm.Request
    requires f.styleProfile.Some?
  {
    PromptRequest(model, Prompt(lib.dumps(JObj(f.styleProfile.value)), f.processedScript.GetOr("")), 0.0)
  }

  /** Requires `style_profile` (KeyError when absent), reads
      `processed_script` defaulting to "", and writes only `quality_report`. */
  method Run(st: State, client: Client, lib: Foreign) returns (r: Outcome)
    modifies st, client
    ensures old(st.styleProfile).None? ==>
      r == Failed(KeyError("style_profile")) && st.Snapshot() == old(st.Snapshot()) && client.log == old(client.log)
    ensures old(st.styleProfile).Some? ==>
      var request := Request(client.defaultModel, old(st.Snapshot()), lib);
      && r == Done
      && client.log == old(client.log) + [request]
      && st.Snapshot() == old(st.Snapshot()).(qualityReport := Some(Report(client.respond(|old(client.log)|, request), lib.parse)))
  {
    var script := st.processedScript.GetOr("");
    if st.styleProfile.None? {
      return Failed(KeyError("style_profile"));
    }
    var style := lib.dumps(JObj(st.styleProfile.value));
    var reply := Ask(client, Prompt(style, script), 0.0);
    var parsed := Extraction.SafeJsonLoads(reply, lib.parse);
    var report: Obj;
    if "raw_output" in parsed {
      report := DefaultReport(reply);
    } else {
      report := ShapeReport(reply, parsed);
    }
    assert report == Report(reply, lib.parse);
    st.qualityReport := Some(report);
    r := Done;
  }
}
