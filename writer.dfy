/** `ScriptWriterAgent.run`: in revision mode (a truthy `revision_feedback`)
    one request rewrites `processed_script`; otherwise a first pass asks for
    hooks and then for the draft. */
module ScriptWriter {
  import opened Values
  import opened Text
  import opened Llm
  import opened ScriptState
  import Extraction

  /** `int(duration * 2.5)`: two and a half spoken words per second,
      truncated toward zero as Python's `int` does. */
  function TargetWords(duration: int): (words: int)
    ensures duration >= 0 ==> 0 <= 5 * duration - 2 * words < 2
    ensures duration < 0 ==> 0 <= 2 * words - 5 * duration < 2
  {
    if duration >= 0 then (5 * duration) / 2 else -((-5 * duration) / 2)
  }

  /** The defaults: 180 seconds is 450 words, 60 seconds is 150. */
  lemma DefaultTargets()
    ensures TargetWords(180) == 450 && TargetWords(60) == 150
  {
  }

  /** `if feedback:` where `feedback = state.get("revision_feedback", None)`. */
  predicate RevisionMode(feedback: Option<Json>) {
    feedback.Some? && Truthy(feedback.value)
  }

  /** An empty feedback string puts the writer back into first-pass mode. */
  lemma EmptyFeedbackIsFirstPass()
    ensures !RevisionMode(Some(JStr("")))
    ensures !RevisionMode(None)
    ensures forall s: string :: s != "" ==> RevisionMode(Some(JStr(s)))
  {
  }

  /** How a value is interpolated into a prompt: strings as they are,
      anything else through the library's rendering. */
  function Show(lib: Foreign, j: Json): string {
    if j.JStr? then j.s else lib.dumps(j)
  }

  /** The hooks: the strict parse of the reply, else `{"raw_output": reply}`;
      unlike `safe_json_loads` no brace span is tried. */
  function Hooks(reply: string, parse: string -> Option<Obj>): (h: Obj)
    ensures parse(reply).Some? ==> h == parse(reply).value
    ensures parse(reply).None? ==> h == Extraction.RawOutput(reply)
  {
    match parse(reply)
    case Some(o) => o
    case None => Extraction.RawOutput(reply)
  }

  /** Hooks and `safe_json_loads` differ exactly on replies whose strict
      parse fails but whose brace span parses. */
  lemma HooksSkipBraceSpan(reply: string, parse: string -> Option<Obj>)
    requires parse(reply).None? && Extraction.BraceSpan(reply).Some?
    requires parse(Extraction.BraceSpan(reply).value).Some?
    ensures Hooks(reply, parse) == Extraction.RawOutput(reply)
    ensures Extraction.SafeJsonLoads(reply, parse) == parse(Extraction.BraceSpan(reply).value).value
  {
  }

  function RevisionPrompt(draft: string, feedback: string): (p: string)
    ensures Contains(p, draft) && Contains(p, feedback)
  {
    var head := "Revise:\n";
    var mid := "\nFeedback:\n";
    var p := head + draft + mid + feedback;
    assert OccursAt(p, draft, |head|);
    assert OccursAt(p, feedback, |head| + |draft| + |mid|);
    p
  }

  function HookPrompt(topic: string, style: string): (p: string)
    ensures Contains(p, topic)
  {
    var head := "Hooks as JSON for: \"";
    var p := head + topic + "\"\nInfluencer tone:\n" + style;
    assert OccursAt(p, topic, |head|);
    p
  }

  function DraftPrompt(topic: string, duration: int, words: int, style: string, research: string): (p: string)
    ensures Contains(p, topic)
  {
    var head := "Script on: \"";
    var tail := "\"\nTarget duration: " + IntToString(duration) + " seconds (approx. "
      + IntToString(words) + " words)\nStyle:\n" + style + "\nResearch:\n" + research;
    ContainsMiddle(head, topic, tail);
    head + topic + tail
  }

  /** The revision-mode request for state `f`. */
  function RevisionRequest(model: string, f: Fields, lib: Foreign): Request
    requires RevisionMode(f.revisionFeedback)
  {
    PromptRequest(model, RevisionPrompt(f.processedScript.GetOr(""), Show(lib, f.revisionFeedback.value)), 0.9)
  }

  function HookRequest(model: string, f: Fields, lib: Foreign): Request
    requires f.topic.Some? && f.styleProfile.Some?
  {
    PromptRequest(model, HookPrompt(f.topic.value, lib.dumps(JObj(f.styleProfile.value))), 1.0)
  }

  function DraftRequest(model: string, f: Fields, lib: Foreign): Request
    requires f.topic.Some? && f.styleProfile.Some?
  {
    var duration := f.duration.GetOr(180);
    PromptRequest(model, DraftPrompt(f.topic.value, duration, TargetWords(duration),
                                     lib.dumps(JObj(f.styleProfile.value)), f.researchNotes.GetOr("")), 1.0)
  }

  method Run(st: State, client: Client, lib: Foreign) returns (r: Outcome)
    modifies st, client
    // revision mode: one request, only draft_script changes
    ensures RevisionMode(old(st.revisionFeedback)) ==>
      var request := RevisionRequest(client.defaultModel, old(st.Snapshot()), lib);
      && r == Done
      && client.log == old(client.log) + [request]
      && st.Snapshot() == old(st.Snapshot()).(draftScript := Some(client.respond(|old(client.log)|, request)))
    // first pass: topic, then style_profile, are required
    ensures !RevisionMode(old(st.revisionFeedback)) && old(st.topic).None? ==>
      r == Failed(KeyError("topic")) && st.Snapshot() == old(st.Snapshot()) && client.log == old(client.log)
    ensures !RevisionMode(old(st.revisionFeedback)) && old(st.topic).Some? && old(st.styleProfile).None? ==>
      r == Failed(KeyError("style_profile")) && st.Snapshot() == old(st.Snapshot()) && client.log == old(client.log)
    // first pass: two requests, hooks then draft_script
    ensures !RevisionMode(old(st.revisionFeedback)) && old(st.topic).Some? && old(st.styleProfile).Some? ==>
      var f, n := old(st.Snapshot()), |old(client.log)|;
      var hookRequest, draftRequest := HookRequest(client.defaultModel, f, lib), DraftRequest(client.defaultModel, f, lib);
      && r == Done
      && client.log == old(client.log) + [hookRequest, draftRequest]
      && st.Snapshot() == f.(hooks := Some(Hooks(client.respond(n, hookRequest), lib.parse)),
                            draftScript := Some(client.respond(n + 1, draftRequest)))
  {
    var feedback := st.revisionFeedback;
    if RevisionMode(feedback) {
      var draft := st.processedScript.GetOr("");
      var revised := Ask(client, RevisionPrompt(draft, Show(lib, feedback.value)), 0.9);
      st.draftScript := Some(revised);
      return Done;
    }
    if st.topic.None? {
      return Failed(KeyError("topic"));
    }
    if st.styleProfile.None? {
      return Failed(KeyError("style_profile"));
    }
    var topic := st.topic.value;
    var style := lib.dumps(JObj(st.styleProfile.value));
    var research := st.researchNotes.GetOr("");
    var duration := st.duration.GetOr(180);
    var words := TargetWords(duration);
    var hooksRaw := Ask(client, HookPrompt(topic, style), 1.0);
    st.hooks := Some(Hooks(hooksRaw, lib.parse));
    var draft := Ask(client, DraftPrompt(topic, duration, words, style, research), 1.0);
    st.draftScript := Some(draft);
    r := Done;
  }
}
