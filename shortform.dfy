/** `ShortFormAgent.run`: a short-form script from one request carrying a
    system message and a user message. */
module ShortForm {
  import opened Values
  import opened Text
  import opened Llm
  import opened ScriptState
  import ScriptWriter

  const SystemMessage := "Short-form retention rules."

  function UserMessage(topic: string, duration: int, words: int, style: string): (p: string)
    ensures Contains(p, topic)
  {
    var head := "Write a " + IntToString(duration) + "-second short-form script on \"";
    var tail := "\" using approximately " + IntToString(words) + " words.\nInfluencer style:\n" + style;
    ContainsMiddle(head, topic, tail);
    head + topic + tail
  }

  /** The messages sent for state `f`: system first, then user. */
  function Messages(f: Fields, lib: Foreign): (m: seq<Message>)
    requires f.topic.Some? && f.styleProfile.Some?
    ensures |m| == 2 && m[0].role == "system" && m[1].role == "user"
  {
    var duration := f.duration.GetOr(60);
    [Message("system", SystemMessage),
     Message("user", UserMessage(f.topic.value, duration, ScriptWriter.TargetWords(duration),
                                 lib.dumps(JObj(f.styleProfile.value))))]
  }

  /** Requires `topic` and `style_profile` (in that order), defaults the
      duration to 60, never looks at `revision_feedback`, and writes only
      `draft_script`, the reply verbatim. */
  method Run(st: State, client: Client, lib: Foreign) returns (r: Outcome)
    modifies st, client
    ensures old(st.topic).None? ==>
      r == Failed(KeyError("topic")) && st.Snapshot() == old(st.Snapshot()) && client.log == old(client.log)
    ensures old(st.topic).Some? && old(st.styleProfile).None? ==>
      r == Failed(KeyError("style_profile")) && st.Snapshot() == old(st.Snapshot()) && client.log == old(client.log)
    ensures old(st.topic).Some? && old(st.styleProfile).Some? ==>
      var request := Request(client.defaultModel, Messages(old(st.Snapshot()), lib), 1.0);
      && r == Done
      && client.log == old(client.log) + [request]
      && st.Snapshot() == old(st.Snapshot()).(draftScript := Some(client.respond(|old(client.log)|, request)))
  {
    if st.topic.None? {
      return Failed(KeyError("topic"));
    }
    if st.styleProfile.None? {
      return Failed(KeyError("style_profile"));
    }
    var messages := Messages(st.Snapshot(), lib);
    var reply := CallLlm(client, None, Some(messages), None, Some(1.0));
    st.draftScript := Some(reply.value);
    r := Done;
  }
}
