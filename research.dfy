/** `ResearchAgent.run`: research notes on the topic, from one request at
    temperature 0.9. */
module Research {
  import opened Values
  import opened Text
  import opened Llm
  import opened ScriptState

  /** The research prompt; its wording is abstracted, but it names the topic. */
  function Prompt(topic: string): (p: string)
    ensures Contains(p, topic)
  {
    var head := "Research notes on: \"";
    var p := head + topic + "\"";
    assert OccursAt(p, topic, |head|);
    p
  }

  function Request(model: string, topic: string): Llm.Request {
    PromptRequest(model, Prompt(topic), 0.9)
  }

  /** Reads `topic` (KeyError when absent) and writes only `research_notes`,
      the reply verbatim. */
  method Run(st: State, client: Client) returns (r: Outcome)
    modifies st, client
    ensures old(st.topic).None? ==>
      r == Failed(KeyError("topic")) && st.Snapshot() == old(st.Snapshot()) && client.log == old(client.log)
    ensures old(st.topic).Some? ==>
      var request := Request(client.defaultModel, old(st.topic).value);
      && r == Done
      && client.log == old(client.log) + [request]
      && st.Snapshot() == old(st.Snapshot()).(researchNotes := Some(client.respond(|old(client.log)|, request)))
  {
    if st.topic.None? {
      return Failed(KeyError("topic"));
    }
    var notes := Ask(client, Prompt(st.topic.value), 0.9);
    st.researchNotes := Some(notes);
    r := Done;
  }
}
