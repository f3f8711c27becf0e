/** `PostProcessorAgent.run`: the cleaned script, stripped of surrounding
    whitespace, from one request at temperature 0.0. */
module PostProcessor {
  import opened Values
  import opened Text
  import opened Llm
  import opened ScriptState

  function Prompt(script: string): (p: string)
    ensures Contains(p, script)
  {
    var head := "Drop stage directions:\n";
    var p := head + script;
    assert OccursAt(p, script, |head|);
    p
  }

  /** The request for state `f`: `edited_script` defaults to "". */
  function Request(model: string, f: Fields): Llm.Request {
    PromptRequest(model, Prompt(f.editedScript.GetOr("")), 0.0)
  }

  /** Writes only `processed_script`: the reply with surrounding whitespace
      stripped, so it neither starts nor ends with whitespace. */
  method Run(st: State, client: Client) returns (r: Outcome)
    modifies st, client
    ensures r == Done
    ensures var request := Request(client.defaultModel, old(st.Snapshot()));
      && client.log == old(client.log) + [request]
      && st.Snapshot() == old(st.Snapshot()).(processedScript := Some(Strip(client.respond(|old(client.log)|, request))))
    ensures st.processedScript.value != [] ==>
      !IsSpace(st.processedScript.value[0]) && !IsSpace(st.processedScript.value[|st.processedScript.value| - 1])
  {
    var script := st.editedScript.GetOr("");
    var cleaned := Ask(client, Prompt(script), 0.0);
    st.processedScript := Some(Strip(cleaned));
    r := Done;
  }
}
