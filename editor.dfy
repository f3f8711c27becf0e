/** `EditorAgent.run`: a style-preserving edit of the draft, from one
    request at temperature 0.6. */
module Editor {
  import opened Values
  import opened Text
  import opened Llm
  import opened ScriptState

  function Prompt(style: string, draft: string): (p: string)
    ensures Contains(p, draft)
  {
    var head := "Edit, keep style:\n" + style + "\nScript:\n";
    var p := head + draft;
    assert OccursAt(p, draft, |head|);
    p
  }

  /** The request for state `f`: `draft_script` defaults to "" and
      `style_profile` to {}, so the editor never fails on a missing key. */
  function Request(model: string, f: Fields, lib: Foreign): Llm.Request {
    PromptRequest(model, Prompt(lib.dumps(JObj(f.styleProfile.GetOr(map[]))), f.draftScript.GetOr("")), 0.6)
  }

  /** Writes only `edited_script`, the reply verbatim. */
  method Run(st: State, client: Client, lib: Foreign) returns (r: Outcome)
    modifies st, client
    ensures r == Done
    ensures var request := Request(client.defaultModel, old(st.Snapshot()), lib);
      && client.log == old(client.log) + [request]
      && st.Snapshot() == old(st.Snapshot()).(editedScript := Some(client.respond(|old(client.log)|, request)))
  {
    var draft := st.draftScript.GetOr("");
    var style := st.styleProfile.GetOr(map[]);
    var edited := Ask(client, Prompt(lib.dumps(JObj(style)), draft), 0.6);
    st.editedScript := Some(edited);
    r := Done;
  }
}
