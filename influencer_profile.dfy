/** `youtube_influencer_profile.py`: a style profile from a local video's
    transcript. The transcription service is an oracle whose answer is
    passed in; the analysis and the merge both run at temperature 0.7. */
module InfluencerProfile {
  import opened Values
  import opened Llm
  import opened Profiles

  const AnalysisTemperature := 0.7
  const MergeTemperature := 0.7

  /** `generate_influencer_style(name, video_path)`: a transcription error
      propagates, an empty transcript skips profiling and returns `None`
      with nothing requested or written, and otherwise the transcript is
      cleaned and profiled. */
  method GenerateInfluencerStyle(name: string, transcription: Result<string>, files: map<string, Obj>,
                                 client: Client, lib: Foreign)
    returns (r: Result<Option<Obj>>, files': map<string, Obj>)
    modifies client
    ensures transcription.Err? ==>
      r == Err(transcription.error) && files' == files && client.log == old(client.log)
    ensures transcription == Ok("") ==>
      r == Ok(None) && files' == files && client.log == old(client.log)
    ensures var run := TranscriptRun(name, transcription, files, client.respond, |old(client.log)|, lib,
                                     AnalysisTemperature, MergeTemperature);
      r == run.result && files' == run.files && client.log == old(client.log) + run.sent
  {
    r, files' := ProfileTranscript(name, transcription, files, client, lib, AnalysisTemperature, MergeTemperature);
  }
}
