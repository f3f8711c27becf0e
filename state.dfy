/** The pipeline's shared state dictionary (`ScriptState`, every key
    optional), mutated in place by each node. A key that is absent is
    `None`. Besides the declared keys it holds `hooks`, written by the
    writer, and the keys the voice-calibration agent reads and writes. */
module ScriptState {
  import opened Values

  /** The whole dictionary as a value, for "nothing else changes". */
  datatype Fields = Fields(
    topic: Option<string>,
    influencer: Option<string>,
    styleProfile: Option<Obj>,
    duration: Option<int>,
    contentType: Option<string>,
    researchNotes: Option<string>,
    draftScript: Option<string>,
    editedScript: Option<string>,
    qualityReport: Option<Obj>,
    processedScript: Option<string>,
    revisionCount: Option<int>,
    revisionFeedback: Option<Json>,
    hooks: Option<Obj>,
    creatorSamples: Option<seq<string>>,
    samples: Option<seq<string>>,
    creatorStyle: Option<Obj>)

  class State {
    var topic: Option<string>
    var influencer: Option<string>
    var styleProfile: Option<Obj>
    var duration: Option<int>
    var contentType: Option<string>
    var researchNotes: Option<string>
    var draftScript: Option<string>
    var editedScript: Option<string>
    /** Declared `Optional[str]`, but the quality node stores a dict. */
    var qualityReport: Option<Obj>
    var processedScript: Option<string>
    var revisionCount: Option<int>
    var revisionFeedback: Option<Json>
    var hooks: Option<Obj>
    var creatorSamples: Option<seq<string>>
    var samples: Option<seq<string>>
    var creatorStyle: Option<Obj>

    function Snapshot(): Fields
      reads this
    {
      Fields(topic, influencer, styleProfile, duration, contentType, researchNotes,
             draftScript, editedScript, qualityReport, processedScript, revisionCount,
             revisionFeedback, hooks, creatorSamples, samples, creatorStyle)
    }

    /** A dictionary holding exactly the given keys. */
    constructor (init: Fields)
      ensures Snapshot() == init
    {
      topic, influencer, styleProfile := init.topic, init.influencer, init.styleProfile;
      duration, contentType := init.duration, init.contentType;
      researchNotes, draftScript, editedScript := init.researchNotes, init.draftScript, init.editedScript;
      qualityReport, processedScript := init.qualityReport, init.processedScript;
      revisionCount, revisionFeedback := init.revisionCount, init.revisionFeedback;
      hooks, creatorSamples, samples, creatorStyle := init.hooks, init.creatorSamples, init.samples, init.creatorStyle;
    }
  }

  /** The empty dictionary. */
  function NoFields(): Fields {
    Fields(None, None, None, None, None, None, None, None, None, None, None, None, None, None, None, None)
  }
}
