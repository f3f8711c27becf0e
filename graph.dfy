/** `build_script_graph`: the node and edge table of the pipeline, its two
    routers (`choose_writer` and the quality gate `quality_check`), and a
    sequential runner that walks the table from the entry point to
    `__end__`, applying each node's transform to the shared state. */
module DirectorGraph {
  import opened Values
  import opened Text
  import opened Llm
  import opened ScriptState
  import Research
  import ScriptWriter
  import ShortForm
  import Editor
  import PostProcessor
  import Quality

  const End := "__end__"

  /** The transform a node runs. */
  datatype Agent = ResearchAgent | WriterAgent | EditorAgent | ShortFormAgent | PostProcessorAgent | QualityAgent

  datatype Router = ChooseWriter | QualityCheck

  /** A node: its transform and the keys it declares (not enforced). */
  datatype NodeSpec = NodeSpec(agent: Agent, inputKeys: seq<string>, outputKeys: seq<string>)

  /** Conditional edges: a router and the node each of its labels leads to. */
  datatype Branch = Branch(router: Router, targets: map<string, string>)

  datatype Graph = Graph(nodes: map<string, NodeSpec>, edges: map<string, string>,
                         branches: map<string, Branch>, entry: Option<string>)

  /** The table `build_script_graph` builds. */
  function ScriptGraph(): Graph {
    Graph(
      map[
        "research" := NodeSpec(ResearchAgent, ["topic"], ["research_notes"]),
        "write_script" := NodeSpec(WriterAgent, ["topic", "research_notes"], ["draft_script"]),
        "edit_script" := NodeSpec(EditorAgent, ["draft_script"], ["edited_script"]),
        "shortform_script" := NodeSpec(ShortFormAgent, ["topic", "style_profile", "duration"], ["draft_script"]),
        "post_process" := NodeSpec(PostProcessorAgent, ["edited_script"], ["processed_script"]),
        "evaluate_quality" := NodeSpec(QualityAgent, ["processed_script", "style_profile"], ["quality_report"]),
        "revise_script" := NodeSpec(WriterAgent, ["edited_script", "revision_feedback", "style_profile"], ["draft_script"])],
      map[
        "write_script" := "edit_script",
        "shortform_script" := "edit_script",
        "edit_script" := "post_process",
        "post_process" := "evaluate_quality",
        "revise_script" := "edit_script"],
      map[
        "research" := Branch(ChooseWriter, map["shortform" := "shortform_script", "writer" := "write_script"]),
        "evaluate_quality" := Branch(QualityCheck, map["revise" := "revise_script", "finish" := End])],
      Some("research"))
  }

  /** `StateGraph`: the builder that `build_script_graph` drives step by step. */
  class GraphBuilder {
    var nodes: map<string, NodeSpec>
    var edges: map<string, string>
    var branches: map<string, Branch>
    var entry: Option<string>

    function Value(): Graph
      reads this
    {
      Graph(nodes, edges, branches, entry)
    }

    constructor ()
      ensures Value() == Graph(map[], map[], map[], None)
    {
      nodes, edges, branches, entry := map[], map[], map[], None;
    }

    method AddNode(name: string, agent: Agent, inputKeys: seq<string>, outputKeys: seq<string>)
      modifies this
      ensures Value() == old(Value()).(nodes := old(nodes)[name := NodeSpec(agent, inputKeys, outputKeys)])
    {
      nodes := nodes[name := NodeSpec(agent, inputKeys, outputKeys)];
    }

    method AddEdge(from: string, to: string)
      modifies this
      ensures Value() == old(Value()).(edges := old(edges)[from := to])
    {
      edges := edges[from := to];
    }

    method AddConditionalEdges(from: string, router: Router, targets: map<string, string>)
      modifies this
      ensures Value() == old(Value()).(branches := old(branches)[from := Branch(router, targets)])
    {
      branches := branches[from := Branch(router, targets)];
    }

    method SetEntryPoint(name: string)
      modifies this
      ensures Value() == old(Value()).(entry := Some(name))
    {
      entry := Some(name);
    }
  }

  /** `build_script_graph()`: the same calls in the same order. */
  method BuildScriptGraph() returns (g: Graph)
    ensures g == ScriptGraph()
  {
    var b := new GraphBuilder();
    b.AddNode("research", ResearchAgent, ["topic"], ["research_notes"]);
    b.AddNode("write_script", WriterAgent, ["topic", "research_notes"], ["draft_script"]);
    b.AddNode("edit_script", EditorAgent, ["draft_script"], ["edited_script"]);
    b.AddNode("shortform_script", ShortFormAgent, ["topic", "style_profile", "duration"], ["draft_script"]);
    b.AddNode("post_process", PostProcessorAgent, ["edited_script"], ["processed_script"]);
    b.AddNode("evaluate_quality", QualityAgent, ["processed_script", "style_profile"], ["quality_report"]);
    b.AddNode("revise_script", WriterAgent, ["edited_script", "revision_feedback", "style_profile"], ["draft_script"]);
    b.SetEntryPoint("research");
    b.AddConditionalEdges("research", ChooseWriter, map["shortform" := "shortform_script", "writer" := "write_script"]);
    b.AddEdge("write_script", "edit_script");
    b.AddEdge("shortform_script", "edit_script");
    b.AddEdge("edit_script", "post_process");
    b.AddEdge("post_process", "evaluate_quality");
    b.AddEdge("revise_script", "edit_script");
    b.AddConditionalEdges("evaluate_quality", QualityCheck, map["revise" := "revise_script", "finish" := End]);
    g := b.Value();
  }

  // ---------------------------------------------------------------------
  // Routers

  /** `choose_writer`: "shortform" exactly for a content type that lowers to
      "instagram"; an absent or empty content type counts as "youtube". */
  function ChooseWriterLabel(contentType: Option<string>): (branch: string)
    ensures branch == "shortform" || branch == "writer"
    ensures branch == "shortform" <==> contentType.Some? && Lower(contentType.value) == "instagram"
  {
    var ct := if contentType.None? || contentType.value == "" then "youtube" else contentType.value;
    if Lower(ct) == "instagram" then "shortform" else "writer"
  }

  /** The routing is case-insensitive, and "youtube" or no content type
      routes to the long-form writer. */
  lemma ChooseWriterExamples()
    ensures ChooseWriterLabel(Some("Instagram")) == "shortform"
    ensures ChooseWriterLabel(Some("INSTAGRAM")) == "shortform"
    ensures ChooseWriterLabel(None) == "writer" && ChooseWriterLabel(Some("")) == "writer"
    ensures ChooseWriterLabel(Some("youtube")) == "writer"
  {
    assert Lower("Instagram") == "instagram";
    assert Lower("INSTAGRAM") == "instagram";
    assert Lower("youtube")[0] == 'y';
  }

  const Threshold: real := 0.85
  const MaxRevisions: int := 2

  /** What the quality gate decides. */
  datatype Gate = Finish | Revise(feedback: Json, count: int)

  /** `quality_check` as a decision: the report defaults to {}, its score to
      1 and the revision count to 0; the cap of two revisions is checked
      before the score, and comparing a non-numeric score raises. */
  function GateDecision(report: Option<Obj>, revisionCount: Option<int>): (r: Result<Gate>)
    ensures revisionCount.GetOr(0) >= MaxRevisions ==> r == Ok(Finish)
    ensures revisionCount.GetOr(0) < MaxRevisions ==>
      var score := Get(report.GetOr(map[]), "style_match_score", JNum(1.0));
      && (score.JNum? && score.n < Threshold ==>
           r == Ok(Revise(Get(report.GetOr(map[]), "feedback", JStr("")), revisionCount.GetOr(0) + 1)))
      && (score.JNum? && score.n >= Threshold ==> r == Ok(Finish))
      && (score == JBool(true) ==> r == Ok(Finish))
      && (score == JBool(false) ==>
           r == Ok(Revise(Get(report.GetOr(map[]), "feedback", JStr("")), revisionCount.GetOr(0) + 1)))
      && (r.Err? <==> !(score.JNum? || score.JBool?))
      && (r.Err? ==> r.error == TypeError)
  {
    var rep := report.GetOr(map[]);
    var score := Get(rep, "style_match_score", JNum(1.0));
    var count := revisionCount.GetOr(0);
    if count >= MaxRevisions then Ok(Finish)
    else
      match LessThan(score, Threshold)
      case Err(e) => Err(e)
      case Ok(low) => if low then Ok(Revise(Get(rep, "feedback", JStr("")), count + 1)) else Ok(Finish)
  }

  /** With no report, or no score in it, the gate finishes. */
  lemma MissingScoreFinishes(report: Option<Obj>, revisionCount: Option<int>)
    requires report.None? || "style_match_score" !in report.value
    ensures GateDecision(report, revisionCount) == Ok(Finish)
  {
  }

  /** A report built from a reply that could not be parsed scores 0.5, so
      the gate sends the script back while revisions remain. */
  lemma UnparsableReportRevises(reply: string, revisionCount: Option<int>)
    requires revisionCount.GetOr(0) < MaxRevisions
    ensures GateDecision(Some(Quality.DefaultReport(reply)), revisionCount)
      == Ok(Revise(JStr("No structured feedback available."), revisionCount.GetOr(0) + 1))
  {
  }

  /** `quality_check(state)`: on "revise" it first stores the feedback and
      the incremented count in the state; otherwise nothing changes. */
  method QualityCheckRoute(st: State) returns (r: Result<string>)
    modifies st
    ensures var d := GateDecision(old(st.qualityReport), old(st.revisionCount));
      && (d.Err? ==> r == Err(d.error) && st.Snapshot() == old(st.Snapshot()))
      && (d == Ok(Finish) ==> r == Ok("finish") && st.Snapshot() == old(st.Snapshot()))
      && (d.Ok? && d.value.Revise? ==>
            r == Ok("revise")
            && st.Snapshot() == old(st.Snapshot()).(revisionFeedback := Some(d.value.feedback),
                                                   revisionCount := Some(d.value.count)))
    ensures r.Ok? ==> r.value == "revise" || r.value == "finish"
    ensures r == Ok("revise") ==>
      old(st.revisionCount).GetOr(0) < MaxRevisions && st.revisionCount == Some(old(st.revisionCount).GetOr(0) + 1)
    ensures r != Ok("revise") ==> st.revisionCount == old(st.revisionCount)
  {
    var d := GateDecision(st.qualityReport, st.revisionCount);
    match d
    case Err(e) => r := Err(e);
    case Ok(Finish) => r := Ok("finish");
    case Ok(Revise(feedback, count)) =>
      st.revisionFeedback := Some(feedback);
      st.revisionCount := Some(count);
      r := Ok("revise");
  }

  /** The seven nodes of the script graph, listed. */
  predicate ScriptNode(n: string) {
    n in {"research", "write_script", "edit_script", "shortform_script", "post_process",
          "evaluate_quality", "revise_script"}
  }

  lemma ScriptGraphNodes(n: string)
    ensures n in ScriptGraph().nodes <==> ScriptNode(n)
  {
  }

  /** The nine edges of the script graph, listed. */
  predicate ScriptEdge(a: string, b: string) {
    (a, b) in {("research", "shortform_script"), ("research", "write_script"),
               ("write_script", "edit_script"), ("shortform_script", "edit_script"),
               ("edit_script", "post_process"), ("post_process", "evaluate_quality"),
               ("revise_script", "edit_script"),
               ("evaluate_quality", "revise_script"), ("evaluate_quality", End)}
  }

  /** The edges of the table, exactly: research branches to the two
      writers, both writers and the revising writer feed the editor, the
      editor feeds the post-processor, which feeds the quality node, whose
      gate either revises or ends the run. */
  lemma ScriptGraphEdges(a: string, b: string)
    ensures Edge(ScriptGraph(), a, b) <==> ScriptEdge(a, b)
  {
    var g := ScriptGraph();
    assert g.branches["research"].targets["shortform"] == "shortform_script";
    assert g.branches["research"].targets["writer"] == "write_script";
    assert g.branches["evaluate_quality"].targets["revise"] == "revise_script";
    assert g.branches["evaluate_quality"].targets["finish"] == End;
  }

  /** The revision loop on its own: the scores successive evaluations
      report, how many evaluations run and the final revision count. */
  function GateRun(revisionCount: Option<int>, scores: seq<real>): (nat, Option<int>)
    decreases |scores|
  {
    if scores == [] then (0, revisionCount)
    else
      match GateDecision(Some(map["style_match_score" := JNum(scores[0])]), revisionCount)
      case Ok(Revise(_, count)) =>
        var (n, final) := GateRun(Some(count), scores[1..]);
        (n + 1, final)
      case _ => (1, revisionCount)
  }

  /** Whatever the scores, the gate is consulted at most once more than
      the revisions left, and a count that starts at most 2 ends at most 2. */
  lemma {:induction false} GateRunBound(revisionCount: Option<int>, scores: seq<real>)
    ensures GateRun(revisionCount, scores).0 <= Budget(revisionCount) + 1
    ensures revisionCount.GetOr(0) <= MaxRevisions ==> GateRun(revisionCount, scores).1.GetOr(0) <= MaxRevisions
    decreases |scores|
  {
    if scores != [] {
      var d := GateDecision(Some(map["style_match_score" := JNum(scores[0])]), revisionCount);
      if d.Ok? && d.value.Revise? {
        GateRunBound(Some(d.value.count), scores[1..]);
      }
    }
  }

  /** A first score of 0.9 finishes after one evaluation, count untouched. */
  lemma GoodFirstScore()
    ensures GateRun(None, [0.9]) == (1, None)
  {
  }

  /** Scores 0.4, 0.4, 0.9: two revisions, three evaluations. */
  lemma TwoRevisionsThenGood()
    ensures GateRun(None, [0.4, 0.4, 0.9]) == (3, Some(2))
  {
    assert [0.4, 0.4, 0.9][1..] == [0.4, 0.9];
    assert [0.4, 0.9][1..] == [0.9];
  }

  /** Scores that never improve still stop after two revisions. */
  lemma NeverGoodStopsAtCap()
    ensures GateRun(None, [0.4, 0.4, 0.4, 0.4]) == (3, Some(2))
  {
    assert [0.4, 0.4, 0.4, 0.4][1..] == [0.4, 0.4, 0.4];
    assert [0.4, 0.4, 0.4][1..] == [0.4, 0.4];
  }

  // ---------------------------------------------------------------------
  // The runner

  /** How many more times the gate can send the script back. */
  function Budget(revisionCount: Option<int>): nat {
    var c := revisionCount.GetOr(0);
    if c >= MaxRevisions then 0 else MaxRevisions - c
  }

  /** Steps left until the quality gate is next consulted. */
  function Distance(node: string): nat {
    match node
    case "research" => 5
    case "write_script" => 4
    case "shortform_script" => 4
    case "revise_script" => 4
    case "edit_script" => 3
    case "post_process" => 2
    case "evaluate_quality" => 1
    case _ => 0
  }

  /** `b` can follow `a` in graph `g`. */
  ghost predicate Edge(g: Graph, a: string, b: string) {
    (a in g.edges && g.edges[a] == b)
    || (a in g.branches && exists l :: l in g.branches[a].targets && g.branches[a].targets[l] == b)
  }

  ghost predicate IsPath(g: Graph, p: seq<string>) {
    forall i :: 0 <= i < |p| - 1 ==> Edge(g, p[i], p[i + 1])
  }

  /** A walk along listed edges. */
  predicate ScriptPath(p: seq<string>) {
    forall i :: 0 <= i < |p| - 1 ==> ScriptEdge(p[i], p[i + 1])
  }

  /** A walk along listed edges is a path of the graph. */
  lemma ScriptPathIsPath(p: seq<string>)
    requires ScriptPath(p)
    ensures IsPath(ScriptGraph(), p)
  {
    forall i | 0 <= i < |p| - 1
      ensures Edge(ScriptGraph(), p[i], p[i + 1])
    {
      ScriptGraphEdges(p[i], p[i + 1]);
    }
  }

  /** A walk extended along a listed edge is a walk. */
  lemma PathSnoc(p: seq<string>, x: string)
    requires ScriptPath(p)
    requires p != [] ==> ScriptEdge(p[|p| - 1], x)
    ensures ScriptPath(p + [x])
  {
    var q := p + [x];
    forall i | 0 <= i < |q| - 1
      ensures ScriptEdge(q[i], q[i + 1])
    {
      if i < |p| - 1 {
        assert q[i] == p[i] && q[i + 1] == p[i + 1];
      }
    }
  }

  /** Runs the node's transform. */
  method RunNode(node: string, st: State, client: Client, lib: Foreign) returns (r: Outcome)
    requires node in ScriptGraph().nodes
    modifies st, client
    ensures st.revisionCount == old(st.revisionCount)
    ensures node == "evaluate_quality" && r == Done ==> st.qualityReport.Some?
    ensures node == "post_process" ==> st.processedScript.Some?
    ensures old(st.processedScript).Some? ==> st.processedScript.Some?
  {
    match ScriptGraph().nodes[node].agent
    case ResearchAgent => r := Research.Run(st, client);
    case WriterAgent => r := ScriptWriter.Run(st, client, lib);
    case EditorAgent => r := Editor.Run(st, client, lib);
    case ShortFormAgent => r := ShortForm.Run(st, client, lib);
    case PostProcessorAgent => r := PostProcessor.Run(st, client);
    case QualityAgent => r := Quality.Run(st, client, lib);
  }

  /** The walk makes progress: fewer revisions left, or as many and a node
      closer to the quality gate. */
  predicate Progress(before: Option<int>, after: Option<int>, current: string, next: string) {
    Budget(after) < Budget(before) || (Budget(after) == Budget(before) && Distance(next) < Distance(current))
  }

  /** A fixed edge leads to a node one step closer to the quality gate. */
  lemma FixedEdgeAdvances(a: string)
    requires a in ScriptGraph().edges
    ensures var b := ScriptGraph().edges[a];
      ScriptEdge(a, b) && ScriptNode(b) && Distance(b) < Distance(a)
  {
    ScriptGraphEdges(a, ScriptGraph().edges[a]);
  }

  /** Research branches to a writer, one step closer to the quality gate;
      the quality gate's "revise" goes back to the revising writer and
      "finish" ends the run. */
  lemma BranchAdvances(a: string, choice: string)
    requires a in ScriptGraph().branches && choice in ScriptGraph().branches[a].targets
    ensures var b := ScriptGraph().branches[a].targets[choice];
      && ScriptEdge(a, b)
      && (a == "research" ==> ScriptNode(b) && Distance(b) < Distance(a))
      && (a == "evaluate_quality" ==> (choice == "revise" ==> b == "revise_script") && (choice == "finish" ==> b == End))
  {
    ScriptGraphEdges(a, ScriptGraph().branches[a].targets[choice]);
  }

  /** One step of the walk: run the node, then follow its fixed edge or ask
      its router. */
  method Step(current: string, st: State, client: Client, lib: Foreign) returns (r: Outcome, next: string)
    requires ScriptNode(current)
    modifies st, client
    ensures r.Done? ==> ScriptEdge(current, next) && Progress(old(st.revisionCount), st.revisionCount, current, next)
    ensures r.Done? ==> ScriptNode(next) || (next == End && current == "evaluate_quality")
    ensures r.Done? && current == "evaluate_quality" && next != End ==> Budget(st.revisionCount) < Budget(old(st.revisionCount))
    ensures Budget(st.revisionCount) <= Budget(old(st.revisionCount))
    ensures old(st.revisionCount).GetOr(0) <= MaxRevisions ==> st.revisionCount.GetOr(0) <= MaxRevisions
    ensures r.Done? && next == End ==>
      GateDecision(st.qualityReport, st.revisionCount) == Ok(Finish) && st.qualityReport.Some?
    ensures r.Done? && next == "evaluate_quality" ==> st.processedScript.Some?
    ensures old(st.processedScript).Some? ==> st.processedScript.Some?
  {
    var g := ScriptGraph();
    ScriptGraphNodes(current);
    r := RunNode(current, st, client, lib);
    next := End;
    if r.Failed? {
      return;
    }
    if current in g.edges {
      next := g.edges[current];
      FixedEdgeAdvances(current);
    } else if current == "research" {
      var branch := ChooseWriterLabel(st.contentType);
      next := g.branches[current].targets[branch];
      BranchAdvances(current, branch);
    } else {
      assert current == "evaluate_quality";
      var routed := QualityCheckRoute(st);
      if routed.Err? {
        return Failed(routed.error), End;
      }
      next := g.branches[current].targets[routed.value];
      BranchAdvances(current, routed.value);
    }
  }


  /** `graph.compile().invoke(state)` with the quality gate's update applied
      before the next node runs. It visits a path of the table from
      `research`, runs the quality node at most once more than the
      revisions left, and never raises the revision count past 2. */
  method Invoke(st: State, client: Client, lib: Foreign) returns (r: Outcome, visited: seq<string>, evaluations: nat)
    modifies st, client
    ensures |visited| > 0 && visited[0] == "research"
    ensures IsPath(ScriptGraph(), visited)
    ensures r == Done ==> visited[|visited| - 1] == "evaluate_quality" && Edge(ScriptGraph(), "evaluate_quality", End)
    ensures r == Done ==> GateDecision(st.qualityReport, st.revisionCount) == Ok(Finish)
    ensures r == Done ==> st.processedScript.Some? && st.qualityReport.Some?
    ensures multiset(visited)["evaluate_quality"] == evaluations
    ensures evaluations <= Budget(old(st.revisionCount)) + 1
    ensures old(st.revisionCount).GetOr(0) <= MaxRevisions ==> st.revisionCount.GetOr(0) <= MaxRevisions
  {
    ghost var budget0 := Budget(st.revisionCount);
    ghost var bounded := st.revisionCount.GetOr(0) <= MaxRevisions;
    var current := "research";
    visited, evaluations := [], 0;
    while current != End
      invariant ScriptNode(current) || current == End
      invariant current != End ==> evaluations + Budget(st.revisionCount) <= budget0
      invariant current == End ==> evaluations + Budget(st.revisionCount) <= budget0 + 1
      invariant current == End ==> |visited| > 0 && visited[|visited| - 1] == "evaluate_quality"
      invariant current == End ==> GateDecision(st.qualityReport, st.revisionCount) == Ok(Finish) && st.qualityReport.Some?
      invariant current in {"evaluate_quality", "revise_script", End} ==> st.processedScript.Some?
      invariant |visited| > 0 ==> visited[0] == "research" && ScriptEdge(visited[|visited| - 1], current)
      invariant visited == [] ==> current == "research"
      invariant ScriptPath(visited)
      invariant multiset(visited)["evaluate_quality"] == evaluations
      invariant bounded ==> st.revisionCount.GetOr(0) <= MaxRevisions
      decreases Budget(st.revisionCount), Distance(current)
    {
      PathSnoc(visited, current);
      visited := visited + [current];
      if current == "evaluate_quality" {
        evaluations := evaluations + 1;
      }
      var outcome, next := Step(current, st, client, lib);
      if outcome.Failed? {
        ScriptPathIsPath(visited);
        return outcome, visited, evaluations;
      }
      current := next;
    }
    ScriptPathIsPath(visited);
    ScriptGraphEdges("evaluate_quality", End);
    r := Done;
  }
}
