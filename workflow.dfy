/**
 * The execution graph: its fixed topology, the run that walks it on one state
 * record (each node's patch merged by shallow overwrite), and the run's
 * guarantees.
 */
module Workflow {
  import opened Wrappers
  import opened PyStr
  import opened State
  import opened TitleStep
  import opened ContentStep
  import opened TranslationStep
  import opened Router

  /** START, the three agent nodes and END. */
  datatype Node = Start | TitleAgentNode | ContentAgentNode | TranslationAgentNode | Finish

  /** The topology: unconditional edges, and one node whose successor is chosen
      by the router's label. */
  datatype Graph = Graph(edges: map<Node, Node>, branchSource: Node, branches: map<string, Node>)

  /** `create_workflow`: START -> title -> content -> router, "translate" ->
      translation -> END, "end" -> END. END has no way out, the branch map
      covers exactly the router's two labels, and every edge, fixed or
      branching, leads to a node of lower rank: the graph has no cycle. */
  function CreateWorkflow(): (g: Graph)
    ensures g.edges.Keys == {Start, TitleAgentNode, TranslationAgentNode}
    ensures g.branchSource == ContentAgentNode && g.branches.Keys == {Router.Translate, Router.End}
    ensures forall n :: n in g.edges ==> Rank(g.edges[n]) < Rank(n)
    ensures forall l :: l in g.branches ==> Rank(g.branches[l]) < Rank(g.branchSource)
  {
    Graph(
      map[Start := TitleAgentNode, TitleAgentNode := ContentAgentNode, TranslationAgentNode := Finish],
      ContentAgentNode,
      map[Router.Translate := TranslationAgentNode, Router.End := Finish])
  }

  /** Distance to END along the longest route; every edge lowers it. */
  function Rank(n: Node): nat
  {
    match n
    case Start => 4
    case TitleAgentNode => 3
    case ContentAgentNode => 2
    case TranslationAgentNode => 1
    case Finish => 0
  }

  /** The node taken after `node` has run and left `s`. */
  function NextNode(node: Node, s: BlogState): (next: Node)
    requires node != Finish
    ensures Rank(next) < Rank(node)
  {
    match node
    case Start => TitleAgentNode
    case TitleAgentNode => ContentAgentNode
    case ContentAgentNode => if ShouldTranslate(s) == Router.Translate then TranslationAgentNode else Finish
    case TranslationAgentNode => Finish
  }

  /** The successor is the one the topology names: the router's label looked up
      in the branch map at the branching node, the fixed edge elsewhere; every
      label the router can return is a key of the branch map. */
  lemma NextNodeFollowsGraph(node: Node, s: BlogState)
    requires node != Finish
    ensures var g := CreateWorkflow();
      && ShouldTranslate(s) in g.branches
      && (node == g.branchSource ==> NextNode(node, s) == g.branches[ShouldTranslate(s)])
      && (node != g.branchSource ==> node in g.edges && NextNode(node, s) == g.edges[node])
  {
  }

  /** The patch a node returns; START and END do no work. */
  function NodePatch(node: Node, s: BlogState, llm: Replies): Result<Patch, string>
  {
    match node
    case TitleAgentNode => TitleStepResult(s, llm.titleGeneration, llm.titleSelection)
    case ContentAgentNode => ContentStepResult(s, llm.content)
    case TranslationAgentNode => TranslationStepResult(s, llm.translation)
    case _ => Success(NoUpdate)
  }

  /** Running one node: its patch merged into the state, or its failure. */
  function Step(node: Node, s: BlogState, llm: Replies): Result<BlogState, string>
  {
    match NodePatch(node, s, llm)
    case Success(p) => Success(Merge(s, p))
    case Failure(e) => Failure(e)
  }

  /** The run from `node` on: step, follow the edge, until END or a failure. */
  function RunFrom(node: Node, s: BlogState, llm: Replies): Result<BlogState, string>
    decreases Rank(node)
  {
    if node == Finish then
      Success(s)
    else
      match Step(node, s, llm)
      case Failure(e) => Failure(e)
      case Success(s') => RunFrom(NextNode(node, s'), s', llm)
  }

  /** The nodes the run from `node` enters, in order. */
  function TraceFrom(node: Node, s: BlogState, llm: Replies): seq<Node>
    decreases Rank(node)
  {
    if node == Finish then
      [Finish]
    else
      [node] + match Step(node, s, llm)
        case Failure(_) => []
        case Success(s') => TraceFrom(NextNode(node, s'), s', llm)
  }

  function Run(s0: BlogState, llm: Replies): Result<BlogState, string>
  {
    RunFrom(Start, s0, llm)
  }

  function Trace(s0: BlogState, llm: Replies): seq<Node>
  {
    TraceFrom(Start, s0, llm)
  }

  /** `workflow.invoke`: walks the graph from START, merging each node's patch
      into the one state record, until END; a raising node ends the run. */
  method Invoke(initial: BlogState, llm: Replies) returns (outcome: Result<BlogState, string>, visited: seq<Node>)
    ensures outcome == Run(initial, llm)
    ensures visited == Trace(initial, llm)
  {
    var node := Start;
    var state := initial;
    visited := [];
    while node != Finish
      invariant RunFrom(node, state, llm) == Run(initial, llm)
      invariant visited + TraceFrom(node, state, llm) == Trace(initial, llm)
      decreases Rank(node)
    {
      visited := visited + [node];
      var patch: Result<Patch, string>;
      match node {
        case TitleAgentNode =>
          patch := TitleAgent(state, llm.titleGeneration, llm.titleSelection);
        case ContentAgentNode =>
          patch := ContentStepResult(state, llm.content);
        case TranslationAgentNode =>
          patch := TranslationStepResult(state, llm.translation);
        case _ =>
          patch := Success(NoUpdate);
      }
      if patch.Failure? {
        assert visited == Trace(initial, llm);
        return Failure(patch.error), visited;
      }
      state := Merge(state, patch.value);
      node := NextNode(node, state);
    }
    visited := visited + [Finish];
    outcome := Success(state);
  }

  /**
   * The same run written as the straight sequence the topology fixes: title,
   * content, the router on the post-content state, then translation only on
   * "translate".
   */
  function Pipeline(s0: BlogState, llm: Replies): Result<BlogState, string>
  {
    match TitleStepResult(s0, llm.titleGeneration, llm.titleSelection)
    case Failure(e) => Failure(e)
    case Success(p1) =>
      var s1 := Merge(s0, p1);
      match ContentStepResult(s1, llm.content)
      case Failure(e) => Failure(e)
      case Success(p2) =>
        var s2 := Merge(s1, p2);
        if ShouldTranslate(s2) == Router.Translate then
          match TranslationStepResult(s2, llm.translation)
          case Failure(e) => Failure(e)
          case Success(p3) => Success(Merge(s2, p3))
        else
          Success(s2)
  }

  lemma RunFromStart(s: BlogState, llm: Replies)
    ensures RunFrom(Start, s, llm) == RunFrom(TitleAgentNode, s, llm)
    ensures TraceFrom(Start, s, llm) == [Start] + TraceFrom(TitleAgentNode, s, llm)
  {
  }

  lemma RunFromTitle(s: BlogState, llm: Replies)
    ensures var r := TitleStepResult(s, llm.titleGeneration, llm.titleSelection);
      && RunFrom(TitleAgentNode, s, llm) == (if r.Failure? then Failure(r.error) else RunFrom(ContentAgentNode, Merge(s, r.value), llm))
      && TraceFrom(TitleAgentNode, s, llm) == [TitleAgentNode] + (if r.Failure? then [] else TraceFrom(ContentAgentNode, Merge(s, r.value), llm))
  {
  }

  lemma RunFromContent(s: BlogState, llm: Replies)
    ensures var r := ContentStepResult(s, llm.content);
      r.Failure? ==>
        && RunFrom(ContentAgentNode, s, llm) == Failure(r.error)
        && TraceFrom(ContentAgentNode, s, llm) == [ContentAgentNode]
    ensures var r := ContentStepResult(s, llm.content);
      r.Success? ==>
        var s' := Merge(s, r.value);
        var next := if ShouldTranslate(s') == Router.Translate then TranslationAgentNode else Finish;
        && RunFrom(ContentAgentNode, s, llm) == RunFrom(next, s', llm)
        && TraceFrom(ContentAgentNode, s, llm) == [ContentAgentNode] + TraceFrom(next, s', llm)
  {
  }

  lemma RunFromTranslation(s: BlogState, llm: Replies)
    ensures var r := TranslationStepResult(s, llm.translation);
      && RunFrom(TranslationAgentNode, s, llm) == (if r.Failure? then Failure(r.error) else Success(Merge(s, r.value)))
      && TraceFrom(TranslationAgentNode, s, llm) == [TranslationAgentNode] + (if r.Failure? then [] else [Finish])
  {
  }

  /** Walking the graph is the straight sequence. */
  lemma RunIsPipeline(s0: BlogState, llm: Replies)
    ensures Run(s0, llm) == Pipeline(s0, llm)
  {
    RunFromStart(s0, llm);
    RunFromTitle(s0, llm);
    var r1 := TitleStepResult(s0, llm.titleGeneration, llm.titleSelection);
    if r1.Success? {
      var s1 := Merge(s0, r1.value);
      RunFromContent(s1, llm);
      var r2 := ContentStepResult(s1, llm.content);
      if r2.Success? {
        RunFromTranslation(Merge(s1, r2.value), llm);
      }
    }
  }

  /** The router's branch, read after the content step, is already fixed by the
      run's input state. */
  lemma BranchFixedByInput(s0: BlogState, p1: Patch, p2: Patch)
    ensures ShouldTranslate(Merge(Merge(s0, p1), p2)) == ShouldTranslate(s0)
    ensures CallsModel(Merge(Merge(s0, p1), p2)) == CallsModel(s0)
  {
    ShouldTranslateReadsOnlyLanguage(Merge(Merge(s0, p1), p2), s0);
  }

  /** A run fails exactly when a model call it makes raises, and then with the
      message of the first such call. */
  lemma RunFailure(s0: BlogState, llm: Replies)
    ensures Run(s0, llm).Failure? <==>
      || llm.titleGeneration.Raised? || llm.titleSelection.Raised? || llm.content.Raised?
      || (ShouldTranslate(s0) == Router.Translate && llm.translation.Raised?)
    ensures Run(s0, llm).Failure? ==> (Run(s0, llm).error ==
      if llm.titleGeneration.Raised? then llm.titleGeneration.message
      else if llm.titleSelection.Raised? then llm.titleSelection.message
      else if llm.content.Raised? then llm.content.message
      else llm.translation.message)
  {
    RunIsPipeline(s0, llm);
    var r1 := TitleStepResult(s0, llm.titleGeneration, llm.titleSelection);
    if r1.Success? {
      var r2 := ContentStepResult(Merge(s0, r1.value), llm.content);
      if r2.Success? {
        BranchFixedByInput(s0, r1.value, r2.value);
      }
    }
  }

  /** The state the title and content patches leave, with the translation
      patch merged on top when there is one. */
  function Chain(s0: BlogState, p1: Patch, p2: Patch, p3: Option<Patch>): BlogState
  {
    var s2 := Merge(Merge(s0, p1), p2);
    if p3.Some? then Merge(s2, p3.value) else s2
  }

  /** What each field holds after the chain of the three steps' patches. */
  lemma ChainFields(s0: BlogState, p1: Patch, p2: Patch, p3: Option<Patch>)
    requires p1.TitleUpdate? && p2.ContentUpdate? && (p3.Some? ==> p3.value.TranslationUpdate?)
    ensures var s := Chain(s0, p1, p2, p3);
      && s.topic == s0.topic && s.transcript == s0.transcript
      && s.targetLanguage == s0.targetLanguage && s.style == s0.style
      && s.brainstormedTitles == p1.brainstormedTitles && s.selectedTitle == p1.selectedTitle
      && s.blogContent == p2.blogContent && s.wordCount == p2.wordCount
      && s.translatedContent == (if p3.Some? then p3.value.translatedContent else s0.translatedContent)
      && s.finalContent == (if p3.Some? then p3.value.finalContent else p2.finalContent)
  {
  }

  /** A successful run in stages: the title patch, the content patch, and the
      translation patch, present exactly on "translate". */
  lemma RunStages(s0: BlogState, llm: Replies) returns (p1: Patch, p2: Patch, p3: Option<Patch>)
    requires Run(s0, llm).Success?
    ensures TitleStepResult(s0, llm.titleGeneration, llm.titleSelection) == Success(p1)
    ensures ContentStepResult(Merge(s0, p1), llm.content) == Success(p2)
    ensures p3.Some? <==> ShouldTranslate(s0) == Router.Translate
    ensures p3.Some? ==> TranslationStepResult(Merge(Merge(s0, p1), p2), llm.translation) == Success(p3.value)
    ensures Run(s0, llm) == Success(Chain(s0, p1, p2, p3))
  {
    RunIsPipeline(s0, llm);
    p1 := TitleStepResult(s0, llm.titleGeneration, llm.titleSelection).value;
    p2 := ContentStepResult(Merge(s0, p1), llm.content).value;
    BranchFixedByInput(s0, p1, p2);
    if ShouldTranslate(s0) == Router.Translate {
      p3 := Some(TranslationStepResult(Merge(Merge(s0, p1), p2), llm.translation).value);
    } else {
      p3 := None;
    }
  }

  /** The run leaves `topic`, `transcript`, `target_language` and `style` as they were. */
  lemma RunKeepsInputs(s0: BlogState, llm: Replies)
    requires Run(s0, llm).Success?
    ensures var s := Run(s0, llm).value;
      s.topic == s0.topic && s.transcript == s0.transcript
      && s.targetLanguage == s0.targetLanguage && s.style == s0.style
  {
    var p1, p2, p3 := RunStages(s0, llm);
    ChainFields(s0, p1, p2, p3);
  }

  /** At the end the titles are the brainstormed candidates, never empty, and
      the selected title is one of them. */
  lemma RunTitles(s0: BlogState, llm: Replies)
    requires Run(s0, llm).Success?
    ensures llm.titleGeneration.Text? && llm.titleSelection.Text?
    ensures var s := Run(s0, llm).value;
      && s.brainstormedTitles == CandidateTitles(s0.topic, llm.titleGeneration.content)
      && |s.brainstormedTitles| >= 1
      && s.selectedTitle in s.brainstormedTitles
      && s.selectedTitle == SelectTitle(s.brainstormedTitles, llm.titleSelection.content)
  {
    var p1, p2, p3 := RunStages(s0, llm);
    ChainFields(s0, p1, p2, p3);
  }

  /** At the end the blog text is the stripped writing reply and the word count
      counts its non-whitespace runs; translation changes neither. */
  lemma RunContent(s0: BlogState, llm: Replies)
    requires Run(s0, llm).Success?
    ensures llm.content.Text?
    ensures var s := Run(s0, llm).value;
      && s.blogContent == Strip(llm.content.content)
      && s.wordCount == RunStarts(s.blogContent, 0)
      && (s.wordCount == 0 <==> s.blogContent == [])
  {
    var p1, p2, p3 := RunStages(s0, llm);
    ContentWordCount(Merge(s0, p1), llm.content);
    ChainFields(s0, p1, p2, p3);
  }

  /** On "end" no translation runs: the translation field keeps its input value
      and the final content is the blog text. */
  lemma RunEndBranch(s0: BlogState, llm: Replies)
    requires Run(s0, llm).Success? && ShouldTranslate(s0) == Router.End
    ensures var s := Run(s0, llm).value;
      s.translatedContent == s0.translatedContent && s.finalContent == s.blogContent
  {
    var p1, p2, p3 := RunStages(s0, llm);
    ChainFields(s0, p1, p2, p3);
  }

  /** On "translate" the final content is the stripped translation, while the
      blog text and word count keep the content step's values. */
  lemma RunTranslateBranch(s0: BlogState, llm: Replies)
    requires Run(s0, llm).Success? && ShouldTranslate(s0) == Router.Translate
    ensures llm.translation.Text?
    ensures var s := Run(s0, llm).value;
      && s.translatedContent == Some(Strip(llm.translation.content))
      && s.finalContent == Strip(llm.translation.content)
      && s.blogContent == Strip(llm.content.content)
  {
    var p1, p2, p3 := RunStages(s0, llm);
    BranchFixedByInput(s0, p1, p2);
    ShouldTranslateIff(s0);
    ChainFields(s0, p1, p2, p3);
  }

  /** In a successful run the title node runs on the input state itself, so
      the brainstorming call is asked about the request's topic, the section
      built from its transcript, and its style; the selection call is shown
      the titles the run ends with, numbered from 1, with the same topic and
      style. */
  lemma RunTitlePrompts(s0: BlogState, llm: Replies)
    requires Run(s0, llm).Success?
    ensures RunFrom(TitleAgentNode, s0, llm) == Run(s0, llm)
    ensures llm.titleGeneration.Text?
    ensures TitlePromptsOf(s0, llm.titleGeneration.content) == TitlePrompts(
      GenerationPrompt(s0.topic, TranscriptSection(s0.transcript), s0.style),
      SelectionPrompt(FormatTitles(Run(s0, llm).value.brainstormedTitles), s0.topic, s0.style))
  {
    RunFromStart(s0, llm);
    RunTitles(s0, llm);
  }

  /** In a successful run the writing call is asked about the title the run
      ends up selecting, the request's topic and style, and the section chosen
      from the request's transcript. */
  lemma RunContentPrompt(s0: BlogState, llm: Replies)
    requires Run(s0, llm).Success?
    ensures TitleStepResult(s0, llm.titleGeneration, llm.titleSelection).Success?
    ensures var s1 := Merge(s0, TitleStepResult(s0, llm.titleGeneration, llm.titleSelection).value);
      ContentPromptOf(s1) ==
        ContentPrompt(Run(s0, llm).value.selectedTitle, s0.topic, s0.style, ContentTranscriptSection(s0.transcript))
  {
    var p1, p2, p3 := RunStages(s0, llm);
    ChainFields(s0, p1, p2, p3);
  }

  /** On "translate" the guard lets the call through, and the translation call
      is asked for the request's language and the stripped writing reply. */
  lemma RunTranslationPrompt(s0: BlogState, llm: Replies)
    requires Run(s0, llm).Success? && ShouldTranslate(s0) == Router.Translate
    ensures llm.content.Text?
    ensures TitleStepResult(s0, llm.titleGeneration, llm.titleSelection).Success?
    ensures var s1 := Merge(s0, TitleStepResult(s0, llm.titleGeneration, llm.titleSelection).value);
      ContentStepResult(s1, llm.content).Success?
    ensures var s1 := Merge(s0, TitleStepResult(s0, llm.titleGeneration, llm.titleSelection).value);
      var s2 := Merge(s1, ContentStepResult(s1, llm.content).value);
      && CallsModel(s2)
      && TranslationPromptOf(s2) == TranslationPrompt(s0.targetLanguage.value, Strip(llm.content.content))
  {
    var p1, p2, p3 := RunStages(s0, llm);
    BranchFixedByInput(s0, p1, p2);
    ShouldTranslateIff(s0);
  }

  /** Ranks fall strictly along the sequence. */
  predicate RanksFall(t: seq<Node>)
  {
    forall i, j :: 0 <= i < j < |t| ==> Rank(t[i]) > Rank(t[j])
  }

  /** A trace starts at its node and enters nodes of ever lower rank. */
  lemma {:induction false} TraceFromFalls(node: Node, s: BlogState, llm: Replies)
    ensures var t := TraceFrom(node, s, llm);
      |t| >= 1 && t[0] == node && RanksFall(t)
    decreases Rank(node)
  {
    if node != Finish {
      match Step(node, s, llm)
      case Failure(_) =>
      case Success(s') =>
        var next := NextNode(node, s');
        TraceFromFalls(next, s', llm);
        RanksFallCons(node, TraceFrom(next, s', llm));
    }
  }

  /** When the run from a node succeeds, its trace ends at END. */
  lemma {:induction false} TraceFromEnds(node: Node, s: BlogState, llm: Replies)
    requires RunFrom(node, s, llm).Success?
    ensures var t := TraceFrom(node, s, llm);
      |t| >= 1 && t[|t| - 1] == Finish
    decreases Rank(node)
  {
    if node != Finish {
      var s' := Step(node, s, llm).value;
      var rest := TraceFrom(NextNode(node, s'), s', llm);
      TraceFromEnds(NextNode(node, s'), s', llm);
      assert TraceFrom(node, s, llm) == [node] + rest;
    }
  }

  lemma RanksFallCons(n: Node, rest: seq<Node>)
    requires RanksFall(rest) && |rest| >= 1 && Rank(rest[0]) < Rank(n)
    ensures RanksFall([n] + rest)
  {
    forall k | 0 <= k < |rest| ensures Rank(rest[k]) < Rank(n) {
      if k > 0 {
        assert Rank(rest[0]) > Rank(rest[k]);
      }
    }
  }

  /** A run enters no node twice, starts at START and, when it succeeds, ends at END. */
  lemma TraceVisitsOnce(s0: BlogState, llm: Replies)
    ensures var t := Trace(s0, llm);
      && |t| >= 1 && t[0] == Start
      && (forall i, j :: 0 <= i < j < |t| ==> t[i] != t[j])
      && (Run(s0, llm).Success? ==> t[|t| - 1] == Finish)
  {
    TraceFromFalls(Start, s0, llm);
    if Run(s0, llm).Success? {
      TraceFromEnds(Start, s0, llm);
    }
  }

  /** A successful run enters START, the title node and the content node, and
      goes on from the router's choice. */
  lemma TraceToRouter(s0: BlogState, llm: Replies) returns (s2: BlogState)
    requires Run(s0, llm).Success?
    ensures s2.targetLanguage == s0.targetLanguage
    ensures Trace(s0, llm) == [Start, TitleAgentNode, ContentAgentNode] + TraceFrom(NextNode(ContentAgentNode, s2), s2, llm)
    ensures Run(s0, llm) == RunFrom(NextNode(ContentAgentNode, s2), s2, llm)
  {
    var p1, p2, p3 := RunStages(s0, llm);
    var s1 := Merge(s0, p1);
    s2 := Merge(s1, p2);
    RunFromStart(s0, llm);
    RunFromTitle(s0, llm);
    assert TraceFrom(TitleAgentNode, s0, llm) == [TitleAgentNode] + TraceFrom(ContentAgentNode, s1, llm);
    RunFromContent(s1, llm);
    assert TraceFrom(ContentAgentNode, s1, llm) == [ContentAgentNode] + TraceFrom(NextNode(ContentAgentNode, s2), s2, llm);
  }

  /** On "end" a successful run enters START, the title node, the content node and END. */
  lemma TraceEndBranch(s0: BlogState, llm: Replies)
    requires Run(s0, llm).Success? && ShouldTranslate(s0) == Router.End
    ensures Trace(s0, llm) == [Start, TitleAgentNode, ContentAgentNode, Finish]
  {
    var s2 := TraceToRouter(s0, llm);
    ShouldTranslateReadsOnlyLanguage(s2, s0);
  }

  /** On "translate" a successful run enters START, the title node, the content
      node, the translation node and END. */
  lemma TraceTranslateBranch(s0: BlogState, llm: Replies)
    requires Run(s0, llm).Success? && ShouldTranslate(s0) == Router.Translate
    ensures Trace(s0, llm) == [Start, TitleAgentNode, ContentAgentNode, TranslationAgentNode, Finish]
  {
    var s2 := TraceToRouter(s0, llm);
    ShouldTranslateReadsOnlyLanguage(s2, s0);
    RunFromTranslation(s2, llm);
  }

  /** `run_workflow`'s initial state: the four inputs and empty outputs. */
  function InitialState(topic: string, transcript: Option<string>, targetLanguage: Option<string>, style: string): BlogState
  {
    BlogState(topic, transcript, targetLanguage, style, [], "", "", None, "", 0)
  }

  /** From the initial state, the final content is the translation when there is
      one and the blog text otherwise. */
  lemma RunFromInitial(topic: string, transcript: Option<string>, targetLanguage: Option<string>, style: string, llm: Replies)
    requires Run(InitialState(topic, transcript, targetLanguage, style), llm).Success?
    ensures var s := Run(InitialState(topic, transcript, targetLanguage, style), llm).value;
      && s.finalContent == (if s.translatedContent.Some? then s.translatedContent.value else s.blogContent)
      && (s.translatedContent.Some? <==> ShouldTranslate(s) == Router.Translate)
  {
    var s0 := InitialState(topic, transcript, targetLanguage, style);
    RunKeepsInputs(s0, llm);
    ShouldTranslateReadsOnlyLanguage(Run(s0, llm).value, s0);
    if ShouldTranslate(s0) == Router.Translate {
      RunTranslateBranch(s0, llm);
    } else {
      RunEndBranch(s0, llm);
    }
  }

  /** `run_workflow`: build the initial state and invoke the graph on it. */
  method RunWorkflow(topic: string, transcript: Option<string>, targetLanguage: Option<string>, style: string, llm: Replies)
    returns (outcome: Result<BlogState, string>)
    ensures outcome == Run(InitialState(topic, transcript, targetLanguage, style), llm)
  {
    var initial := InitialState(topic, transcript, targetLanguage, style);
    var visited;
    outcome, visited := Invoke(initial, llm);
  }
}
