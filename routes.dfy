/**
 * The generation endpoint: validate the body, build the initial state from
 * the request, run the workflow, and map the final state to the response
 * body, or any failure of the run to a 500 error.
 */
module Routes {
  import opened Wrappers
  import opened PyStr
  import opened State
  import opened Router
  import opened Workflow
  import opened ApiModels
  import opened TitleStep

  /** The `detail` of an error response. */
  datatype ErrorDetail = ErrorDetail(error: string, message: string)

  /** What the endpoint answers. */
  datatype HttpResponse =
    | Ok(body: BlogResponse)
    | HttpError(detail: ErrorDetail)
    | Unprocessable(errors: seq<FieldError>)

  /** The status code of a response. */
  function Status(r: HttpResponse): (code: nat)
    ensures code in {200, 422, 500}
    ensures code == 200 <==> r.Ok?
    ensures code == 422 <==> r.Unprocessable?
  {
    match r
    case Ok(_) => 200
    case HttpError(_) => 500
    case Unprocessable(_) => 422
  }

  /** The initial state `generate_blog` builds: the request's four fields and
      empty outputs, the same state `run_workflow` starts from. */
  function RequestState(req: Request): (s: BlogState)
    ensures s == InitialState(req.topic, req.transcript, req.targetLanguage, req.style)
  {
    BlogState(req.topic, req.transcript, req.targetLanguage, req.style, [], "", "", None, "", 0)
  }

  /** `bool(result.get("translated_content"))`: a translation that is present
      and not the empty string. */
  function WasTranslated(translated: Option<string>): (b: bool)
    ensures b <==> translated.Some? && translated.value != []
  {
    match translated
    case None => false
    case Some(t) => |t| > 0
  }

  /** The response body built from the final state; the language is echoed
      from the request, not read from the state. */
  function ToResponse(req: Request, result: BlogState): (r: BlogResponse)
    ensures r.title == result.selectedTitle && r.content == result.finalContent
    ensures r.wordCount == result.wordCount && r.brainstormedTitles == result.brainstormedTitles
    ensures r.wasTranslated <==> result.translatedContent.Some? && result.translatedContent.value != []
    ensures r.targetLanguage == req.targetLanguage
  {
    NewResponse(
      result.selectedTitle, result.finalContent, result.wordCount,
      Some(WasTranslated(result.translatedContent)),
      Some(req.targetLanguage),
      Some(result.brainstormedTitles))
  }

  const FailurePrefix := "Failed to generate blog: "

  /** The answer for a run's outcome: the response body, or status 500 with
      "generation_failed" and the failure's text after a fixed prefix. */
  function Respond(req: Request, outcome: Result<BlogState, string>): (r: HttpResponse)
    ensures r.Ok? <==> outcome.Success?
    ensures r.Ok? ==> r.body == ToResponse(req, outcome.value)
    ensures r.Ok? ==> r.body.title == outcome.value.selectedTitle && r.body.content == outcome.value.finalContent
    ensures r.HttpError? ==> Status(r) == 500 && r.detail.error == "generation_failed"
    ensures r.HttpError? ==> r.detail.message == FailurePrefix + outcome.error
    ensures !r.Unprocessable?
  {
    match outcome
    case Success(result) => Ok(ToResponse(req, result))
    case Failure(e) => HttpError(ErrorDetail("generation_failed", FailurePrefix + e))
  }

  /** `generate_blog` on a validated request: never a validation refusal;
      the body built from the final state when the run succeeds, a 500
      otherwise. */
  function GenerateBlog(req: Request, llm: Replies): (r: HttpResponse)
    ensures !r.Unprocessable?
    ensures r.Ok? <==> Run(RequestState(req), llm).Success?
    ensures r.Ok? ==> r.body == ToResponse(req, Run(RequestState(req), llm).value)
  {
    Respond(req, Run(RequestState(req), llm))
  }

  /** A POST of a body: a body that fails validation is answered 422 without
      running anything. */
  function Post(raw: RawRequest, llm: Replies): (r: HttpResponse)
    ensures ParseRequest(raw).Failure? ==> r == Unprocessable(ParseRequest(raw).error)
    ensures ParseRequest(raw).Success? ==> r == GenerateBlog(ParseRequest(raw).value, llm)
    ensures ParseRequest(raw).Success? ==> !r.Unprocessable?
  {
    match ParseRequest(raw)
    case Failure(errs) => Unprocessable(errs)
    case Success(req) => GenerateBlog(req, llm)
  }

  /** 422 exactly for invalid bodies; 500 exactly when a model call the run
      makes raises; 200 otherwise. */
  lemma PostStatus(raw: RawRequest, llm: Replies)
    ensures Status(Post(raw, llm)) == 422 <==> ParseRequest(raw).Failure?
    ensures ParseRequest(raw).Success? ==>
      var req := ParseRequest(raw).value;
      (Status(Post(raw, llm)) == 500 <==>
        || llm.titleGeneration.Raised? || llm.titleSelection.Raised? || llm.content.Raised?
        || (ShouldTranslate(RequestState(req)) == Router.Translate && llm.translation.Raised?))
  {
    if ParseRequest(raw).Success? {
      RunFailure(RequestState(ParseRequest(raw).value), llm);
    }
  }

  /** A body without a topic is answered 422. */
  lemma EmptyBodyIsUnprocessable(llm: Replies)
    ensures Status(Post(RawRequest(Absent, Absent, Absent, Absent), llm)) == 422
  {
    EmptyBodyRefused();
  }

  /** A topic of two characters is answered 422. */
  lemma ShortTopicIsUnprocessable(llm: Replies)
    ensures Status(Post(RawRequest(JsonString("Hi"), Absent, Absent, Absent), llm)) == 422
  {
    ShortTopicRefused();
  }

  /** When the run fails, the answer is 500 and carries the message of the
      first model call that raised. */
  lemma GenerateBlogFailure(req: Request, llm: Replies)
    requires Run(RequestState(req), llm).Failure?
    ensures var r := GenerateBlog(req, llm);
      && Status(r) == 500
      && r.detail == ErrorDetail("generation_failed", FailurePrefix +
        if llm.titleGeneration.Raised? then llm.titleGeneration.message
        else if llm.titleSelection.Raised? then llm.titleSelection.message
        else if llm.content.Raised? then llm.content.message
        else llm.translation.message)
  {
    RunFailure(RequestState(req), llm);
  }

  /** A successful answer names one of its brainstormed titles, which are the
      candidates parsed from the title reply, and echoes the request's language. */
  lemma GenerateBlogTitles(req: Request, llm: Replies)
    requires GenerateBlog(req, llm).Ok?
    ensures var b := GenerateBlog(req, llm).body;
      && llm.titleGeneration.Text?
      && b.brainstormedTitles == CandidateTitles(req.topic, llm.titleGeneration.content)
      && |b.brainstormedTitles| >= 1
      && b.title in b.brainstormedTitles
      && b.targetLanguage == req.targetLanguage
  {
    var s0 := RequestState(req);
    RunTitles(s0, llm);
  }

  /** When the title reply is the numbered list "1. t1", "2. t2", ... of
      listable titles and the pick names one of them exactly, the answer
      carries exactly those titles and that pick. */
  lemma GenerateBlogListedTitles(req: Request, llm: Replies, titles: seq<string>, k: nat)
    requires GenerateBlog(req, llm).Ok?
    requires k < |titles| && forall i :: 0 <= i < |titles| ==> Listable(titles[i])
    requires llm.titleGeneration == Text(FormatTitles(titles)) && llm.titleSelection == Text(titles[k])
    ensures GenerateBlog(req, llm).body.brainstormedTitles == titles
    ensures GenerateBlog(req, llm).body.title == titles[k]
  {
    RunTitles(RequestState(req), llm);
    FormatThenParse(titles);
    StripStripped(titles[k]);
  }

  /** Without a usable language the answer carries the blog text, its word
      count, and reports no translation. */
  lemma GenerateBlogUntranslated(req: Request, llm: Replies)
    requires GenerateBlog(req, llm).Ok?
    requires req.targetLanguage.None? || AllSpace(req.targetLanguage.value)
    ensures var b := GenerateBlog(req, llm).body;
      && llm.content.Text? && b.content == Strip(llm.content.content)
      && b.wordCount == RunStarts(b.content, 0)
      && !b.wasTranslated
  {
    var s0 := RequestState(req);
    ShouldTranslateIff(s0);
    RunEndBranch(s0, llm);
    RunContent(s0, llm);
  }

  /** With a usable language the answer carries the stripped translation, and
      reports a translation exactly when that text is not empty. */
  lemma GenerateBlogTranslated(req: Request, llm: Replies)
    requires GenerateBlog(req, llm).Ok?
    requires req.targetLanguage.Some? && !AllSpace(req.targetLanguage.value)
    ensures var b := GenerateBlog(req, llm).body;
      && llm.translation.Text? && b.content == Strip(llm.translation.content)
      && (b.wasTranslated <==> b.content != [])
  {
    var s0 := RequestState(req);
    ShouldTranslateIff(s0);
    RunTranslateBranch(s0, llm);
  }

  /** `run_workflow` called with only a topic (no transcript, no language,
      the professional style) starts from the same state as a POST whose body
      holds only that topic. */
  lemma TopicOnlyRunsDefaults(topic: string)
    requires TopicMinLength <= |topic| <= TopicMaxLength
    ensures var parsed := ParseRequest(RawRequest(JsonString(topic), Absent, Absent, Absent));
      && parsed.Success?
      && RequestState(parsed.value) == InitialState(topic, None, None, DefaultStyle)
  {
    TopicOnlyDefaults(topic);
  }

  /** The final state a run can hand back in place of the real one. */
  function MockResult(): BlogState
  {
    BlogState(
      "Test Topic", None, None, "professional",
      ["Title 1", "Title 2"], "Title 1",
      "# Test Blog\n\nThis is test content.", None,
      "# Test Blog\n\nThis is test content.", 5)
  }

  /** Answering with that state gives status 200, the selected title, the
      state's word count, and no translation. */
  lemma MockedResultResponse()
    ensures var r := Respond(Request("Test Topic", None, None, "professional"), Success(MockResult()));
      && Status(r) == 200
      && r.body.title == "Title 1"
      && r.body.wordCount == 5
      && r.body.content == "# Test Blog\n\nThis is test content."
      && !r.body.wasTranslated
  {
  }
}
