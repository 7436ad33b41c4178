# Autonomous blog generation agent: a Dafny model of its deterministic core

The service turns a topic into a blog post. It makes up to four calls to a
language model. Titles are brainstormed and then one is selected. The post is
written. The post is optionally translated. This project models everything the
service does around those calls, and treats each call's reply as an input:
`LlmReply = Text(content) | Raised(message)`, one per call, in a `Replies`
record.

- `PyStr`: the few Python `str` operations the agents use: `strip()`,
  `split("\n")`, `split(c, 1)[-1]`, `split()`, slicing, joining and decimal
  formatting.
- `State`: the workflow state (`BlogState`). It also holds the four shapes of
  patch a step returns, and `Merge`, the shallow overwrite the graph applies
  to each patch.
- `TitleStep`: `title_agent`. It parses the numbered list, falls back to
  "Complete Guide to <topic>" when nothing parses, formats the selection list,
  and checks the pick. The parse loop is the method `TitleAgent`, which is
  proved equal to the function `TitleStepResult`.
- `Router`: `should_translate`, with its two labels "translate" and "end".
- `ContentStep`: `content_agent`. It chooses the transcript section, strips
  the reply, counts words and hands over the final content.
- `TranslationStep`: `translation_agent`. It holds the language guard and the
  translating patch.
- `Workflow`: the topology built by `create_workflow`, kept as data. The run is
  the method `Invoke`, which walks the graph, updates one state record and
  records the nodes it enters. It is proved equal to `Run` and `Trace`, the
  recursive walk of the graph. `Workflow` also holds `run_workflow` and the
  guarantees of a complete run.
- `ApiModels`: validation of the request body (`BlogGenerationRequest`) and
  the response defaults (`BlogGenerationResponse`).
- `Routes`: `generate_blog`. It builds the initial state from the request,
  maps the final state to the response, and maps a failed run to status 500.
  A body that fails validation is answered 422.

Whitespace is the ASCII set Python's `str.isspace` accepts (tab, line feed,
vertical tab, form feed, carriage return, the four separators 0x1C to 0x1F,
and space). A digit is `'0'` to `'9'`.

Four behaviours of the code shape the model:

- The router's two labels are "translate" and "end"
  (src/blog_agent/graph/router.py:77-80).
- `was_translated` is `bool(result.get("translated_content"))`, so an empty
  translation is reported as no translation (src/blog_agent/api/routes.py:112).
- The blog text is the model's reply stripped of surrounding whitespace
  (src/blog_agent/agents/content_agent.py:89).
- The translation step's guard tests only `not target_language`
  (src/blog_agent/agents/translation_agent.py:59), so a whitespace-only
  language passes it. The router strips the language first
  (src/blog_agent/graph/router.py:77), so such a language ends the run
  before the translation step is reached.

## Model

| member | source | states |
|---|---|---|
| PyStr.Prefix | src/blog_agent/agents/content_agent.py:66 | `s[:n]` is the first min(len(s), n) characters of `s` |
| PyStr.Strip | src/blog_agent/agents/title_agent.py:91 | `strip()` leaves no whitespace at either end and never lengthens the text |
| PyStr.StripParts | src/blog_agent/agents/title_agent.py:95 | the text is whitespace, then its strip, then whitespace |
| PyStr.StripUnique | src/blog_agent/agents/title_agent.py:95 | a stripped text framed by whitespace strips to exactly that text |
| PyStr.StripEmpty | src/blog_agent/graph/router.py:77 | `strip()` gives "" exactly when the text is all whitespace |
| PyStr.StripStripped | src/blog_agent/agents/title_agent.py:124 | a text with no surrounding whitespace is its own strip |
| PyStr.StripLeading | src/blog_agent/agents/title_agent.py:98 | leading whitespace before a stripped text is all that strip removes |
| PyStr.StripIdempotent | src/blog_agent/agents/title_agent.py:95 | stripping twice is stripping once |
| PyStr.AfterFirst | src/blog_agent/agents/title_agent.py:98 | `split(c, 1)[-1]` is never longer than the text |
| PyStr.AfterFirstAbsent | src/blog_agent/agents/title_agent.py:98 | without `c` in the text, `split(c, 1)[-1]` is the whole text |
| PyStr.AfterFirstSplit | src/blog_agent/agents/title_agent.py:98 | for `a + c + b` with no `c` in `a`, `split(c, 1)[-1]` is `b` |
| PyStr.SplitLines | src/blog_agent/agents/title_agent.py:93 | `split("\n")` gives at least one piece |
| PyStr.SplitLinesNoBreak | src/blog_agent/agents/title_agent.py:93 | no piece holds a line feed |
| PyStr.JoinSplitLines | src/blog_agent/agents/title_agent.py:93 | joining the pieces with line feeds gives the text back |
| PyStr.Join | src/blog_agent/agents/title_agent.py:111 | `sep.join(parts)`: no contract of its own; `JoinSplitLines` and `SplitJoinLines` relate it to `split("\n")` |
| PyStr.SplitJoinLines | src/blog_agent/agents/title_agent.py:93-111 | splitting lines that were joined by line feeds, none holding one, gives the same lines back |
| PyStr.Words | src/blog_agent/agents/content_agent.py:96 | every piece `split()` returns is non-empty and holds no whitespace, and it finds no piece exactly when the text is all whitespace |
| PyStr.WordsCountRuns | src/blog_agent/agents/content_agent.py:96 | `len(split())` equals the number of maximal non-whitespace runs, an independent count |
| PyStr.NatToString | src/blog_agent/agents/title_agent.py:111 | `f"{n}"` is a non-empty string of decimal digits with no leading zero unless `n` is 0 |
| PyStr.DecimalRoundTrip | src/blog_agent/agents/title_agent.py:111 | the digits `f"{n}"` produces denote `n` |
| State.Keys | src/blog_agent/agents/title_agent.py:21-27 | no patch names an input field |
| State.KeysHaveValues | src/blog_agent/agents/title_agent.py:21-27 | a key is in a patch exactly when the patch holds a value for it |
| State.MergeGet | src/blog_agent/agents/title_agent.py:21-27 | after a merge, a key the patch names holds the patch's value and every other key keeps its old value |
| State.Merge | src/blog_agent/agents/title_agent.py:21-27 | a merge never changes `topic`, `transcript`, `target_language` or `style` (no patch names them) |
| TitleStep.TranscriptSection | src/blog_agent/agents/title_agent.py:70-73 | a truthy transcript (present, non-empty, whitespace allowed) is embedded as its first min(len, 2000) characters between the header and "..."; otherwise the fixed no-transcript sentence is used |
| TitleStep.TitleFromLine | src/blog_agent/agents/title_agent.py:95-100 | a line yields a title only if, stripped, it is non-empty and starts with a digit; the title is non-empty and stripped |
| TitleStep.DottedLineTitle | src/blog_agent/agents/title_agent.py:98 | a line "N. title" yields `title` when the title has no ")" |
| TitleStep.ParenLineTitle | src/blog_agent/agents/title_agent.py:98 | a line "N) title" yields `title` when the title has neither "." nor ")" |
| TitleStep.ParenthesisInDottedTitle | src/blog_agent/agents/title_agent.py:98 | in a line "N. text) title" the first ")" cuts away everything before it, so only `title` is kept |
| TitleStep.ParsedTitles | src/blog_agent/agents/title_agent.py:93-100 | the parse of the reply lines (the loop itself is `TitleAgent`) keeps at most one title per line, in order |
| TitleStep.ParsedTitlesAppend | src/blog_agent/agents/title_agent.py:93-100 | titles keep the order of their lines: the titles of two blocks of lines are those of the first, then those of the second |
| TitleStep.ParsedTitlesMember | src/blog_agent/agents/title_agent.py:93-100 | a string is a parsed title exactly when some line yields it |
| TitleStep.ParsedTitlesAreTitles | src/blog_agent/agents/title_agent.py:98-100 | every kept title is non-empty and stripped |
| TitleStep.ParsedTitlesAllKept | src/blog_agent/agents/title_agent.py:93-100 | when every line yields a title, the parse is exactly those titles in line order |
| TitleStep.ParseTitleList | src/blog_agent/agents/title_agent.py:91-100 | a reply gives no more titles than its stripped text has lines |
| TitleStep.ParseEmptyReply | src/blog_agent/agents/title_agent.py:91-100 | an empty reply parses to no titles |
| TitleStep.CandidateTitles | src/blog_agent/agents/title_agent.py:103-104 | the titles are never empty; they are exactly ["Complete Guide to " + topic] when nothing parses, and the parsed list otherwise |
| TitleStep.SelectTitle | src/blog_agent/agents/title_agent.py:124-129 | the selected title is always one of the titles; it is the stripped pick exactly when that pick is one of them, and the first title otherwise |
| TitleStep.NumberedLine | src/blog_agent/agents/title_agent.py:111 | an entry is decimal digits denoting `n` with no leading zero, then ". ", then the title |
| TitleStep.NumberedLines | src/blog_agent/agents/title_agent.py:111 | one entry per title; entry i is title i after its number i + 1 and ". " |
| TitleStep.FormatTitles | src/blog_agent/agents/title_agent.py:111 | the selection list is the numbered entries joined by line feeds; what it splits back into and how it reads back are the two lemmas below |
| TitleStep.FormatTitlesLines | src/blog_agent/agents/title_agent.py:111 | the selection list splits into the numbered entries from 1, in list order |
| TitleStep.NumberedLineTitle | src/blog_agent/agents/title_agent.py:98-111 | each entry of the selection list parses back to its title |
| TitleStep.FormatTitlesStripped | src/blog_agent/agents/title_agent.py:111 | the selection list has no surrounding whitespace |
| TitleStep.FormatThenParse | src/blog_agent/agents/title_agent.py:91-111 | parsing the formatted list gives back exactly the listed titles |
| TitleStep.TitleStepResult | src/blog_agent/agents/title_agent.py:85-138 | fails exactly when a call raises, with the first raising call's message; otherwise the patch has exactly the keys `brainstormed_titles` and `selected_title`, the titles are the candidates, and the selection is one of them |
| TitleStep.TitleAgent | src/blog_agent/agents/title_agent.py:91-138 | the loop over the reply's lines, the fallback and the selection check compute `TitleStepResult` |
| Router.ShouldTranslate | src/blog_agent/graph/router.py:74-80 | the label is "translate" or "end", the two keys of the branch map |
| Router.ShouldTranslateIff | src/blog_agent/graph/router.py:74-80 | "translate" exactly when `target_language` is present and has a non-whitespace character; "end" exactly otherwise |
| Router.ShouldTranslateReadsOnlyLanguage | src/blog_agent/graph/router.py:74 | two states with the same `target_language` get the same label |
| Router.SpanishTranslates | tests/test_workflow.py:25-34 | "Spanish" routes to "translate" |
| Router.AbsentLanguageEnds | tests/test_workflow.py:36-56 | None, "" and "   " route to "end" |
| ContentStep.ContentTranscriptSection | src/blog_agent/agents/content_agent.py:64-71 | the transcript section, when chosen, embeds the first min(len, 5000) characters of the transcript |
| ContentStep.TranscriptUsedIff | src/blog_agent/agents/content_agent.py:64 | the transcript section is chosen exactly when the transcript is present and has a non-whitespace character |
| ContentStep.ContentStepResult | src/blog_agent/agents/content_agent.py:84-107 | fails exactly when the call raises; otherwise the patch has exactly the keys `blog_content`, `word_count` and `final_content`, the blog text is the stripped reply, and the final content equals it |
| ContentStep.ContentWordCount | src/blog_agent/agents/content_agent.py:96 | the word count is the number of maximal non-whitespace runs in the blog text, and it is 0 exactly when the blog text is empty |
| ContentStep.NonBlankReplyHasWords | tests/test_agents.py:72-108 | a reply with any non-whitespace character gives non-empty content and a positive word count |
| TranslationStep.TranslationStepResult | src/blog_agent/agents/translation_agent.py:56-89 | with no language or "", the patch is `translated_content = None, final_content = blog_content` and the call cannot fail; otherwise it fails exactly when the call raises, and both keys take the stripped reply |
| TranslationStep.GuardIgnoresReply | src/blog_agent/agents/translation_agent.py:59-64 | behind the guard, the reply is never looked at |
| TranslationStep.FinalIsTranslationOrBlog | src/blog_agent/agents/translation_agent.py:80-89 | after the step, the final content is the translation when there is one and the blog text otherwise; `blog_content` and `word_count` are untouched |
| TranslationStep.BlankLanguagePassesGuard | src/blog_agent/agents/translation_agent.py:60 | a language of three blanks passes the guard, so the model is called |
| Workflow.NextNode | src/blog_agent/graph/workflow.py:115-141 | every edge leads to a node of lower rank, so a run ends |
| Workflow.NextNodeFollowsGraph | src/blog_agent/graph/workflow.py:115-141 | the successor is the one the topology names: the router's label looked up in the branch map after the content node, the fixed edge elsewhere; every label is a key of the branch map |
| Workflow.CreateWorkflow | src/blog_agent/graph/workflow.py:115-141 | END has no outgoing edge, the branch map's keys are exactly "translate" and "end", and every edge, fixed or branching, lowers the rank, so the graph has no cycle |
| Workflow.Run | src/blog_agent/graph/workflow.py:209-211 | `invoke` from START: no contract of its own; `Invoke` computes it, and the `Run...` lemmas below state what it gives |
| Workflow.Invoke | src/blog_agent/graph/workflow.py:211 | walking the graph and overwriting one state record with each patch gives `Run`, and the nodes entered are `Trace` |
| Workflow.RunFromStart | src/blog_agent/graph/workflow.py:115 | the run leaves START for the title node without changing the state |
| Workflow.RunFromTitle | src/blog_agent/graph/workflow.py:119 | after the title node, the run fails with the step's error or goes on to the content node on the merged state |
| Workflow.RunFromContent | src/blog_agent/graph/workflow.py:130-137 | after the content node, the router on the merged state picks translation or END |
| Workflow.RunFromTranslation | src/blog_agent/graph/workflow.py:141 | after the translation node, the run ends with the merged state |
| Workflow.RunIsPipeline | src/blog_agent/graph/workflow.py:115-141 | walking the graph is the straight sequence: title, content, router on the post-content state, and translation only on "translate" |
| Workflow.BranchFixedByInput | src/blog_agent/graph/workflow.py:130-137 | the router's label after the content step is the one the input state already gives |
| Workflow.RunFailure | src/blog_agent/graph/workflow.py:115-141 | a run fails exactly when a model call it makes raises, and then with the message of the first such call |
| Workflow.ChainFields | src/blog_agent/graph/workflow.py:115-141 | what each field holds after the title, content and optional translation patches are merged in turn |
| Workflow.RunStages | src/blog_agent/graph/workflow.py:115-141 | a successful run is the chain of the three steps' patches, with a translation patch exactly on "translate" |
| Workflow.RunKeepsInputs | src/blog_agent/graph/workflow.py:211 | `topic`, `transcript`, `target_language` and `style` come out of a run unchanged |
| Workflow.RunTitles | src/blog_agent/graph/workflow.py:115-119 | at the end the titles are the candidates, never empty, and the selected title is one of them and is the checked pick |
| Workflow.RunContent | src/blog_agent/graph/workflow.py:119-141 | at the end the blog text is the stripped writing reply, and the word count counts its words and is 0 exactly when it is empty |
| Workflow.RunEndBranch | src/blog_agent/graph/workflow.py:130-137 | on "end", `translated_content` keeps its input value and `final_content` is the blog text |
| Workflow.RunTranslateBranch | src/blog_agent/graph/workflow.py:134-141 | on "translate", `final_content` and `translated_content` are the stripped translation, and `blog_content` is still the content step's text |
| Workflow.RunTitlePrompts | src/blog_agent/agents/title_agent.py:69-117 | in a successful run the title node runs on the input state; the brainstorming call is asked about the request's topic, the transcript section built from its transcript, and its style; the selection call is shown the run's final titles numbered from 1, with the same topic and style |
| Workflow.RunContentPrompt | src/blog_agent/agents/content_agent.py:77-82 | in a successful run the writing call is asked about the title the run ends up selecting, the request's topic and style, and the section chosen from the request's transcript |
| Workflow.RunTranslationPrompt | src/blog_agent/agents/translation_agent.py:59-73 | on "translate" the translation guard lets the call through, and the call is asked for the request's language and the stripped writing reply |
| Workflow.TraceFromFalls | src/blog_agent/graph/workflow.py:115-141 | a walk starts at its node and enters nodes of strictly falling rank |
| Workflow.TraceFromEnds | src/blog_agent/graph/workflow.py:141 | a successful walk ends at END |
| Workflow.RanksFallCons | src/blog_agent/graph/workflow.py:115-141 | putting a node of higher rank in front keeps the ranks falling |
| Workflow.TraceVisitsOnce | src/blog_agent/graph/workflow.py:115-141 | a run starts at START, enters no node twice, and ends at END when it succeeds |
| Workflow.TraceToRouter | src/blog_agent/graph/workflow.py:115-137 | a successful run enters START, the title node and the content node, then goes where the router sends it |
| Workflow.TraceEndBranch | src/blog_agent/graph/workflow.py:130-137 | on "end", a successful run enters exactly START, title, content and END |
| Workflow.TraceTranslateBranch | src/blog_agent/graph/workflow.py:130-141 | on "translate", a successful run enters exactly START, title, content, translation and END |
| Workflow.RunFromInitial | src/blog_agent/graph/workflow.py:194-211 | from the initial state, the final content is the translation when there is one and the blog text otherwise, and there is a translation exactly when the router says "translate" |
| Workflow.RunWorkflow | src/blog_agent/graph/workflow.py:194-211 | `run_workflow` runs the graph on the four inputs and empty outputs |
| Workflow.InitialState | src/blog_agent/graph/workflow.py:194-207 | the four inputs and empty outputs: no contract of its own; `RunFromInitial` states what a run from it gives |
| ApiModels.TopicErrors | src/blog_agent/models/api_models.py:51-57 | `topic` is accepted exactly when it is a string of 3 to 500 characters |
| ApiModels.TranscriptErrors | src/blog_agent/models/api_models.py:59-63 | `transcript` is refused only when it is a string of more than 50000 characters |
| ApiModels.StyleErrors | src/blog_agent/models/api_models.py:70-73 | `style` is refused only when it is `null` |
| ApiModels.OptionalString | src/blog_agent/models/api_models.py:59-68 | an optional field left out or `null` reads as None, and a string reads as itself |
| ApiModels.ParseRequest | src/blog_agent/models/api_models.py:51-73 | a body is accepted exactly when the topic is a string of 3 to 500 characters, any transcript is at most 50000 characters, and the style is not `null`; the request keeps the fields given, and style defaults to "professional"; a refusal lists one to three errors |
| ApiModels.ParseToRaw | src/blog_agent/models/api_models.py:51-73 | a request spelled out as a body is accepted exactly when it satisfies the constraints, and then validation gives it back unchanged |
| ApiModels.TargetLanguageUnconstrained | src/blog_agent/models/api_models.py:65-68 | whatever `target_language` holds, it never changes whether a body is accepted |
| ApiModels.EmptyBodyRefused | tests/test_api.py:68-73 | `{}` is refused with one error, the missing topic |
| ApiModels.ShortTopicRefused | tests/test_api.py:75-81 | topic "Hi" is refused as shorter than 3 |
| ApiModels.TopicOnlyDefaults | src/blog_agent/models/api_models.py:59-73 | a body with only a valid topic has no transcript, no language and the "professional" style |
| ApiModels.NewResponse | src/blog_agent/models/api_models.py:110-123 | a response built without `was_translated`, `target_language` or `brainstormed_titles` has false, None and [] |
| Routes.Status | src/blog_agent/api/routes.py:45-52 | the endpoint answers 200, 422 or 500 |
| Routes.RequestState | src/blog_agent/api/routes.py:84-97 | the state built from a request is the one `run_workflow` builds from the same four fields |
| Routes.WasTranslated | src/blog_agent/api/routes.py:112 | `bool(translated_content)` holds exactly for a present, non-empty translation |
| Routes.ToResponse | src/blog_agent/api/routes.py:107-115 | title is `selected_title`, content is `final_content`, word count and titles pass through, `was_translated` is a present non-empty translation, and the language is echoed from the request |
| Routes.Respond | src/blog_agent/api/routes.py:106-127 | a successful run answers 200 with `ToResponse` of its final state; a failed one answers 500 with "generation_failed" and "Failed to generate blog: " plus the error; never 422 |
| Routes.Post | src/blog_agent/api/routes.py:53-56 | an invalid body is answered 422 with its errors and nothing runs; a valid one is answered by `generate_blog` on the validated request, never 422 |
| Routes.GenerateBlog | src/blog_agent/api/routes.py:84-127 | never 422; 200 exactly when the run from the request's state succeeds, with the response built from its final state |
| Routes.PostStatus | src/blog_agent/api/routes.py:79-127 | 422 exactly for invalid bodies; for valid ones, 500 exactly when a model call the run makes raises |
| Routes.EmptyBodyIsUnprocessable | tests/test_api.py:68-73 | a POST of `{}` is answered 422 |
| Routes.ShortTopicIsUnprocessable | tests/test_api.py:75-81 | a POST with topic "Hi" is answered 422 |
| Routes.GenerateBlogFailure | src/blog_agent/api/routes.py:117-127 | a failed run answers 500 with the message of the first model call that raised |
| Routes.GenerateBlogTitles | src/blog_agent/api/routes.py:107-115 | a successful answer's titles are the candidates, never empty, its title is one of them, and its language is the request's |
| Routes.GenerateBlogListedTitles | tests/test_agents.py:33-66 | when the title reply numbers listable titles from 1 and the pick names one exactly, the answer carries exactly those titles and that pick |
| Routes.GenerateBlogUntranslated | src/blog_agent/api/routes.py:107-115 | without a usable language, the content is the stripped writing reply, the word count counts its words, and no translation is reported |
| Routes.GenerateBlogTranslated | src/blog_agent/api/routes.py:107-115 | with a usable language, the content is the stripped translation, and a translation is reported exactly when that text is non-empty |
| Routes.MockedResultResponse | tests/test_api.py:83-117 | for the mocked final state, the answer is 200 with title "Title 1", word count 5 and no translation |
| Routes.TopicOnlyRunsDefaults | src/blog_agent/graph/workflow.py:154-158 | `run_workflow`'s defaults (no transcript, no language, "professional") give the same initial state as a POST of only that topic |

## Left out

- The model client and its settings (`get_llm`, temperatures, environment
  loading) are out. Each call's reply or raised error is an input.
  `translation_agent` creates its client before the language guard, so a
  failure to create the client is not modelled on the no-language path.
- Prompt template text is out. The model records only what each call is
  asked about: the transcript sections, the selection list, and the fields
  passed to each template. It does not model the `.format` output.
- Timing and rounding are out: `generation_time` in the state and
  `generation_time_seconds` in the response, which are wall-clock floats.
- The FastAPI application, CORS, the root and health endpoints, the
  dependency that caches the compiled graph, and the error `print` are out.
- The 422 answer is the web framework's default for a refused body. It is
  modelled as the list of field errors, without the framework's JSON layout.
- Request fields that are JSON values other than strings (numbers, objects)
  are not modelled. A field is left out, `null`, or a string.
- `HealthResponse` and the unused `details` field of `ErrorResponse` are out.
- Workflow.RunWorkflow: takes all four arguments, because Dafny has no
  default arguments. The Python defaults (no transcript, no language,
  "professional") are the ones `Routes.TopicOnlyRunsDefaults` relates to a
  topic-only request.
- The Streamlit interface is out.
- LangGraph's builder, `compile` and `invoke` internals are out. The topology
  is fixed data. A run is the order the edges fix, with each patch merged by
  shallow overwrite.
- src/blog_agent/models/state.py is not part of this model. The state fields
  are the ones the initial dictionaries of `run_workflow` and `generate_blog`
  set, less `generation_time`. Every key is always present, so the steps'
  `state.get(..., default)` fallbacks never apply.
- Python's Unicode whitespace and digit classes are out. Whitespace is the
  ASCII set above and digits are '0' to '9'.
- A step fails only when a model call raises. Other Python exceptions inside a
  step, such as a reply whose `content` is not a string, are not modelled.
- The tests that replace whole agents with mocks (tests/test_workflow.py:70-99)
  are not modelled as mocks. `Workflow.ChainFields` states what any title
  and content patches, with no translation patch, leave in each field.
