/**
 * The request and response bodies of the generation endpoint: the field
 * constraints and defaults of `BlogGenerationRequest`, checked the way the
 * validation layer checks a JSON body, and the defaults of
 * `BlogGenerationResponse`.
 */
module ApiModels {
  import opened Wrappers

  /** One field of a JSON body as sent: left out, `null`, or a string. */
  datatype JsonField = Absent | Null | JsonString(s: string)

  /** A request body before validation. */
  datatype RawRequest = RawRequest(
    topic: JsonField,
    transcript: JsonField,
    targetLanguage: JsonField,
    style: JsonField)

  /** A validated `BlogGenerationRequest`. */
  datatype Request = Request(
    topic: string,
    transcript: Option<string>,
    targetLanguage: Option<string>,
    style: string)

  /** Why one field was refused. */
  datatype FieldError =
    | Missing(field: string)
    | NotAString(field: string)
    | TooShort(field: string, minLength: nat)
    | TooLong(field: string, maxLength: nat)

  const TopicMinLength: nat := 3
  const TopicMaxLength: nat := 500
  const TranscriptMaxLength: nat := 50000
  const DefaultStyle: string := "professional"

  /** The constraints a validated request satisfies. */
  predicate ValidRequest(r: Request)
  {
    && TopicMinLength <= |r.topic| <= TopicMaxLength
    && (r.transcript.Some? ==> |r.transcript.value| <= TranscriptMaxLength)
  }

  /** `topic`: required, a string of 3 to 500 characters. */
  function TopicErrors(f: JsonField): (errs: seq<FieldError>)
    ensures errs == [] <==> f.JsonString? && TopicMinLength <= |f.s| <= TopicMaxLength
    ensures |errs| <= 1
  {
    match f
    case Absent => [Missing("topic")]
    case Null => [NotAString("topic")]
    case JsonString(t) =>
      if |t| < TopicMinLength then [TooShort("topic", TopicMinLength)]
      else if |t| > TopicMaxLength then [TooLong("topic", TopicMaxLength)]
      else []
  }

  /** `transcript`: optional (absent or `null` is None), at most 50000 characters. */
  function TranscriptErrors(f: JsonField): (errs: seq<FieldError>)
    ensures errs == [] <==> !f.JsonString? || |f.s| <= TranscriptMaxLength
    ensures |errs| <= 1
  {
    match f
    case JsonString(t) => if |t| > TranscriptMaxLength then [TooLong("transcript", TranscriptMaxLength)] else []
    case _ => []
  }

  /** `style`: a string, "professional" when left out; `null` is not a string. */
  function StyleErrors(f: JsonField): (errs: seq<FieldError>)
    ensures errs == [] <==> !f.Null?
    ensures |errs| <= 1
  {
    if f.Null? then [NotAString("style")] else []
  }

  /** An optional string field: absent and `null` both read as None. */
  function OptionalString(f: JsonField): (o: Option<string>)
    ensures o.Some? <==> f.JsonString?
    ensures o.Some? ==> o.value == f.s
  {
    if f.JsonString? then Some(f.s) else None
  }

  /** Validate a body: every field is checked and all refusals are reported
      together, in field order; a body with none is the request it spells. */
  function ParseRequest(raw: RawRequest): (r: Result<Request, seq<FieldError>>)
    ensures r.Success? <==>
      && raw.topic.JsonString? && TopicMinLength <= |raw.topic.s| <= TopicMaxLength
      && (raw.transcript.JsonString? ==> |raw.transcript.s| <= TranscriptMaxLength)
      && !raw.style.Null?
    ensures r.Success? ==>
      && ValidRequest(r.value)
      && r.value.topic == raw.topic.s
      && r.value.transcript == OptionalString(raw.transcript)
      && r.value.targetLanguage == OptionalString(raw.targetLanguage)
      && r.value.style == (if raw.style.JsonString? then raw.style.s else DefaultStyle)
    ensures r.Failure? ==> 1 <= |r.error| <= 3
  {
    var errs := TopicErrors(raw.topic) + TranscriptErrors(raw.transcript) + StyleErrors(raw.style);
    if errs != [] then
      Failure(errs)
    else
      Success(Request(
        raw.topic.s,
        OptionalString(raw.transcript),
        OptionalString(raw.targetLanguage),
        if raw.style.JsonString? then raw.style.s else DefaultStyle))
  }

  /** The body a client sends for a request, with every field spelled out. */
  function ToRaw(r: Request): RawRequest
  {
    RawRequest(
      JsonString(r.topic),
      if r.transcript.Some? then JsonString(r.transcript.value) else Null,
      if r.targetLanguage.Some? then JsonString(r.targetLanguage.value) else Null,
      JsonString(r.style))
  }

  /** Every valid request survives validation unchanged, and only valid ones do. */
  lemma ParseToRaw(r: Request)
    ensures ParseRequest(ToRaw(r)).Success? <==> ValidRequest(r)
    ensures ValidRequest(r) ==> ParseRequest(ToRaw(r)) == Success(r)
  {
  }

  /** The `target_language` field is never refused, whatever it holds. */
  lemma TargetLanguageUnconstrained(raw: RawRequest, language: JsonField)
    ensures ParseRequest(raw.(targetLanguage := language)).Success? == ParseRequest(raw).Success?
  {
  }

  /** An empty body is refused because the topic is missing. */
  lemma EmptyBodyRefused()
    ensures ParseRequest(RawRequest(Absent, Absent, Absent, Absent)) == Failure([Missing("topic")])
  {
    assert [Missing("topic")] + [] + [] == [Missing("topic")];
  }

  /** A two-character topic is refused as too short. */
  lemma ShortTopicRefused()
    ensures ParseRequest(RawRequest(JsonString("Hi"), Absent, Absent, Absent)) == Failure([TooShort("topic", 3)])
  {
    assert |"Hi"| < TopicMinLength;
    assert [TooShort("topic", 3)] + [] + [] == [TooShort("topic", 3)];
  }

  /** A body with only a topic takes no transcript, no language and the
      professional style. */
  lemma TopicOnlyDefaults(topic: string)
    requires 3 <= |topic| <= 500
    ensures ParseRequest(RawRequest(JsonString(topic), Absent, Absent, Absent))
      == Success(Request(topic, None, None, "professional"))
  {
  }

  /** A `BlogGenerationResponse` (the generation time is not modelled). */
  datatype BlogResponse = BlogResponse(
    title: string,
    content: string,
    wordCount: int,
    wasTranslated: bool,
    targetLanguage: Option<string>,
    brainstormedTitles: seq<string>)

  /** Build a response; an argument left out (None) takes its declared default:
      not translated, no language, no titles. */
  function NewResponse(
    title: string, content: string, wordCount: int,
    wasTranslated: Option<bool>, targetLanguage: Option<Option<string>>, brainstormedTitles: Option<seq<string>>): (r: BlogResponse)
    ensures r.title == title && r.content == content && r.wordCount == wordCount
    ensures r.wasTranslated == (wasTranslated.Some? && wasTranslated.value)
    ensures r.targetLanguage == (if targetLanguage.Some? then targetLanguage.value else None)
    ensures r.brainstormedTitles == (if brainstormedTitles.Some? then brainstormedTitles.value else [])
  {
    BlogResponse(
      title, content, wordCount,
      if wasTranslated.Some? then wasTranslated.value else false,
      if targetLanguage.Some? then targetLanguage.value else None,
      if brainstormedTitles.Some? then brainstormedTitles.value else [])
  }
}
