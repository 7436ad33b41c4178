/**
 * The content step: chooses the transcript section of the writing prompt, and
 * turns the model's reply into the blog text, its word count and the provisional
 * final content.
 */
module ContentStep {
  import opened Wrappers
  import opened PyStr
  import opened State

  const ExcerptLimit := 5000

  /** Which transcript section the writing prompt carries. */
  datatype ContentSection = WithTranscript(excerpt: string) | NoTranscript

  /** The transcript is used when it is present and, stripped, non-empty; then
      only its first 5000 characters go into the prompt. */
  function ContentTranscriptSection(transcript: Option<string>): (r: ContentSection)
    ensures r.WithTranscript? ==> transcript.Some?
    ensures r.WithTranscript? ==>
      |r.excerpt| == Min(|transcript.value|, ExcerptLimit) && r.excerpt == transcript.value[..|r.excerpt|]
  {
    if transcript.Some? && transcript.value != [] && Strip(transcript.value) != [] then
      WithTranscript(Prefix(transcript.value, ExcerptLimit))
    else
      NoTranscript
  }

  /** The transcript section is chosen exactly when the transcript has a
      non-whitespace character. */
  lemma TranscriptUsedIff(transcript: Option<string>)
    ensures ContentTranscriptSection(transcript).WithTranscript? <==>
      transcript.Some? && !AllSpace(transcript.value)
  {
    if transcript.Some? {
      StripEmpty(transcript.value);
    }
  }

  /** What the writing call is asked about: title, topic, style and transcript section. */
  datatype ContentPrompt = ContentPrompt(title: string, topic: string, style: string, section: ContentSection)

  /** The writing call's prompt fields for a state. */
  function ContentPromptOf(state: BlogState): ContentPrompt
  {
    ContentPrompt(state.selectedTitle, state.topic, state.style, ContentTranscriptSection(state.transcript))
  }

  /**
   * `content_agent` given the writing call's outcome: the blog text is the
   * stripped reply, the word count is the number of whitespace-separated
   * tokens, and the final content is provisionally the blog text.
   */
  function ContentStepResult(state: BlogState, reply: LlmReply): (r: Result<Patch, string>)
    ensures r.Failure? <==> reply.Raised?
    ensures r.Failure? ==> r.error == reply.message
    ensures r.Success? ==> r.value.ContentUpdate? && Keys(r.value) == {BlogContent, WordCount, FinalContent}
    ensures r.Success? ==>
      && r.value.blogContent == Strip(reply.content)
      && r.value.finalContent == r.value.blogContent
  {
    match reply
    case Raised(message) => Failure(message)
    case Text(content) =>
      var blog := Strip(content);
      Success(ContentUpdate(blog, |Words(blog)|, blog))
  }

  /** The word count is the number of maximal non-whitespace runs of the blog
      text, and it is zero exactly when the blog text is empty. */
  lemma ContentWordCount(state: BlogState, reply: LlmReply)
    requires reply.Text?
    ensures var p := ContentStepResult(state, reply).value;
      && p.wordCount == RunStarts(p.blogContent, 0)
      && (p.wordCount == 0 <==> p.blogContent == [])
  {
    var blog := Strip(reply.content);
    WordsCountRuns(blog);
  }

  /** A reply with any non-whitespace character gives non-empty content and a
      positive word count. */
  lemma NonBlankReplyHasWords(state: BlogState, reply: LlmReply)
    requires reply.Text? && !AllSpace(reply.content)
    ensures var p := ContentStepResult(state, reply).value;
      p.blogContent != [] && p.wordCount > 0
  {
    StripEmpty(reply.content);
    ContentWordCount(state, reply);
  }
}
