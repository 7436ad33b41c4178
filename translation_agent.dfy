/**
 * The translation step: translates the blog text when a target language is
 * set, and otherwise hands the blog text on unchanged.
 */
module TranslationStep {
  import opened Wrappers
  import opened PyStr
  import opened State

  /** The guard: the model is asked only when the target language is present and
      non-empty. Whitespace counts as a language here. */
  predicate CallsModel(state: BlogState) {
    state.targetLanguage.Some? && state.targetLanguage.value != []
  }

  /** What the translation call is asked: the language and the text. */
  datatype TranslationPrompt = TranslationPrompt(targetLanguage: string, content: string)

  /** The translation call's prompt fields for a state the guard lets through. */
  function TranslationPromptOf(state: BlogState): TranslationPrompt
    requires CallsModel(state)
  {
    TranslationPrompt(state.targetLanguage.value, state.blogContent)
  }

  /**
   * `translation_agent` given the translation call's outcome. Without a
   * language the patch clears the translation and keeps the blog text as the
   * final content; otherwise both fields take the stripped reply.
   */
  function TranslationStepResult(state: BlogState, reply: LlmReply): (r: Result<Patch, string>)
    ensures r.Failure? <==> CallsModel(state) && reply.Raised?
    ensures r.Failure? ==> r.error == reply.message
    ensures r.Success? ==> r.value.TranslationUpdate? && Keys(r.value) == {TranslatedContent, FinalContent}
    ensures r.Success? && !CallsModel(state) ==>
      r.value.translatedContent == None && r.value.finalContent == state.blogContent
    ensures r.Success? && CallsModel(state) ==>
      && r.value.translatedContent == Some(Strip(reply.content))
      && r.value.finalContent == Strip(reply.content)
  {
    if !CallsModel(state) then
      Success(TranslationUpdate(None, state.blogContent))
    else
      match reply
      case Raised(message) => Failure(message)
      case Text(content) =>
        var translated := Strip(content);
        Success(TranslationUpdate(Some(translated), translated))
  }

  /** Without a language the reply is never looked at. */
  lemma GuardIgnoresReply(state: BlogState, a: LlmReply, b: LlmReply)
    requires !CallsModel(state)
    ensures TranslationStepResult(state, a) == TranslationStepResult(state, b)
  {
  }

  /** After a successful step the final content is the translation whenever
      there is one, and the blog text otherwise; the blog text itself is never
      a key of the patch. */
  lemma FinalIsTranslationOrBlog(state: BlogState, reply: LlmReply)
    requires TranslationStepResult(state, reply).Success?
    ensures var s := Merge(state, TranslationStepResult(state, reply).value);
      && s.finalContent == (if s.translatedContent.Some? then s.translatedContent.value else s.blogContent)
      && s.blogContent == state.blogContent
      && s.wordCount == state.wordCount
  {
  }

  /** A language made only of blanks passes the guard, so the model is called. */
  lemma BlankLanguagePassesGuard(state: BlogState)
    requires state.targetLanguage == Some("   ")
    ensures CallsModel(state)
  {
  }
}
