/**
 * The branch decision taken after the content step: translate, or finish.
 */
module Router {
  import opened Wrappers
  import opened PyStr
  import opened State

  const Translate := "translate"
  const End := "end"

  /** `should_translate`: "translate" when a target language is set and is not
      all whitespace (Python truthiness of the value and of its strip), "end"
      otherwise. */
  function ShouldTranslate(state: BlogState): (branch: string)
    ensures branch == Translate || branch == End
  {
    var lang := state.targetLanguage;
    if lang.Some? && lang.value != [] && Strip(lang.value) != [] then Translate else End
  }

  /** The branch is "translate" exactly when the language has a non-whitespace character. */
  lemma ShouldTranslateIff(state: BlogState)
    ensures ShouldTranslate(state) == Translate <==>
      state.targetLanguage.Some? && !AllSpace(state.targetLanguage.value)
    ensures ShouldTranslate(state) == End <==>
      state.targetLanguage.None? || AllSpace(state.targetLanguage.value)
  {
    if state.targetLanguage.Some? {
      StripEmpty(state.targetLanguage.value);
    }
  }

  /** Only `target_language` decides the branch. */
  lemma ShouldTranslateReadsOnlyLanguage(s: BlogState, t: BlogState)
    requires s.targetLanguage == t.targetLanguage
    ensures ShouldTranslate(s) == ShouldTranslate(t)
  {
  }

  /** A named language routes to translation. */
  lemma SpanishTranslates(state: BlogState)
    requires state.targetLanguage == Some("Spanish")
    ensures ShouldTranslate(state) == Translate
  {
    ShouldTranslateIff(state);
    assert !IsSpace("Spanish"[0]);
  }

  /** No language, an empty one, or one made only of blanks routes to the end. */
  lemma AbsentLanguageEnds(state: BlogState)
    requires state.targetLanguage in {None, Some(""), Some("   ")}
    ensures ShouldTranslate(state) == End
  {
    ShouldTranslateIff(state);
  }
}
