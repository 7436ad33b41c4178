/**
 * The workflow state (BlogState) threaded through the pipeline, the partial
 * updates ("patches") each step returns, and the shallow-overwrite merge the
 * graph runtime applies to them.
 */
module State {
  import opened Wrappers

  /** The outcome of one call to the language model: its reply text, or the
      message of the exception the call raised. */
  datatype LlmReply = Text(content: string) | Raised(message: string)

  /** What the language model answers to each call a run can make, in call order. */
  datatype Replies = Replies(
    titleGeneration: LlmReply,
    titleSelection: LlmReply,
    content: LlmReply,
    translation: LlmReply)

  /** The state record: four caller-supplied inputs and six step outputs. */
  datatype BlogState = BlogState(
    topic: string,
    transcript: Option<string>,
    targetLanguage: Option<string>,
    style: string,
    brainstormedTitles: seq<string>,
    selectedTitle: string,
    blogContent: string,
    translatedContent: Option<string>,
    finalContent: string,
    wordCount: nat)

  /** The keys of the state dictionary. */
  datatype Field =
    | Topic | Transcript | TargetLanguage | Style
    | BrainstormedTitles | SelectedTitle | BlogContent
    | TranslatedContent | FinalContent | WordCount

  /** A value stored under one key. */
  datatype Value = Str(s: string) | OptStr(o: Option<string>) | Strs(ss: seq<string>) | Count(n: nat)

  const InputFields: set<Field> := {Topic, Transcript, TargetLanguage, Style}

  /** `state[f]`. */
  function Get(s: BlogState, f: Field): Value
  {
    match f
    case Topic => Str(s.topic)
    case Transcript => OptStr(s.transcript)
    case TargetLanguage => OptStr(s.targetLanguage)
    case Style => Str(s.style)
    case BrainstormedTitles => Strs(s.brainstormedTitles)
    case SelectedTitle => Str(s.selectedTitle)
    case BlogContent => Str(s.blogContent)
    case TranslatedContent => OptStr(s.translatedContent)
    case FinalContent => Str(s.finalContent)
    case WordCount => Count(s.wordCount)
  }

  /** A step's return dictionary. Each step returns one fixed set of output
      keys, so a patch is one of four shapes; none of them names an input. */
  datatype Patch =
    | NoUpdate
    | TitleUpdate(brainstormedTitles: seq<string>, selectedTitle: string)
    | ContentUpdate(blogContent: string, wordCount: nat, finalContent: string)
    | TranslationUpdate(translatedContent: Option<string>, finalContent: string)

  /** `patch.get(f)`. */
  function PatchValue(p: Patch, f: Field): Option<Value>
  {
    match (p, f)
    case (TitleUpdate(titles, _), BrainstormedTitles) => Some(Strs(titles))
    case (TitleUpdate(_, selected), SelectedTitle) => Some(Str(selected))
    case (ContentUpdate(blog, _, _), BlogContent) => Some(Str(blog))
    case (ContentUpdate(_, count, _), WordCount) => Some(Count(count))
    case (ContentUpdate(_, _, final), FinalContent) => Some(Str(final))
    case (TranslationUpdate(translated, _), TranslatedContent) => Some(OptStr(translated))
    case (TranslationUpdate(_, final), FinalContent) => Some(Str(final))
    case _ => None
  }

  /** The keys a patch names. */
  function Keys(p: Patch): (ks: set<Field>)
    ensures ks !! InputFields
  {
    match p
    case NoUpdate => {}
    case TitleUpdate(_, _) => {BrainstormedTitles, SelectedTitle}
    case ContentUpdate(_, _, _) => {BlogContent, WordCount, FinalContent}
    case TranslationUpdate(_, _) => {TranslatedContent, FinalContent}
  }

  /** A key is in the patch exactly when the patch holds a value for it. */
  lemma KeysHaveValues(p: Patch, f: Field)
    ensures f in Keys(p) <==> PatchValue(p, f).Some?
  {
  }

  /** Shallow overwrite: every key the patch names takes the patch's value.
      No patch names an input field, so a merge never changes one. */
  function Merge(s: BlogState, p: Patch): (r: BlogState)
    ensures r.topic == s.topic && r.transcript == s.transcript
    ensures r.targetLanguage == s.targetLanguage && r.style == s.style
  {
    match p
    case NoUpdate => s
    case TitleUpdate(titles, selected) => s.(brainstormedTitles := titles, selectedTitle := selected)
    case ContentUpdate(blog, count, final) => s.(blogContent := blog, wordCount := count, finalContent := final)
    case TranslationUpdate(translated, final) => s.(translatedContent := translated, finalContent := final)
  }

  /** After a merge, a key holds the patch's value if the patch names it, and
      its old value otherwise. */
  lemma MergeGet(s: BlogState, p: Patch, f: Field)
    ensures f in Keys(p) ==> PatchValue(p, f) == Some(Get(Merge(s, p), f))
    ensures f !in Keys(p) ==> Get(Merge(s, p), f) == Get(s, f)
  {
  }

}
