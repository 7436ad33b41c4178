/**
 * The title step: builds the transcript section of the brainstorming prompt,
 * parses the model's numbered list of titles, falls back to a synthesised title
 * when nothing parses, and validates the model's pick against the list.
 */
module TitleStep {
  import opened Wrappers
  import opened PyStr
  import opened State

  const SourceHeader := "SOURCE TRANSCRIPT:\n"
  const NoTranscriptSection := "No transcript provided - generate titles based on topic alone."
  const TranscriptLimit := 2000
  const FallbackPrefix := "Complete Guide to "

  /**
   * The transcript section of the brainstorming prompt. A transcript that is
   * present and non-empty (whitespace allowed) is embedded as its first 2000
   * characters between the header and "..."; otherwise the fixed sentence is used.
   */
  function TranscriptSection(transcript: Option<string>): (r: string)
    ensures !(transcript.Some? && transcript.value != []) ==> r == NoTranscriptSection
    ensures transcript.Some? && transcript.value != [] ==>
      var t := transcript.value;
      var n := |r| - |SourceHeader| - 3;
      && n == Min(|t|, TranscriptLimit)
      && r == SourceHeader + t[..n] + "..."
  {
    if transcript.Some? && transcript.value != [] then
      SourceHeader + Prefix(transcript.value, TranscriptLimit) + "..."
    else
      NoTranscriptSection
  }

  /** A title as the parser keeps it: non-empty, with no surrounding whitespace. */
  predicate IsTitle(t: string) {
    t != [] && IsStripped(t)
  }

  /**
   * The title one reply line contributes, if any: the line is stripped; only a
   * non-empty line whose first character is a digit is considered; its title is
   * the text after the first ".", then after the first ")" of that, stripped; an
   * empty title is dropped. So a line contributes only if, stripped, it is
   * non-empty and starts with a digit, and what it contributes is a non-empty
   * stripped title.
   */
  function TitleFromLine(line: string): (r: Option<string>)
    ensures r.Some? ==> Strip(line) != [] && IsDigit(Strip(line)[0]) && IsTitle(r.value)
  {
    var l := Strip(line);
    if l != [] && IsDigit(l[0]) then
      var t := Strip(AfterFirst(AfterFirst(l, '.'), ')'));
      if t != [] then Some(t) else None
    else
      None
  }

  /** The values present in a sequence of options, in order. */
  function Somes<T>(xs: seq<Option<T>>): (r: seq<T>)
    ensures |r| <= |xs|
  {
    if xs == [] then
      []
    else
      var init := Somes(xs[..|xs| - 1]);
      match xs[|xs| - 1]
      case Some(x) => init + [x]
      case None => init
  }

  lemma {:induction false} SomesAppend<T>(a: seq<Option<T>>, b: seq<Option<T>>)
    ensures Somes(a + b) == Somes(a) + Somes(b)
    decreases |b|
  {
    if b == [] {
      assert a + b == a;
    } else {
      var b' := b[..|b| - 1];
      assert (a + b)[..|a + b| - 1] == a + b';
      SomesAppend(a, b');
    }
  }

  lemma {:induction false} SomesMember<T>(xs: seq<Option<T>>, x: T)
    ensures x in Somes(xs) <==> Some(x) in xs
  {
    if xs != [] {
      var init := xs[..|xs| - 1];
      SomesMember(init, x);
      assert xs == init + [xs[|xs| - 1]];
    }
  }

  lemma SomesPrefixStep<T>(xs: seq<Option<T>>, i: nat)
    requires i < |xs|
    ensures Somes(xs[..i + 1]) == Somes(xs[..i]) + (if xs[i].Some? then [xs[i].value] else [])
  {
    assert xs[..i + 1][..i] == xs[..i];
  }

  lemma {:induction false} SomesAllPresent<T>(xs: seq<Option<T>>, ys: seq<T>)
    requires |xs| == |ys|
    requires forall i :: 0 <= i < |xs| ==> xs[i] == Some(ys[i])
    ensures Somes(xs) == ys
  {
    if xs != [] {
      SomesAllPresent(xs[..|xs| - 1], ys[..|ys| - 1]);
      assert ys == ys[..|ys| - 1] + [ys[|ys| - 1]];
    }
  }

  /** `f` applied to each element, in order. */
  function MapSeq<A, B>(f: A -> B, xs: seq<A>): (r: seq<B>)
    ensures |r| == |xs|
    ensures forall i :: 0 <= i < |xs| ==> r[i] == f(xs[i])
  {
    seq(|xs|, i requires 0 <= i < |xs| => f(xs[i]))
  }

  lemma MapSeqAppend<A, B>(f: A -> B, a: seq<A>, b: seq<A>)
    ensures MapSeq(f, a + b) == MapSeq(f, a) + MapSeq(f, b)
  {
  }

  /** The titles of a list of reply lines, in line order (the body of the parse loop, applied to every line). */
  function ParsedTitles(lines: seq<string>): (r: seq<string>)
    ensures |r| <= |lines|
  {
    Somes(MapSeq(TitleFromLine, lines))
  }

  /** Parsing keeps the order of the source lines: the titles of two blocks of
      lines are the titles of the first block followed by those of the second. */
  lemma ParsedTitlesAppend(a: seq<string>, b: seq<string>)
    ensures ParsedTitles(a + b) == ParsedTitles(a) + ParsedTitles(b)
  {
    MapSeqAppend(TitleFromLine, a, b);
    SomesAppend(MapSeq(TitleFromLine, a), MapSeq(TitleFromLine, b));
  }

  /** A string is a parsed title exactly when some line yields it. */
  lemma ParsedTitlesMember(lines: seq<string>, t: string)
    ensures t in ParsedTitles(lines) <==>
      exists j :: 0 <= j < |lines| && TitleFromLine(lines[j]) == Some(t)
  {
    var cs := MapSeq(TitleFromLine, lines);
    SomesMember(cs, t);
    if Some(t) in cs {
      var j :| 0 <= j < |cs| && cs[j] == Some(t);
      assert TitleFromLine(lines[j]) == Some(t);
    }
    if exists j :: 0 <= j < |lines| && TitleFromLine(lines[j]) == Some(t) {
      var j :| 0 <= j < |lines| && TitleFromLine(lines[j]) == Some(t);
      assert cs[j] == Some(t);
    }
  }

  /** Every parsed title is a title in the sense of IsTitle. */
  lemma ParsedTitlesAreTitles(lines: seq<string>)
    ensures forall t :: t in ParsedTitles(lines) ==> IsTitle(t)
  {
    forall t | t in ParsedTitles(lines) ensures IsTitle(t) {
      ParsedTitlesMember(lines, t);
      var j :| 0 <= j < |lines| && TitleFromLine(lines[j]) == Some(t);
    }
  }

  /** When every line yields a title, the parse gives exactly those titles. */
  lemma ParsedTitlesAllKept(lines: seq<string>, ts: seq<string>)
    requires |lines| == |ts|
    requires forall i :: 0 <= i < |lines| ==> TitleFromLine(lines[i]) == Some(ts[i])
    ensures ParsedTitles(lines) == ts
  {
    SomesAllPresent(MapSeq(TitleFromLine, lines), ts);
  }

  /** Decimal digits hold neither of the list punctuation marks. */
  lemma DigitsHaveNoPunctuation(number: string)
    requires AllDigits(number)
    ensures '.' !in number && ')' !in number
  {
  }

  /** A line "N. title" (N decimal digits) yields `title`, provided the title
      has no ")" of its own. */
  lemma DottedLineTitle(number: string, t: string)
    requires number != [] && AllDigits(number)
    requires IsTitle(t) && ')' !in t
    ensures TitleFromLine(number + ". " + t) == Some(t)
  {
    var line := number + ". " + t;
    var rest := " " + t;
    assert line == number + ['.'] + rest;
    assert line[0] == number[0] && line[|line| - 1] == t[|t| - 1];
    StripStripped(line);
    DigitsHaveNoPunctuation(number);
    AfterFirstSplit(number, '.', rest);
    assert IsDigit(line[0]);
    assert AfterFirst(line, '.') == rest;
    assert ')' !in rest;
    AfterFirstAbsent(rest, ')');
    StripLeading(" ", t);
  }

  /** A line "N) title" yields `title`, provided the title has neither "." nor ")". */
  lemma ParenLineTitle(number: string, t: string)
    requires number != [] && AllDigits(number)
    requires IsTitle(t) && '.' !in t && ')' !in t
    ensures TitleFromLine(number + ") " + t) == Some(t)
  {
    var line := number + ") " + t;
    var rest := " " + t;
    assert line == number + [')'] + rest;
    assert line[0] == number[0] && line[|line| - 1] == t[|t| - 1];
    StripStripped(line);
    DigitsHaveNoPunctuation(number);
    assert '.' !in line;
    AfterFirstSplit(number, ')', rest);
    StripLeading(" ", t);
  }

  /** As written, in a line "N. text) title" the first ")" cuts away all the
      text before it, so "3. Remote Work (2024) Guide" yields just "Guide". */
  lemma ParenthesisInDottedTitle(number: string, a: string, t: string)
    requires number != [] && AllDigits(number)
    requires ')' !in a && IsTitle(t)
    ensures TitleFromLine(number + ". " + a + ") " + t) == Some(t)
  {
    var line := number + ". " + a + ") " + t;
    var rest := " " + a + ") " + t;
    var tail := " " + t;
    assert line == number + ['.'] + rest;
    assert rest == " " + a + [')'] + tail;
    assert line[0] == number[0] && line[|line| - 1] == t[|t| - 1];
    StripStripped(line);
    DigitsHaveNoPunctuation(number);
    AfterFirstSplit(number, '.', rest);
    assert IsDigit(line[0]);
    assert AfterFirst(line, '.') == rest;
    assert ')' !in " " + a;
    AfterFirstSplit(" " + a, ')', tail);
    StripLeading(" ", t);
  }

  /** The parse of a whole reply: strip it, split it into lines, parse each line. */
  function ParseTitleList(reply: string): (r: seq<string>)
    ensures |r| <= |SplitLines(Strip(reply))|
  {
    ParsedTitles(SplitLines(Strip(reply)))
  }

  /** The brainstormed titles: the parsed list, or the synthesised fallback when nothing parses. */
  function CandidateTitles(topic: string, reply: string): (r: seq<string>)
    ensures |r| >= 1
    ensures ParseTitleList(reply) == [] ==> r == [FallbackPrefix + topic]
    ensures ParseTitleList(reply) != [] ==> r == ParseTitleList(reply)
  {
    var titles := ParseTitleList(reply);
    if titles == [] then [FallbackPrefix + topic] else titles
  }

  /** The model's pick if it is, once stripped, exactly one of the titles; otherwise the first title. */
  function SelectTitle(titles: seq<string>, reply: string): (r: string)
    requires |titles| >= 1
    ensures r in titles
    ensures Strip(reply) in titles <==> r == Strip(reply)
    ensures Strip(reply) !in titles ==> r == titles[0]
  {
    var picked := Strip(reply);
    if picked in titles then picked else titles[0]
  }

  /** One entry of the selection prompt's list: "n. title". */
  function NumberedLine(n: nat, t: string): (r: string)
    ensures |r| >= |t| + 3
    ensures var d := r[..|r| - |t| - 2];
      && d != [] && AllDigits(d) && DecimalValue(d) == n && (n == 0 || d[0] != '0')
      && r == d + ". " + t
  {
    var d := NatToString(n);
    var r := d + ". " + t;
    assert r[..|r| - |t| - 2] == d;
    DecimalRoundTrip(n);
    r
  }

  /** The entries of the selection list: entry i is title i numbered i + 1. */
  function NumberedLines(titles: seq<string>): (r: seq<string>)
    ensures |r| == |titles|
    ensures forall i :: 0 <= i < |titles| ==> r[i] == NumberedLine(i + 1, titles[i])
  {
    seq(|titles|, i requires 0 <= i < |titles| => NumberedLine(i + 1, titles[i]))
  }

  /** The list shown to the model for selection: "i. title" lines numbered from 1, joined by line feeds. */
  function FormatTitles(titles: seq<string>): string
  {
    Join("\n", NumberedLines(titles))
  }

  /** A title that can be listed and read back: no line feed, no ")". */
  predicate Listable(t: string) {
    IsTitle(t) && ')' !in t && '\n' !in t
  }

  lemma {:induction false} JoinEnds(sep: string, parts: seq<string>)
    requires |parts| >= 1 && forall i :: 0 <= i < |parts| ==> parts[i] != []
    ensures var r := Join(sep, parts);
      |r| >= 1 && r[0] == parts[0][0] && r[|r| - 1] == parts[|parts| - 1][|parts[|parts| - 1]| - 1]
  {
    if |parts| > 1 {
      JoinEnds(sep, parts[1..]);
    }
  }

  /** The selection list has one line per title, in list order. */
  lemma FormatTitlesLines(titles: seq<string>)
    requires |titles| >= 1
    requires forall i :: 0 <= i < |titles| ==> '\n' !in titles[i]
    ensures SplitLines(FormatTitles(titles)) == NumberedLines(titles)
  {
    var lines := NumberedLines(titles);
    forall i | 0 <= i < |lines| ensures '\n' !in lines[i] {
      var d := NatToString(i + 1);
      assert lines[i] == d + ". " + titles[i];
      assert '\n' !in d by {
        assert forall k :: 0 <= k < |d| ==> IsDigit(d[k]);
      }
    }
    SplitJoinLines(lines);
  }

  /** Each entry of the selection list parses back to its title. */
  lemma NumberedLineTitle(n: nat, t: string)
    requires Listable(t)
    ensures TitleFromLine(NumberedLine(n, t)) == Some(t)
  {
    DottedLineTitle(NatToString(n), t);
  }

  /** An empty reply parses to no titles. */
  lemma ParseEmptyReply()
    ensures ParseTitleList("") == []
  {
    StripStripped("");
    assert SplitLines("") == [""];
    assert TitleFromLine("") == None;
    assert MapSeq(TitleFromLine, [""]) == [None];
  }

  /** The selection list neither starts nor ends with whitespace. */
  lemma FormatTitlesStripped(titles: seq<string>)
    requires |titles| >= 1
    requires forall i :: 0 <= i < |titles| ==> Listable(titles[i])
    ensures IsStripped(FormatTitles(titles))
  {
    var lines := NumberedLines(titles);
    var last := |titles| - 1;
    assert lines[last] == NatToString(last + 1) + ". " + titles[last];
    assert lines[0] == NatToString(1) + ". " + titles[0];
    JoinEnds("\n", lines);
  }

  /** Parsing the selection list gives back exactly the listed titles. */
  lemma FormatThenParse(titles: seq<string>)
    requires forall i :: 0 <= i < |titles| ==> Listable(titles[i])
    ensures ParseTitleList(FormatTitles(titles)) == titles
  {
    if titles == [] {
      assert FormatTitles(titles) == "";
      ParseEmptyReply();
    } else {
      var lines := NumberedLines(titles);
      FormatTitlesStripped(titles);
      StripStripped(FormatTitles(titles));
      FormatTitlesLines(titles);
      forall i | 0 <= i < |lines| ensures TitleFromLine(lines[i]) == Some(titles[i]) {
        NumberedLineTitle(i + 1, titles[i]);
      }
      ParsedTitlesAllKept(lines, titles);
    }
  }

  /**
   * The title step as a function of its input state and the two model calls it
   * makes (brainstorming, then selection). A raised call fails the step with
   * that call's message; the selection call is made only after brainstorming
   * returned.
   */
  /** What the brainstorming call is asked about: topic, transcript section and style. */
  datatype GenerationPrompt = GenerationPrompt(topic: string, transcriptSection: string, style: string)

  /** What the selection call is asked about: the numbered candidate list, topic and style. */
  datatype SelectionPrompt = SelectionPrompt(titles: string, topic: string, style: string)

  /** The prompt fields of the title step's two calls, for a state and the
      brainstorming reply. */
  datatype TitlePrompts = TitlePrompts(generation: GenerationPrompt, selection: SelectionPrompt)

  function TitlePromptsOf(state: BlogState, generationReply: string): TitlePrompts
  {
    TitlePrompts(
      GenerationPrompt(state.topic, TranscriptSection(state.transcript), state.style),
      SelectionPrompt(FormatTitles(CandidateTitles(state.topic, generationReply)), state.topic, state.style))
  }

  function TitleStepResult(state: BlogState, generation: LlmReply, selection: LlmReply): (r: Result<Patch, string>)
    ensures r.Failure? <==> generation.Raised? || selection.Raised?
    ensures r.Failure? ==> r.error == if generation.Raised? then generation.message else selection.message
    ensures r.Success? ==> r.value.TitleUpdate? && Keys(r.value) == {BrainstormedTitles, SelectedTitle}
    ensures r.Success? ==>
      var titles := r.value.brainstormedTitles;
      && titles == CandidateTitles(state.topic, generation.content)
      && |titles| >= 1 && r.value.selectedTitle in titles
      && r.value.selectedTitle == SelectTitle(titles, selection.content)
  {
    if generation.Raised? then
      Failure(generation.message)
    else
      var titles := CandidateTitles(state.topic, generation.content);
      if selection.Raised? then
        Failure(selection.message)
      else
        Success(TitleUpdate(titles, SelectTitle(titles, selection.content)))
  }

  /** `title_agent`: the parse loop over the reply lines, the fallback and the selection check. */
  method TitleAgent(state: BlogState, generation: LlmReply, selection: LlmReply) returns (r: Result<Patch, string>)
    ensures r == TitleStepResult(state, generation, selection)
  {
    if generation.Raised? {
      return Failure(generation.message);
    }
    var lines := SplitLines(Strip(generation.content));
    ghost var cs := MapSeq(TitleFromLine, lines);
    var titles: seq<string> := [];
    var i := 0;
    while i < |lines|
      invariant 0 <= i <= |lines|
      invariant titles == Somes(cs[..i])
    {
      SomesPrefixStep(cs, i);
      assert cs[i] == TitleFromLine(lines[i]);
      var line := Strip(lines[i]);
      if line != [] && IsDigit(line[0]) {
        var title := Strip(AfterFirst(AfterFirst(line, '.'), ')'));
        if title != [] {
          titles := titles + [title];
        }
      }
      i := i + 1;
    }
    assert cs[..|lines|] == cs;
    if titles == [] {
      titles := [FallbackPrefix + state.topic];
    }
    if selection.Raised? {
      return Failure(selection.message);
    }
    var selected := Strip(selection.content);
    if selected !in titles {
      selected := titles[0];
    }
    r := Success(TitleUpdate(titles, selected));
  }
}
